/**
 * The wire (GraphQL) shapes the service sends and receives. Enumerations
 * travel as plain strings; optional response fields may be omitted or null.
 */
module GraphQLTypes {
  import opened Wrappers

  /** The service's verified-identity record, before local normalisation. */
  datatype WireVerifiedIdentity = WireVerifiedIdentity(
    owner: string,
    verified: bool,
    verifiedAtEpochMs: Nullable<int>,
    verificationMethod: string,
    canAttemptVerificationAgain: bool,
    idScanUrl: Nullable<string>,
    requiredVerificationMethod: Nullable<string>,
    acceptableDocumentTypes: Nullable<seq<string>>,
    documentVerificationStatus: string,
    verificationLastAttemptedAtEpochMs: Nullable<int>
  )

  /** The service's capability record. */
  datatype IdentityVerificationCapabilities = IdentityVerificationCapabilities(
    supportedCountries: seq<string>,
    faceImageRequiredWithDocument: bool
  )

  /** Mutation variables for a PII verification. */
  datatype WireVerifyIdentityInput = WireVerifyIdentityInput(
    verificationMethod: Option<string>,
    firstName: string,
    lastName: string,
    address: string,
    city: Option<string>,
    state: Option<string>,
    postalCode: string,
    country: string,
    dateOfBirth: string
  )

  /** Mutation variables for a document verification. */
  datatype WireVerifyIdentityDocumentInput = WireVerifyIdentityDocumentInput(
    verificationMethod: Option<string>,
    imageBase64: string,
    backImageBase64: string,
    faceImageBase64: Option<string>,
    country: string,
    documentType: string
  )
}
