/**
 * The errors the SDK raises: its own identity-verification errors and the
 * shared platform errors it uses. Only the kind and the message are kept.
 */
module Errors {
  import opened Wrappers

  datatype ClientError =
    // shared platform errors
    | NotSignedInError
    | IllegalArgumentError(message: string)
    | FatalError(message: string)
    | UnknownGraphQLError
    | VersionMismatchError
    | ServiceError(message: string)
    // identity-verification errors
    | IdentityVerificationRecordNotFoundError(message: string)
    | IdentityVerificationUpdateFailedError(message: string)
    | UnsupportedVerificationMethodError(message: string)
    | ImplausibleAgeError(message: string)
    | InvalidAgeError(message: string)
    | UnsupportedCountryError(message: string)
    | UnsupportedNetworkLocationError(message: string)

  /**
   * The part of an AppSync GraphQL error this model keeps: its code (a null
   * and a missing code are both absent) and its message. Locations, path and
   * extensions are dropped, so the shared mapper sees only these two fields.
   */
  datatype AppSyncError = AppSyncError(errorType: Option<string>, message: string)
}
