/**
 * Classifies a GraphQL error from the service by its `errorType` code. Eight
 * codes have a local error kind; every other code, and a missing one, goes
 * to the shared platform mapper, which this model takes as a parameter
 * because its definition is not part of this model.
 */
module ErrorTransformer {
  import opened Wrappers
  import opened Errors

  const VersionMismatchCode := "DynamoDB:ConditionalCheckFailedException"
  const RecordNotFoundCode := "sudoplatform.identity-verification.IdentityVerificationRecordNotFoundError"
  const UpdateFailedCode := "sudoplatform.identity-verification.IdentityVerificationUpdateFailedError"
  const UnsupportedMethodCode := "sudoplatform.identity-verification.UnsupportedVerificationMethodError"
  const ImplausibleAgeCode := "sudoplatform.identity-verification.ImplausibleAgeError"
  const InvalidAgeCode := "sudoplatform.identity-verification.InvalidAgeError"
  const UnsupportedCountryCode := "sudoplatform.identity-verification.UnsupportedCountryError"
  const UnsupportedNetworkLocationCode := "sudoplatform.identity-verification.UnsupportedNetworkLocationError"

  /** The codes handled locally. */
  const LocalCodes: set<string> := {
    VersionMismatchCode, RecordNotFoundCode, UpdateFailedCode, UnsupportedMethodCode,
    ImplausibleAgeCode, InvalidAgeCode, UnsupportedCountryCode, UnsupportedNetworkLocationCode
  }

  /**
   * The reverse table, written independently of the classifier: the wire
   * code of each locally classified error kind, absent for every other kind.
   */
  function LocalCodeOf(e: ClientError): Option<string> {
    match e
    case VersionMismatchError => Present(VersionMismatchCode)
    case IdentityVerificationRecordNotFoundError(_) => Present(RecordNotFoundCode)
    case IdentityVerificationUpdateFailedError(_) => Present(UpdateFailedCode)
    case UnsupportedVerificationMethodError(_) => Present(UnsupportedMethodCode)
    case ImplausibleAgeError(_) => Present(ImplausibleAgeCode)
    case InvalidAgeError(_) => Present(InvalidAgeCode)
    case UnsupportedCountryError(_) => Present(UnsupportedCountryCode)
    case UnsupportedNetworkLocationError(_) => Present(UnsupportedNetworkLocationCode)
    case _ => Absent
  }

  /** The message an error kind carries, if its kind carries one. */
  function MessageOf(e: ClientError): Option<string> {
    match e
    case IllegalArgumentError(m) => Present(m)
    case FatalError(m) => Present(m)
    case ServiceError(m) => Present(m)
    case IdentityVerificationRecordNotFoundError(m) => Present(m)
    case IdentityVerificationUpdateFailedError(m) => Present(m)
    case UnsupportedVerificationMethodError(m) => Present(m)
    case ImplausibleAgeError(m) => Present(m)
    case InvalidAgeError(m) => Present(m)
    case UnsupportedCountryError(m) => Present(m)
    case UnsupportedNetworkLocationError(m) => Present(m)
    case _ => Absent
  }

  predicate IsLocalCode(errorType: Option<string>) {
    errorType.Present? && errorType.value in LocalCodes
  }

  /**
   * A local code yields the kind whose reverse-table entry is that code,
   * carrying the wire message (except the version mismatch, which carries
   * none); any other code is delegated. Never fails.
   */
  function ToClientError(error: AppSyncError, mapGraphQLToClientError: AppSyncError -> ClientError): (r: ClientError)
    ensures IsLocalCode(error.errorType) ==> LocalCodeOf(r) == error.errorType
    ensures IsLocalCode(error.errorType) ==>
      MessageOf(r) == if error.errorType == Present(VersionMismatchCode) then Absent else Present(error.message)
    ensures !IsLocalCode(error.errorType) ==> r == mapGraphQLToClientError(error)
  {
    match error.errorType
    case Absent => mapGraphQLToClientError(error)
    case Present(code) =>
      if code == VersionMismatchCode then VersionMismatchError
      else if code == RecordNotFoundCode then IdentityVerificationRecordNotFoundError(error.message)
      else if code == UpdateFailedCode then IdentityVerificationUpdateFailedError(error.message)
      else if code == UnsupportedMethodCode then UnsupportedVerificationMethodError(error.message)
      else if code == ImplausibleAgeCode then ImplausibleAgeError(error.message)
      else if code == InvalidAgeCode then InvalidAgeError(error.message)
      else if code == UnsupportedCountryCode then UnsupportedCountryError(error.message)
      else if code == UnsupportedNetworkLocationCode then UnsupportedNetworkLocationError(error.message)
      else mapGraphQLToClientError(error)
  }

  /**
   * Every locally classified kind is produced from its own code, and from
   * its own message when it carries one.
   */
  lemma LocalKindRoundTrip(k: ClientError, message: string, mapGraphQLToClientError: AppSyncError -> ClientError)
    requires LocalCodeOf(k).Present?
    requires MessageOf(k).Present? ==> message == MessageOf(k).value
    ensures ToClientError(AppSyncError(LocalCodeOf(k), message), mapGraphQLToClientError) == k
  {
  }

  /** The eight local codes give eight pairwise distinct kinds, whatever the messages. */
  lemma LocalKindsDistinct(a: AppSyncError, b: AppSyncError, mapGraphQLToClientError: AppSyncError -> ClientError)
    requires IsLocalCode(a.errorType) && IsLocalCode(b.errorType)
    requires a.errorType != b.errorType
    ensures ToClientError(a, mapGraphQLToClientError) != ToClientError(b, mapGraphQLToClientError)
  {
    assert LocalCodeOf(ToClientError(a, mapGraphQLToClientError)) == a.errorType;
    assert LocalCodeOf(ToClientError(b, mapGraphQLToClientError)) == b.errorType;
  }

  /** The rows of the classifier's test table whose expectation does not rest on the shared mapper. */
  lemma LocalTestRows(message: string, mapGraphQLToClientError: AppSyncError -> ClientError)
    ensures ToClientError(AppSyncError(Present("DynamoDB:ConditionalCheckFailedException"), message), mapGraphQLToClientError)
      == VersionMismatchError
    ensures ToClientError(AppSyncError(Present("sudoplatform.identity-verification.IdentityVerificationRecordNotFoundError"), message), mapGraphQLToClientError)
      == IdentityVerificationRecordNotFoundError(message)
    ensures ToClientError(AppSyncError(Present("sudoplatform.identity-verification.IdentityVerificationUpdateFailedError"), message), mapGraphQLToClientError)
      == IdentityVerificationUpdateFailedError(message)
    ensures ToClientError(AppSyncError(Present("sudoplatform.identity-verification.UnsupportedVerificationMethodError"), message), mapGraphQLToClientError)
      == UnsupportedVerificationMethodError(message)
    ensures ToClientError(AppSyncError(Present("sudoplatform.identity-verification.ImplausibleAgeError"), message), mapGraphQLToClientError)
      == ImplausibleAgeError(message)
    ensures ToClientError(AppSyncError(Present("sudoplatform.identity-verification.InvalidAgeError"), message), mapGraphQLToClientError)
      == InvalidAgeError(message)
    ensures ToClientError(AppSyncError(Present("sudoplatform.identity-verification.UnsupportedCountryError"), message), mapGraphQLToClientError)
      == UnsupportedCountryError(message)
    ensures ToClientError(AppSyncError(Present("sudoplatform.identity-verification.UnsupportedNetworkLocationError"), message), mapGraphQLToClientError)
      == UnsupportedNetworkLocationError(message)
  {
  }
}
