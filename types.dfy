/**
 * The public types of the SDK: the three closed enumerations whose members
 * are their own wire strings, the query option, and the local request and
 * result records.
 */
module Types {
  import opened Wrappers

  /** How a user's identity is, or must be, verified. */
  datatype VerificationMethod = None | KnowledgeOfPII | GovernmentID {
    /** The string each enum member stands for. */
    function Value(): string {
      match this
      case None => "NONE"
      case KnowledgeOfPII => "KNOWLEDGE_OF_PII"
      case GovernmentID => "GOVERNMENT_ID"
    }
  }

  /** The kind of government identity document presented. */
  datatype IdDocumentType = DriverLicense | Passport | IdCard {
    function Value(): string {
      match this
      case DriverLicense => "driverLicense"
      case Passport => "passport"
      case IdCard => "idCard"
    }
  }

  /** Where the document part of a verification stands. */
  datatype DocumentVerificationStatus =
    | NotRequired
    | NotAttempted
    | Pending
    | DocumentUnreadable
    | Failed
    | Succeeded
  {
    function Value(): string {
      match this
      case NotRequired => "notRequired"
      case NotAttempted => "notAttempted"
      case Pending => "pending"
      case DocumentUnreadable => "documentUnreadable"
      case Failed => "failed"
      case Succeeded => "succeeded"
    }
  }

  /** Whether a query may be answered from the local cache. */
  datatype QueryOption = CacheOnly | RemoteOnly {
    function Value(): string {
      match this
      case CacheOnly => "cache-only"
      case RemoteOnly => "network-only"
    }
  }

  /**
   * The local view of a user's verification state. Timestamps are epoch
   * milliseconds.
   */
  datatype VerifiedIdentity = VerifiedIdentity(
    owner: string,
    verified: bool,
    verifiedAt: Option<int>,
    verificationMethod: VerificationMethod,
    canAttemptVerificationAgain: bool,
    idScanUrl: Option<string>,
    requiredVerificationMethod: Option<VerificationMethod>,
    acceptableDocumentTypes: Option<seq<IdDocumentType>>,
    documentVerificationStatus: DocumentVerificationStatus,
    verificationLastAttemptedAt: Option<int>
  )

  /** A request to verify identity from personally identifying information. */
  datatype VerifyIdentityInput = VerifyIdentityInput(
    verificationMethod: Option<VerificationMethod>,
    firstName: string,
    lastName: string,
    address: string,
    city: Option<string>,
    state: Option<string>,
    postalCode: string,
    country: string,
    dateOfBirth: string
  )

  /** A request to verify identity from base64-encoded document images. */
  datatype VerifyIdentityDocumentInput = VerifyIdentityDocumentInput(
    verificationMethod: Option<VerificationMethod>,
    imageBase64: string,
    backImageBase64: string,
    faceImageBase64: Option<string>,
    country: string,
    documentType: IdDocumentType
  )
}
