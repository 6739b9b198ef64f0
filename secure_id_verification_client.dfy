/**
 * The public facade. Every operation but `Reset` first requires a signed-in
 * user; the verification operations then apply their method policy to the
 * caller's request object (writing the default into it), encode the
 * request, call the api client and decode its answer.
 */
module SecureIdVerificationClient {
  import opened Wrappers
  import opened Types
  import opened GraphQLTypes
  import opened Errors
  import opened ApiClient
  import VerifiedIdentityTransformer
  import VerifyIdentityInputTransformer
  import VerifyIdentityDocumentInputTransformer

  /** A request object owned by the caller, which the facade may write into. */
  class InputObject<T> {
    var value: T

    constructor(value: T)
      ensures this.value == value
    {
      this.value := value;
    }
  }

  /** The message of the illegal-argument error for an unsupported method. */
  function UnsupportedMethodMessage(requested: VerificationMethod, operation: string): string {
    requested.Value() + " is not a supported verification method for " + operation
  }

  /**
   * The method policy of one operation: an absent method means the
   * operation's single supported method; any other explicit method is an
   * illegal argument naming the method and the operation.
   */
  function CheckVerificationMethod(requested: Option<VerificationMethod>, supported: VerificationMethod,
                                   operation: string): (r: Result<VerificationMethod, ClientError>)
    ensures r.Success? <==> requested == Absent || requested == Present(supported)
    ensures r.Success? ==> r.value == supported
    ensures r.Failure? ==> r.error == IllegalArgumentError(UnsupportedMethodMessage(requested.value, operation))
  {
    var chosen := requested.GetOr(supported);
    if chosen == supported then Success(chosen)
    else Failure(IllegalArgumentError(UnsupportedMethodMessage(chosen, operation)))
  }

  /** Supplying the method the policy would have chosen changes nothing: defaulting is idempotent. */
  lemma DefaultingIsIdempotent(requested: Option<VerificationMethod>, supported: VerificationMethod, operation: string)
    requires CheckVerificationMethod(requested, supported, operation).Success?
    ensures CheckVerificationMethod(Present(CheckVerificationMethod(requested, supported, operation).value), supported, operation)
         == CheckVerificationMethod(requested, supported, operation)
  {
  }

  /** `verifyIdentity` rejects every method but knowledge of PII, `None` included. */
  lemma VerifyIdentityPolicy(m: VerificationMethod)
    ensures CheckVerificationMethod(Present(m), KnowledgeOfPII, "verifyIdentity").Success? <==> m == KnowledgeOfPII
    ensures CheckVerificationMethod(Present(GovernmentID), KnowledgeOfPII, "verifyIdentity")
         == Failure(IllegalArgumentError("GOVERNMENT_ID" + " is not a supported verification method for " + "verifyIdentity"))
    ensures CheckVerificationMethod(Present(None), KnowledgeOfPII, "verifyIdentity")
         == Failure(IllegalArgumentError("NONE" + " is not a supported verification method for " + "verifyIdentity"))
  {
  }

  /** Both document operations reject knowledge of PII with a message naming `verifyIdentityDocument`. */
  lemma VerifyIdentityDocumentPolicy(m: VerificationMethod)
    ensures CheckVerificationMethod(Present(m), GovernmentID, "verifyIdentityDocument").Success? <==> m == GovernmentID
    ensures CheckVerificationMethod(Present(KnowledgeOfPII), GovernmentID, "verifyIdentityDocument")
         == Failure(IllegalArgumentError("KNOWLEDGE_OF_PII" + " is not a supported verification method for " + "verifyIdentityDocument"))
  {
  }

  /**
   * A verification call's answer, decoded when it carries a payload: it
   * succeeds exactly when the api client delivered a record whose every
   * enumeration is known; an api-client error passes through unchanged and
   * any other failure is the decoder's fatal error.
   */
  function VerificationResult(answer: Result<WireVerifiedIdentity, ClientError>): (r: Result<VerifiedIdentity, ClientError>)
    ensures r.Success? <==> answer.Success? && VerifiedIdentityTransformer.Decodable(answer.value)
    ensures answer.Failure? ==> r == Failure(answer.error)
    ensures answer.Success? && r.Failure? ==> r.error.FatalError?
  {
    var wire :- answer;
    VerifiedIdentityTransformer.ToEntity(wire)
  }

  /**
   * What a successful verification returns is the delivered record up to
   * null-versus-omitted and the last-attempt time: nothing else is lost or
   * invented on the way to the caller.
   */
  lemma VerificationResultKeepsRecord(answer: Result<WireVerifiedIdentity, ClientError>)
    ensures var r := VerificationResult(answer);
      r.Success? ==>
        && answer.Success?
        && VerifiedIdentityTransformer.WireRecordOf(r.value) == VerifiedIdentityTransformer.Normalised(answer.value)
  {
    if VerificationResult(answer).Success? {
      VerifiedIdentityTransformer.DecodeKeepsNormalisedRecord(answer.value);
    }
  }

  /** `checkIdentityVerification` on the response the facade's unit test feeds it. */
  lemma CheckIdentityVerificationScenario(now: int)
    ensures
      var wire := WireVerifiedIdentity(
        "o-uuid", false, Defined(0), "NONE", true, Undefined, Defined("KNOWLEDGE_OF_PII"),
        Defined([]), "notRequired", Defined(now));
      VerifiedIdentityTransformer.ToEntity(wire) == Success(VerifiedIdentity(
        "o-uuid", false, Present(0), None, true, Absent, Present(KnowledgeOfPII),
        Present([]), NotRequired, Absent))
  {
  }

  class DefaultSudoSecureIdVerificationClient {
    const apiClient: ApiClient

    constructor(apiClient: ApiClient)
      ensures this.apiClient == apiClient
    {
      this.apiClient := apiClient;
    }

    /** Delegates to the api client, which clears the transport cache. */
    method Reset()
      modifies apiClient
      ensures apiClient.calls == old(apiClient.calls) + [ClearStore]
    {
      apiClient.Reset();
    }

    method ListSupportedCountries(isSignedIn: bool, queryOption: Option<QueryOption>,
                                  outcome: TransportOutcome<IdentityVerificationCapabilities>)
      returns (r: Result<seq<string>, ClientError>)
      modifies apiClient
      ensures !isSignedIn ==> r == Failure(NotSignedInError) && apiClient.calls == old(apiClient.calls)
      ensures isSignedIn ==>
        apiClient.calls == old(apiClient.calls) + [Query(GetIdentityVerificationCapabilities, queryOption, QueryFetchPolicy(queryOption))]
      ensures isSignedIn ==>
        var answer := Dispatch(outcome, "isFaceImageRequired did not return any result", apiClient.mapGraphQLToClientError);
        r == if answer.Success? then Success(answer.value.supportedCountries) else Failure(answer.error)
    {
      if !isSignedIn {
        return Failure(NotSignedInError);
      }
      var capabilities :- apiClient.GetCapabilities(queryOption, outcome);
      r := Success(capabilities.supportedCountries);
    }

    method IsFaceImageRequired(isSignedIn: bool, queryOption: Option<QueryOption>,
                               outcome: TransportOutcome<IdentityVerificationCapabilities>)
      returns (r: Result<bool, ClientError>)
      modifies apiClient
      ensures !isSignedIn ==> r == Failure(NotSignedInError) && apiClient.calls == old(apiClient.calls)
      ensures isSignedIn ==>
        apiClient.calls == old(apiClient.calls) + [Query(GetIdentityVerificationCapabilities, queryOption, QueryFetchPolicy(queryOption))]
      ensures isSignedIn ==>
        var answer := Dispatch(outcome, "isFaceImageRequired did not return any result", apiClient.mapGraphQLToClientError);
        r == if answer.Success? then Success(answer.value.faceImageRequiredWithDocument) else Failure(answer.error)
    {
      if !isSignedIn {
        return Failure(NotSignedInError);
      }
      var capabilities :- apiClient.GetCapabilities(queryOption, outcome);
      r := Success(capabilities.faceImageRequiredWithDocument);
    }

    method CheckIdentityVerification(isSignedIn: bool, queryOption: Option<QueryOption>,
                                     outcome: TransportOutcome<WireVerifiedIdentity>)
      returns (r: Result<VerifiedIdentity, ClientError>)
      modifies apiClient
      ensures !isSignedIn ==> r == Failure(NotSignedInError) && apiClient.calls == old(apiClient.calls)
      ensures isSignedIn ==>
        apiClient.calls == old(apiClient.calls) + [Query(Operation.CheckIdentityVerification, queryOption, QueryFetchPolicy(queryOption))]
      ensures isSignedIn ==>
        r == VerificationResult(Dispatch(outcome, "unable to retrieve identity verification status",
                                         apiClient.mapGraphQLToClientError))
    {
      if !isSignedIn {
        return Failure(NotSignedInError);
      }
      var verifiedIdentity :- apiClient.CheckIdentityVerification(queryOption, outcome);
      r := VerifiedIdentityTransformer.ToEntity(verifiedIdentity);
    }

    /**
     * Writes the default method into the caller's request when it has none,
     * rejects any other method before the api client is called, and
     * otherwise sends exactly the encoding of the updated request.
     */
    method VerifyIdentity(isSignedIn: bool, pii: InputObject<VerifyIdentityInput>,
                          outcome: TransportOutcome<WireVerifiedIdentity>)
      returns (r: Result<VerifiedIdentity, ClientError>)
      modifies pii, apiClient
      ensures !isSignedIn ==>
        r == Failure(NotSignedInError) && pii.value == old(pii.value) && apiClient.calls == old(apiClient.calls)
      ensures isSignedIn ==>
        pii.value == old(pii.value).(verificationMethod := Present(old(pii.value).verificationMethod.GetOr(KnowledgeOfPII)))
      ensures isSignedIn ==>
        var policy := CheckVerificationMethod(old(pii.value).verificationMethod, KnowledgeOfPII, "verifyIdentity");
        && (policy.Failure? ==> r == Failure(policy.error) && apiClient.calls == old(apiClient.calls))
        && (policy.Success? ==>
              && apiClient.calls == old(apiClient.calls)
                   + [Mutate(Operation.VerifyIdentity, PiiVariables(VerifyIdentityInputTransformer.ToGraphQL(pii.value)), NoCache)]
              && r == VerificationResult(Dispatch(outcome, "unable to verify identity", apiClient.mapGraphQLToClientError)))
    {
      if !isSignedIn {
        return Failure(NotSignedInError);
      }
      if pii.value.verificationMethod.Absent? {
        pii.value := pii.value.(verificationMethod := Present(KnowledgeOfPII));
      }
      if pii.value.verificationMethod != Present(KnowledgeOfPII) {
        return Failure(IllegalArgumentError(UnsupportedMethodMessage(pii.value.verificationMethod.value, "verifyIdentity")));
      }
      var input := VerifyIdentityInputTransformer.ToGraphQL(pii.value);
      var verifiedIdentity :- apiClient.VerifyIdentity(input, outcome);
      r := VerifiedIdentityTransformer.ToEntity(verifiedIdentity);
    }

    /** As `VerifyIdentity`, with government ID as the one supported method. */
    method VerifyIdentityDocument(isSignedIn: bool, idDocumentInfo: InputObject<VerifyIdentityDocumentInput>,
                                  outcome: TransportOutcome<WireVerifiedIdentity>)
      returns (r: Result<VerifiedIdentity, ClientError>)
      modifies idDocumentInfo, apiClient
      ensures !isSignedIn ==>
        r == Failure(NotSignedInError) && idDocumentInfo.value == old(idDocumentInfo.value)
        && apiClient.calls == old(apiClient.calls)
      ensures isSignedIn ==>
        idDocumentInfo.value == old(idDocumentInfo.value).(verificationMethod :=
          Present(old(idDocumentInfo.value).verificationMethod.GetOr(GovernmentID)))
      ensures isSignedIn ==>
        var policy := CheckVerificationMethod(old(idDocumentInfo.value).verificationMethod, GovernmentID, "verifyIdentityDocument");
        && (policy.Failure? ==> r == Failure(policy.error) && apiClient.calls == old(apiClient.calls))
        && (policy.Success? ==>
              && apiClient.calls == old(apiClient.calls)
                   + [Mutate(Operation.VerifyIdentityDocument,
                             DocumentVariables(VerifyIdentityDocumentInputTransformer.ToGraphQL(idDocumentInfo.value)), NoCache)]
              && r == VerificationResult(Dispatch(outcome, "unable to verify identity", apiClient.mapGraphQLToClientError)))
    {
      if !isSignedIn {
        return Failure(NotSignedInError);
      }
      if idDocumentInfo.value.verificationMethod.Absent? {
        idDocumentInfo.value := idDocumentInfo.value.(verificationMethod := Present(GovernmentID));
      }
      if idDocumentInfo.value.verificationMethod != Present(GovernmentID) {
        return Failure(IllegalArgumentError(
          UnsupportedMethodMessage(idDocumentInfo.value.verificationMethod.value, "verifyIdentityDocument")));
      }
      var input := VerifyIdentityDocumentInputTransformer.ToGraphQL(idDocumentInfo.value);
      var verifiedIdentity :- apiClient.VerifyIdentityDocument(input, outcome);
      r := VerifiedIdentityTransformer.ToEntity(verifiedIdentity);
    }

    /**
     * The same policy and message as `VerifyIdentityDocument`; the api-client
     * call it makes is left abstract, so its answer is a parameter.
     */
    method CaptureAndVerifyIdentityDocument(isSignedIn: bool, idDocumentInfo: InputObject<VerifyIdentityDocumentInput>,
                                            answer: Result<WireVerifiedIdentity, ClientError>)
      returns (r: Result<VerifiedIdentity, ClientError>)
      modifies idDocumentInfo, apiClient
      ensures !isSignedIn ==>
        r == Failure(NotSignedInError) && idDocumentInfo.value == old(idDocumentInfo.value)
        && apiClient.calls == old(apiClient.calls)
      ensures isSignedIn ==>
        idDocumentInfo.value == old(idDocumentInfo.value).(verificationMethod :=
          Present(old(idDocumentInfo.value).verificationMethod.GetOr(GovernmentID)))
      ensures isSignedIn ==>
        var policy := CheckVerificationMethod(old(idDocumentInfo.value).verificationMethod, GovernmentID, "verifyIdentityDocument");
        && (policy.Failure? ==> r == Failure(policy.error) && apiClient.calls == old(apiClient.calls))
        && (policy.Success? ==>
              && apiClient.calls == old(apiClient.calls)
                   + [Unspecified(Operation.CaptureAndVerifyIdentityDocument,
                                  DocumentVariables(VerifyIdentityDocumentInputTransformer.ToGraphQL(idDocumentInfo.value)))]
              && r == VerificationResult(answer))
    {
      if !isSignedIn {
        return Failure(NotSignedInError);
      }
      if idDocumentInfo.value.verificationMethod.Absent? {
        idDocumentInfo.value := idDocumentInfo.value.(verificationMethod := Present(GovernmentID));
      }
      if idDocumentInfo.value.verificationMethod != Present(GovernmentID) {
        return Failure(IllegalArgumentError(
          UnsupportedMethodMessage(idDocumentInfo.value.verificationMethod.value, "verifyIdentityDocument")));
      }
      var input := VerifyIdentityDocumentInputTransformer.ToGraphQL(idDocumentInfo.value);
      var verifiedIdentity :- apiClient.CaptureAndVerifyIdentityDocument(input, answer);
      r := VerifiedIdentityTransformer.ToEntity(verifiedIdentity);
    }
  }
}
