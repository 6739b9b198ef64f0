/**
 * The wrapper around the GraphQL transport. Each operation issues one query
 * or mutation and sorts what comes back into exactly one result: the
 * payload, or a single error. The transport itself is outside the model:
 * the calls issued are recorded in `calls`, and what the transport answered
 * is given to each operation as a `TransportOutcome`.
 */
module ApiClient {
  import opened Wrappers
  import opened Types
  import opened GraphQLTypes
  import opened Errors
  import ErrorTransformer

  datatype Operation =
    | GetIdentityVerificationCapabilities
    | CheckIdentityVerification
    | VerifyIdentity
    | VerifyIdentityDocument
    | CaptureAndVerifyIdentityDocument

  datatype MutationVariables =
    | PiiVariables(pii: WireVerifyIdentityInput)
    | DocumentVariables(document: WireVerifyIdentityDocumentInput)

  /** A request issued to the transport. */
  datatype TransportCall =
    // a query records the option the api client was handed and the policy it derived
    | Query(operation: Operation, queryOption: Option<QueryOption>, fetchPolicy: string)
    | Mutate(operation: Operation, variables: MutationVariables, fetchPolicy: string)
    // a call whose transport request is not part of this model
    | Unspecified(operation: Operation, variables: MutationVariables)
    | ClearStore

  /**
   * What the transport did with a call: it threw (an Apollo error, whose
   * GraphQL error list may be empty or missing, both modelled as empty), or
   * it returned a response with an error list and maybe the payload.
   */
  datatype TransportOutcome<T> =
    | Threw(graphQLErrors: seq<AppSyncError>)
    | Returned(errors: seq<AppSyncError>, data: Option<T>)

  /** The fetch policy every mutation uses. */
  const NoCache := "no-cache"

  /** A query uses the caller's option, or fetches from the service when there is none. */
  function QueryFetchPolicy(queryOption: Option<QueryOption>): (policy: string)
    ensures policy != NoCache
    ensures policy == "cache-only" <==> queryOption == Present(CacheOnly)
    ensures policy == "network-only" <==> queryOption != Present(CacheOnly)
  {
    queryOption.GetOr(RemoteOnly).Value()
  }

  /**
   * The decision after a transport call. A throw is classified by its first
   * GraphQL error, or is an unknown GraphQL error when it has none; a
   * response with errors is classified by its first error before the
   * payload is looked at; otherwise the payload is the result, and a
   * missing payload is fatal.
   */
  function Dispatch<T>(outcome: TransportOutcome<T>, noResultMessage: string,
                       mapGraphQLToClientError: AppSyncError -> ClientError): (r: Result<T, ClientError>)
    ensures r.Success? <==> outcome.Returned? && |outcome.errors| == 0 && outcome.data.Present?
    ensures r.Success? ==> r.value == outcome.data.value
    ensures outcome.Threw? && |outcome.graphQLErrors| > 0 ==>
      r == Failure(ErrorTransformer.ToClientError(outcome.graphQLErrors[0], mapGraphQLToClientError))
    ensures outcome.Threw? && |outcome.graphQLErrors| == 0 ==> r == Failure(UnknownGraphQLError)
    ensures outcome.Returned? && |outcome.errors| > 0 ==>
      r == Failure(ErrorTransformer.ToClientError(outcome.errors[0], mapGraphQLToClientError))
    ensures outcome.Returned? && |outcome.errors| == 0 && outcome.data.Absent? ==>
      r == Failure(FatalError(noResultMessage))
  {
    match outcome
    case Threw(graphQLErrors) =>
      if |graphQLErrors| > 0 then Failure(ErrorTransformer.ToClientError(graphQLErrors[0], mapGraphQLToClientError))
      else Failure(UnknownGraphQLError)
    case Returned(errors, data) =>
      if |errors| > 0 then Failure(ErrorTransformer.ToClientError(errors[0], mapGraphQLToClientError))
      else if data.Present? then Success(data.value)
      else Failure(FatalError(noResultMessage))
  }

  /** Only the first error of a response is classified, and then the payload does not matter. */
  lemma OnlyFirstErrorCounts<T>(e: AppSyncError, rest: seq<AppSyncError>, data: Option<T>, noResultMessage: string,
                                mapGraphQLToClientError: AppSyncError -> ClientError)
    ensures Dispatch(Returned([e] + rest, data), noResultMessage, mapGraphQLToClientError)
         == Dispatch(Returned([e], Absent), noResultMessage, mapGraphQLToClientError)
    ensures Dispatch(Threw([e] + rest), noResultMessage, mapGraphQLToClientError)
         == Dispatch(Returned([e], data), noResultMessage, mapGraphQLToClientError)
  {
  }

  /** A payload is returned only by a call that neither threw nor reported an error. */
  lemma PayloadOnlyWithoutErrors<T>(outcome: TransportOutcome<T>, noResultMessage: string,
                                    mapGraphQLToClientError: AppSyncError -> ClientError)
    requires Dispatch(outcome, noResultMessage, mapGraphQLToClientError).Success?
    ensures outcome == Returned([], Present(Dispatch(outcome, noResultMessage, mapGraphQLToClientError).value))
  {
  }

  class ApiClient {
    /** Every request issued to the transport, oldest first. */
    var calls: seq<TransportCall>
    /** The shared platform mapper for codes without a local error kind. */
    const mapGraphQLToClientError: AppSyncError -> ClientError

    constructor(mapGraphQLToClientError: AppSyncError -> ClientError)
      ensures calls == []
      ensures this.mapGraphQLToClientError == mapGraphQLToClientError
    {
      calls := [];
      this.mapGraphQLToClientError := mapGraphQLToClientError;
    }

    /** The try/catch and the checks after it that every operation shares. */
    method Settle<T>(outcome: TransportOutcome<T>, noResultMessage: string) returns (r: Result<T, ClientError>)
      ensures r == Dispatch(outcome, noResultMessage, mapGraphQLToClientError)
    {
      var result: (seq<AppSyncError>, Option<T>);
      match outcome {
        case Threw(graphQLErrors) =>
          if |graphQLErrors| > 0 {
            return Failure(ErrorTransformer.ToClientError(graphQLErrors[0], mapGraphQLToClientError));
          }
          return Failure(UnknownGraphQLError);
        case Returned(errors, data) =>
          result := (errors, data);
      }
      if |result.0| > 0 {
        return Failure(ErrorTransformer.ToClientError(result.0[0], mapGraphQLToClientError));
      }
      if result.1.Present? {
        return Success(result.1.value);
      }
      return Failure(FatalError(noResultMessage));
    }

    method GetCapabilities(queryOption: Option<QueryOption>,
                           outcome: TransportOutcome<IdentityVerificationCapabilities>)
      returns (r: Result<IdentityVerificationCapabilities, ClientError>)
      modifies this
      ensures calls == old(calls) + [Query(GetIdentityVerificationCapabilities, queryOption, QueryFetchPolicy(queryOption))]
      ensures r == Dispatch(outcome, "isFaceImageRequired did not return any result", mapGraphQLToClientError)
    {
      calls := calls + [Query(GetIdentityVerificationCapabilities, queryOption, QueryFetchPolicy(queryOption))];
      r := Settle(outcome, "isFaceImageRequired did not return any result");
    }

    method CheckIdentityVerification(queryOption: Option<QueryOption>,
                                     outcome: TransportOutcome<WireVerifiedIdentity>)
      returns (r: Result<WireVerifiedIdentity, ClientError>)
      modifies this
      ensures calls == old(calls) + [Query(Operation.CheckIdentityVerification, queryOption, QueryFetchPolicy(queryOption))]
      ensures r == Dispatch(outcome, "unable to retrieve identity verification status", mapGraphQLToClientError)
    {
      calls := calls + [Query(Operation.CheckIdentityVerification, queryOption, QueryFetchPolicy(queryOption))];
      r := Settle(outcome, "unable to retrieve identity verification status");
    }

    method VerifyIdentity(pii: WireVerifyIdentityInput, outcome: TransportOutcome<WireVerifiedIdentity>)
      returns (r: Result<WireVerifiedIdentity, ClientError>)
      modifies this
      ensures calls == old(calls) + [Mutate(Operation.VerifyIdentity, PiiVariables(pii), NoCache)]
      ensures r == Dispatch(outcome, "unable to verify identity", mapGraphQLToClientError)
    {
      calls := calls + [Mutate(Operation.VerifyIdentity, PiiVariables(pii), NoCache)];
      r := Settle(outcome, "unable to verify identity");
    }

    method VerifyIdentityDocument(idDocumentInfo: WireVerifyIdentityDocumentInput,
                                  outcome: TransportOutcome<WireVerifiedIdentity>)
      returns (r: Result<WireVerifiedIdentity, ClientError>)
      modifies this
      ensures calls == old(calls) + [Mutate(Operation.VerifyIdentityDocument, DocumentVariables(idDocumentInfo), NoCache)]
      ensures r == Dispatch(outcome, "unable to verify identity", mapGraphQLToClientError)
    {
      calls := calls + [Mutate(Operation.VerifyIdentityDocument, DocumentVariables(idDocumentInfo), NoCache)];
      r := Settle(outcome, "unable to verify identity");
    }

    /**
     * The facade calls this operation, but the api client does not define
     * it: its request and its answer are both left abstract.
     */
    method CaptureAndVerifyIdentityDocument(idDocumentInfo: WireVerifyIdentityDocumentInput,
                                            answer: Result<WireVerifiedIdentity, ClientError>)
      returns (r: Result<WireVerifiedIdentity, ClientError>)
      modifies this
      ensures calls == old(calls) + [Unspecified(Operation.CaptureAndVerifyIdentityDocument, DocumentVariables(idDocumentInfo))]
      ensures r == answer
    {
      calls := calls + [Unspecified(Operation.CaptureAndVerifyIdentityDocument, DocumentVariables(idDocumentInfo))];
      r := answer;
    }

    /** Clears the transport's cache and nothing else. */
    method Reset()
      modifies this
      ensures calls == old(calls) + [ClearStore]
    {
      calls := calls + [ClearStore];
    }
  }
}
