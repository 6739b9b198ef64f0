/** Codec between `DocumentVerificationStatus` and its wire string. */
module DocumentVerificationStatusTransformer {
  import opened Wrappers
  import opened Types
  import opened Errors

  /** The wire strings the decoder accepts. */
  const WireValues: set<string> :=
    {"notRequired", "notAttempted", "pending", "documentUnreadable", "failed", "succeeded"}

  /** The fatal error raised for a wire string outside `WireValues`. */
  function UnrecognizedError(graphql: string): ClientError {
    FatalError("Unrecognized document verification status '" + graphql + "' received from service")
  }

  /** Encodes a status as its own string value; never fails. */
  function ToGraphQL(entity: DocumentVerificationStatus): (r: string)
    ensures r in WireValues
    ensures ToEntity(r) == Success(entity)
  {
    entity.Value()
  }

  /** Decodes a wire string; any other string is a fatal version-skew error. */
  function ToEntity(graphql: string): (r: Result<DocumentVerificationStatus, ClientError>)
    ensures r.Success? <==> graphql in WireValues
    ensures r.Success? ==> r.value.Value() == graphql
    ensures r.Failure? ==> r.error == UnrecognizedError(graphql)
  {
    if graphql == "notRequired" then Success(NotRequired)
    else if graphql == "notAttempted" then Success(NotAttempted)
    else if graphql == "pending" then Success(Pending)
    else if graphql == "documentUnreadable" then Success(DocumentUnreadable)
    else if graphql == "failed" then Success(Failed)
    else if graphql == "succeeded" then Success(Succeeded)
    else Failure(UnrecognizedError(graphql))
  }

  /** Decoding then encoding gives back the accepted string. */
  lemma DecodeEncode(graphql: string)
    requires ToEntity(graphql).Success?
    ensures ToGraphQL(ToEntity(graphql).value) == graphql
  {
  }

  /** Two accepted strings that decode to the same status are equal. */
  lemma ToEntityInjective(s: string, t: string)
    requires ToEntity(s).Success? && ToEntity(t).Success?
    requires ToEntity(s) == ToEntity(t)
    ensures s == t
  {
    DecodeEncode(s);
    DecodeEncode(t);
  }
}
