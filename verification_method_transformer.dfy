/** Codec between `VerificationMethod` and its wire string. */
module VerificationMethodTransformer {
  import opened Wrappers
  import opened Types
  import opened Errors

  /** The wire strings the decoder accepts. */
  const WireValues: set<string> := {"NONE", "GOVERNMENT_ID", "KNOWLEDGE_OF_PII"}

  /** The fatal error raised for a wire string outside `WireValues`. */
  function UnrecognizedError(graphql: string): ClientError {
    FatalError("Unrecognized verification method '" + graphql + "' received from service")
  }

  /** Decodes a wire string; any other string is a fatal version-skew error. */
  function ToEntity(graphql: string): (r: Result<VerificationMethod, ClientError>)
    ensures r.Success? <==> graphql in WireValues
    ensures r.Success? ==> r.value.Value() == graphql
    ensures r.Failure? ==> r.error == UnrecognizedError(graphql)
  {
    if graphql == "NONE" then Success(None)
    else if graphql == "GOVERNMENT_ID" then Success(GovernmentID)
    else if graphql == "KNOWLEDGE_OF_PII" then Success(KnowledgeOfPII)
    else Failure(UnrecognizedError(graphql))
  }

  /** Encodes a method as its own string value; never fails. */
  function ToGraphQL(entity: VerificationMethod): (r: string)
    ensures r in WireValues
    ensures ToEntity(r) == Success(entity)
  {
    entity.Value()
  }

  /** Decoding then encoding gives back the accepted string. */
  lemma DecodeEncode(graphql: string)
    requires ToEntity(graphql).Success?
    ensures ToGraphQL(ToEntity(graphql).value) == graphql
  {
  }

  /** Two accepted strings that decode to the same method are equal. */
  lemma ToEntityInjective(s: string, t: string)
    requires ToEntity(s).Success? && ToEntity(t).Success?
    requires ToEntity(s) == ToEntity(t)
    ensures s == t
  {
    DecodeEncode(s);
    DecodeEncode(t);
  }

  /** Two methods with the same wire string are the same method. */
  lemma ToGraphQLInjective(m: VerificationMethod, n: VerificationMethod)
    requires ToGraphQL(m) == ToGraphQL(n)
    ensures m == n
  {
    assert ToEntity(ToGraphQL(m)) == Success(m);
    assert ToEntity(ToGraphQL(n)) == Success(n);
  }

  /** The error message names the rejected string between quotes. */
  lemma UnrecognizedMessageNamesValue(graphql: string)
    requires ToEntity(graphql).Failure?
    ensures var msg := ToEntity(graphql).error.message;
      var prefix := "Unrecognized verification method '";
      |prefix| + |graphql| <= |msg| && msg[|prefix|..|prefix| + |graphql|] == graphql
  {
    var prefix := "Unrecognized verification method '";
    var msg := prefix + graphql + "' received from service";
    assert msg[|prefix|..|prefix| + |graphql|] == graphql;
  }
}
