/** Codec between `IdDocumentType` and its wire string. */
module IdDocumentTypeTransformer {
  import opened Wrappers
  import opened Types
  import opened Errors

  /** The wire strings the decoder accepts. */
  const WireValues: set<string> := {"driverLicense", "passport", "idCard"}

  /** The fatal error raised for a wire string outside `WireValues`. */
  function UnrecognizedError(graphql: string): ClientError {
    FatalError("Unrecognized document type '" + graphql + "' received from service")
  }

  /** Encodes a document type as its own string value; never fails. */
  function ToGraphQL(entity: IdDocumentType): (r: string)
    ensures r in WireValues
    ensures ToEntity(r) == Success(entity)
  {
    entity.Value()
  }

  /** Decodes a wire string; any other string is a fatal version-skew error. */
  function ToEntity(graphql: string): (r: Result<IdDocumentType, ClientError>)
    ensures r.Success? <==> graphql in WireValues
    ensures r.Success? ==> r.value.Value() == graphql
    ensures r.Failure? ==> r.error == UnrecognizedError(graphql)
  {
    if graphql == "driverLicense" then Success(DriverLicense)
    else if graphql == "passport" then Success(Passport)
    else if graphql == "idCard" then Success(IdCard)
    else Failure(UnrecognizedError(graphql))
  }

  /** Decoding then encoding gives back the accepted string. */
  lemma DecodeEncode(graphql: string)
    requires ToEntity(graphql).Success?
    ensures ToGraphQL(ToEntity(graphql).value) == graphql
  {
  }

  /** Two accepted strings that decode to the same type are equal. */
  lemma ToEntityInjective(s: string, t: string)
    requires ToEntity(s).Success? && ToEntity(t).Success?
    requires ToEntity(s) == ToEntity(t)
    ensures s == t
  {
    DecodeEncode(s);
    DecodeEncode(t);
  }
}
