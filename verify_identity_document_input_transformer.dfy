/** Maps a local document request to the mutation variables of `verifyIdentityDocument`. */
module VerifyIdentityDocumentInputTransformer {
  import opened Wrappers
  import opened Types
  import opened GraphQLTypes
  import VerificationMethodTransformer
  import IdDocumentTypeTransformer

  /**
   * Encodes the method and the document type through their codecs and
   * copies the images and the country untouched. The method codec is the
   * identity on strings, so an absent method stays absent. Total.
   */
  function ToGraphQL(entity: VerifyIdentityDocumentInput): (r: WireVerifyIdentityDocumentInput)
    ensures r.verificationMethod.Present? <==> entity.verificationMethod.Present?
    ensures r.verificationMethod.Present? ==>
      VerificationMethodTransformer.ToEntity(r.verificationMethod.value) == Success(entity.verificationMethod.value)
    ensures IdDocumentTypeTransformer.ToEntity(r.documentType) == Success(entity.documentType)
    ensures && r.imageBase64 == entity.imageBase64 && r.backImageBase64 == entity.backImageBase64
            && r.country == entity.country
    ensures r.faceImageBase64 == entity.faceImageBase64
  {
    WireVerifyIdentityDocumentInput(
      match entity.verificationMethod
        case Present(m) => Present(VerificationMethodTransformer.ToGraphQL(m))
        case Absent => Absent,
      entity.imageBase64,
      entity.backImageBase64,
      entity.faceImageBase64,
      entity.country,
      IdDocumentTypeTransformer.ToGraphQL(entity.documentType))
  }

  /** Distinct requests give distinct mutation variables: nothing is lost on the wire. */
  lemma ToGraphQLInjective(a: VerifyIdentityDocumentInput, b: VerifyIdentityDocumentInput)
    requires ToGraphQL(a) == ToGraphQL(b)
    ensures a == b
  {
    if a.verificationMethod.Present? {
      VerificationMethodTransformer.ToGraphQLInjective(a.verificationMethod.value, b.verificationMethod.value);
    }
    assert IdDocumentTypeTransformer.ToEntity(ToGraphQL(a).documentType) == Success(a.documentType);
  }
}
