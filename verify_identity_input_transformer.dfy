/** Maps a local PII request to the mutation variables of `verifyIdentity`. */
module VerifyIdentityInputTransformer {
  import opened Wrappers
  import opened Types
  import opened GraphQLTypes
  import VerificationMethodTransformer

  /**
   * A field-for-field copy that encodes the method only when one is given;
   * an absent method stays absent. Total: there is no failure path.
   */
  function ToGraphQL(entity: VerifyIdentityInput): (r: WireVerifyIdentityInput)
    ensures r.verificationMethod.Present? <==> entity.verificationMethod.Present?
    ensures r.verificationMethod.Present? ==>
      VerificationMethodTransformer.ToEntity(r.verificationMethod.value) == Success(entity.verificationMethod.value)
    ensures && r.firstName == entity.firstName && r.lastName == entity.lastName
            && r.address == entity.address && r.postalCode == entity.postalCode
            && r.country == entity.country && r.dateOfBirth == entity.dateOfBirth
    ensures r.city == entity.city && r.state == entity.state
  {
    WireVerifyIdentityInput(
      if entity.verificationMethod.Absent? then Absent
      else Present(VerificationMethodTransformer.ToGraphQL(entity.verificationMethod.value)),
      entity.firstName,
      entity.lastName,
      entity.address,
      entity.city,
      entity.state,
      entity.postalCode,
      entity.country,
      entity.dateOfBirth)
  }

  /** Distinct requests give distinct mutation variables: nothing is lost on the wire. */
  lemma ToGraphQLInjective(a: VerifyIdentityInput, b: VerifyIdentityInput)
    requires ToGraphQL(a) == ToGraphQL(b)
    ensures a == b
  {
    if a.verificationMethod.Present? {
      VerificationMethodTransformer.ToGraphQLInjective(a.verificationMethod.value, b.verificationMethod.value);
    }
  }
}
