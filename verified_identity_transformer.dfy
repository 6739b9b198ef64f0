/**
 * Normalises the service's verified-identity record into the local
 * `VerifiedIdentity`: nullish optionals become absent, epoch milliseconds
 * become timestamps (zero included), and every enumeration goes through its
 * codec, so an unknown wire string makes the whole decoding fail.
 */
module VerifiedIdentityTransformer {
  import opened Wrappers
  import opened Types
  import opened GraphQLTypes
  import opened Errors
  import VerificationMethodTransformer
  import IdDocumentTypeTransformer
  import DocumentVerificationStatusTransformer

  /** Every element is a known document-type string. */
  predicate AllDocumentTypesKnown(graphql: seq<string>) {
    forall i :: 0 <= i < |graphql| ==> graphql[i] in IdDocumentTypeTransformer.WireValues
  }

  /**
   * `graphql.map(IdDocumentTypeTransformer.toEntity)`: decodes left to right
   * and stops with the error of the first unknown element.
   */
  function MapDocumentTypes(graphql: seq<string>): (r: Result<seq<IdDocumentType>, ClientError>)
    ensures r.Success? <==> AllDocumentTypesKnown(graphql)
    ensures r.Success? ==> |r.value| == |graphql|
    ensures r.Success? ==> forall i :: 0 <= i < |graphql| ==> r.value[i].Value() == graphql[i]
    ensures r.Failure? ==> r.error.FatalError?
  {
    if graphql == [] then Success([])
    else
      var head :- IdDocumentTypeTransformer.ToEntity(graphql[0]);
      var tail :- MapDocumentTypes(graphql[1..]);
      Success([head] + tail)
  }

  /** A failed mapping reports the first unknown element, as `map` stops at the first throw. */
  lemma {:induction false} MapDocumentTypesFailsAtFirstUnknown(graphql: seq<string>)
    requires MapDocumentTypes(graphql).Failure?
    ensures exists k ::
      && 0 <= k < |graphql|
      && graphql[k] !in IdDocumentTypeTransformer.WireValues
      && AllDocumentTypesKnown(graphql[..k])
      && MapDocumentTypes(graphql).error == IdDocumentTypeTransformer.UnrecognizedError(graphql[k])
  {
    if graphql[0] !in IdDocumentTypeTransformer.WireValues {
      assert graphql[..0] == [];
    } else {
      var tail := graphql[1..];
      MapDocumentTypesFailsAtFirstUnknown(tail);
      var k :| 0 <= k < |tail| && tail[k] !in IdDocumentTypeTransformer.WireValues
        && AllDocumentTypesKnown(tail[..k])
        && MapDocumentTypes(tail).error == IdDocumentTypeTransformer.UnrecognizedError(tail[k]);
      assert graphql[..k + 1] == [graphql[0]] + tail[..k];
      assert graphql[k + 1] == tail[k];
    }
  }

  /** Every enumeration in the record is one the codecs know. */
  predicate Decodable(graphql: WireVerifiedIdentity) {
    && graphql.verificationMethod in VerificationMethodTransformer.WireValues
    && (graphql.requiredVerificationMethod.Defined? ==>
          graphql.requiredVerificationMethod.value in VerificationMethodTransformer.WireValues)
    && (graphql.acceptableDocumentTypes.Defined? ==>
          AllDocumentTypesKnown(graphql.acceptableDocumentTypes.value))
    && graphql.documentVerificationStatus in DocumentVerificationStatusTransformer.WireValues
  }

  function RequiredMethodToEntity(graphql: Nullable<string>): (r: Result<Option<VerificationMethod>, ClientError>)
  {
    if graphql.IsNullish() then Success(Absent)
    else
      var m :- VerificationMethodTransformer.ToEntity(graphql.value);
      Success(Present(m))
  }

  function AcceptableDocumentTypesToEntity(graphql: Nullable<seq<string>>): (r: Result<Option<seq<IdDocumentType>>, ClientError>)
  {
    if graphql.IsNullish() then Success(Absent)
    else
      var ts :- MapDocumentTypes(graphql.value);
      Success(Present(ts))
  }

  /**
   * Builds the local record. The fields are evaluated in the order of the
   * object literal, so the first unknown enumeration in that order is the
   * error reported.
   */
  function ToEntity(graphql: WireVerifiedIdentity): (r: Result<VerifiedIdentity, ClientError>)
    ensures r.Success? <==> Decodable(graphql)
    ensures r.Failure? ==> r.error.FatalError?
    ensures graphql.verificationMethod !in VerificationMethodTransformer.WireValues ==>
      r == Failure(VerificationMethodTransformer.UnrecognizedError(graphql.verificationMethod))
    ensures r.Success? ==>
      && r.value.owner == graphql.owner
      && r.value.verified == graphql.verified
      && r.value.canAttemptVerificationAgain == graphql.canAttemptVerificationAgain
    ensures r.Success? ==>
      && (r.value.verifiedAt.Absent? <==> graphql.verifiedAtEpochMs.IsNullish())
      && (graphql.verifiedAtEpochMs.Defined? ==> r.value.verifiedAt == Present(graphql.verifiedAtEpochMs.value))
    ensures r.Success? ==>
      && (r.value.idScanUrl.Absent? <==> graphql.idScanUrl.IsNullish())
      && (graphql.idScanUrl.Defined? ==> r.value.idScanUrl == Present(graphql.idScanUrl.value))
    ensures r.Success? ==>
      && r.value.verificationMethod.Value() == graphql.verificationMethod
      && r.value.documentVerificationStatus.Value() == graphql.documentVerificationStatus
    ensures r.Success? ==>
      && (r.value.requiredVerificationMethod.Absent? <==> graphql.requiredVerificationMethod.IsNullish())
      && (graphql.requiredVerificationMethod.Defined? ==>
            r.value.requiredVerificationMethod.value.Value() == graphql.requiredVerificationMethod.value)
    ensures r.Success? ==>
      && (r.value.acceptableDocumentTypes.Absent? <==> graphql.acceptableDocumentTypes.IsNullish())
      && (graphql.acceptableDocumentTypes.Defined? ==>
            var wire, local := graphql.acceptableDocumentTypes.value, r.value.acceptableDocumentTypes.value;
            |local| == |wire| && forall i :: 0 <= i < |wire| ==> local[i].Value() == wire[i])
    ensures r.Success? ==> r.value.verificationLastAttemptedAt.Absent?
  {
    var verificationMethod :- VerificationMethodTransformer.ToEntity(graphql.verificationMethod);
    var requiredVerificationMethod :- RequiredMethodToEntity(graphql.requiredVerificationMethod);
    var acceptableDocumentTypes :- AcceptableDocumentTypesToEntity(graphql.acceptableDocumentTypes);
    var documentVerificationStatus :- DocumentVerificationStatusTransformer.ToEntity(graphql.documentVerificationStatus);
    Success(VerifiedIdentity(
      graphql.owner,
      graphql.verified,
      graphql.verifiedAtEpochMs.OrAbsent(),
      verificationMethod,
      graphql.canAttemptVerificationAgain,
      graphql.idScanUrl.OrAbsent(),
      requiredVerificationMethod,
      acceptableDocumentTypes,
      documentVerificationStatus,
      Absent))
  }

  /**
   * The wire record a service would send for `entity`: every enumeration as
   * its string and every absent optional omitted. It is the reference
   * against which `ToEntity` is checked in both directions.
   */
  function WireRecordOf(entity: VerifiedIdentity): WireVerifiedIdentity {
    WireVerifiedIdentity(
      entity.owner,
      entity.verified,
      entity.verifiedAt.Omitted(),
      entity.verificationMethod.Value(),
      entity.canAttemptVerificationAgain,
      entity.idScanUrl.Omitted(),
      match entity.requiredVerificationMethod
        case Present(m) => Defined(m.Value())
        case Absent => Undefined,
      match entity.acceptableDocumentTypes
        case Present(ts) => Defined(DocumentTypeValues(ts))
        case Absent => Undefined,
      entity.documentVerificationStatus.Value(),
      entity.verificationLastAttemptedAt.Omitted())
  }

  function DocumentTypeValues(ts: seq<IdDocumentType>): seq<string> {
    seq(|ts|, i requires 0 <= i < |ts| => ts[i].Value())
  }

  /**
   * `graphql` with every null turned into an omission and the last-attempt
   * time dropped: exactly the information `ToEntity` keeps.
   */
  function Normalised(graphql: WireVerifiedIdentity): WireVerifiedIdentity {
    graphql.(
      verifiedAtEpochMs := graphql.verifiedAtEpochMs.OrAbsent().Omitted(),
      idScanUrl := graphql.idScanUrl.OrAbsent().Omitted(),
      requiredVerificationMethod := graphql.requiredVerificationMethod.OrAbsent().Omitted(),
      acceptableDocumentTypes := graphql.acceptableDocumentTypes.OrAbsent().Omitted(),
      verificationLastAttemptedAtEpochMs := Undefined)
  }

  /** Mapping the strings of a list of document types gives back that list. */
  lemma {:induction false} MapDocumentTypesRoundTrip(ts: seq<IdDocumentType>)
    ensures MapDocumentTypes(DocumentTypeValues(ts)) == Success(ts)
  {
    if ts != [] {
      var values := DocumentTypeValues(ts);
      MapDocumentTypesRoundTrip(ts[1..]);
      assert values[1..] == DocumentTypeValues(ts[1..]);
      assert IdDocumentTypeTransformer.ToEntity(values[0]) == Success(ts[0]) by {
        assert values[0] == IdDocumentTypeTransformer.ToGraphQL(ts[0]);
      }
      assert ts == [ts[0]] + ts[1..];
    }
  }

  /**
   * Every local record without a last-attempt time is what `ToEntity` makes
   * of its own wire record.
   */
  lemma RoundTrip(entity: VerifiedIdentity)
    requires entity.verificationLastAttemptedAt.Absent?
    ensures ToEntity(WireRecordOf(entity)) == Success(entity)
  {
    var wire := WireRecordOf(entity);
    assert VerificationMethodTransformer.ToEntity(wire.verificationMethod) == Success(entity.verificationMethod);
    assert DocumentVerificationStatusTransformer.ToEntity(wire.documentVerificationStatus)
      == Success(entity.documentVerificationStatus);
    assert wire.verifiedAtEpochMs.OrAbsent() == entity.verifiedAt;
    assert wire.idScanUrl.OrAbsent() == entity.idScanUrl;
    assert RequiredMethodToEntity(wire.requiredVerificationMethod) == Success(entity.requiredVerificationMethod);
    if entity.acceptableDocumentTypes.Present? {
      MapDocumentTypesRoundTrip(entity.acceptableDocumentTypes.value);
    }
    assert AcceptableDocumentTypesToEntity(wire.acceptableDocumentTypes) == Success(entity.acceptableDocumentTypes);
  }

  /**
   * Whatever `ToEntity` accepts, it keeps everything but the null/omitted
   * distinction and the last-attempt time.
   */
  lemma DecodeKeepsNormalisedRecord(graphql: WireVerifiedIdentity)
    requires ToEntity(graphql).Success?
    ensures WireRecordOf(ToEntity(graphql).value) == Normalised(graphql)
  {
    var entity := ToEntity(graphql).value;
    if graphql.acceptableDocumentTypes.Defined? {
      var wire := graphql.acceptableDocumentTypes.value;
      assert DocumentTypeValues(entity.acceptableDocumentTypes.value) == wire;
    }
  }

  /** Two wire records that decode to the same local record agree once normalised. */
  lemma DecodeInjectiveUpToNormalisation(g: WireVerifiedIdentity, h: WireVerifiedIdentity)
    requires ToEntity(g).Success? && ToEntity(g) == ToEntity(h)
    ensures Normalised(g) == Normalised(h)
  {
    DecodeKeepsNormalisedRecord(g);
    DecodeKeepsNormalisedRecord(h);
  }
}
