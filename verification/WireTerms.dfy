/** The envelopes and leases of `Records`, as they travel: reading back what was sent gives the value sent. */
module WireTerms {
  import opened DigestRendering
  import opened FieldNames
  import opened JsonText
  import opened JsonValues
  import opened Records
  import SignedReview
  import W = WireCodecs

  // ----- Envelopes ------------------------------------------------------------------------------

  function PayloadMembers(s: Spelling, payload: Payload): seq<Member> {
    if PayloadJson(s, payload).Obj? then PayloadJson(s, payload).members else []
  }

  /** The envelope as its receiver holds it. */
  function Wire(s: Spelling, e: SignedEnvelope): W.WireEnvelope {
    W.WireEnvelope(
      "0.7", s.payloadType(e.view.payloadType), PayloadMembers(s, e.view.payload), DigestText(s, e.view.payloadHash),
      e.view.signerId, e.view.keyId, "Ed25519", s.time(e.view.signedAt), e.signature,
      if e.view.previous.None? then None else Some(DigestText(s, e.view.previous.value)), DigestText(s, e.envelopeHash))
  }

  lemma PayloadIsDict(s: Spelling, payload: Payload)
    ensures PayloadJson(s, payload) == Obj(PayloadMembers(s, payload))
  {
    hide PayloadValues;
  }

  lemma TransmittedFields()
    ensures var f := Fields(TransmittedDoc);
      && f[0] == ENVELOPE_HASH && f[1] == ENVELOPE_VERSION && f[2] == KEY_ID && f[3] == PAYLOAD
      && f[4] == PAYLOAD_HASH && f[5] == PAYLOAD_TYPE && f[6] == PREVIOUS_ENVELOPE_HASH && f[7] == SIGNATURE
      && f[8] == SIGNATURE_ALGORITHM && f[9] == SIGNED_AT && f[10] == SIGNER_ID
  {
  }

  lemma Found(f: seq<Field>, v: seq<Json>, members: seq<Member>)
    requires |f| == |v| == 11 && W.Reordered(members, Zip(f, v))
    ensures W.FieldOf(members, f[0]) == Some(v[0]) && W.FieldOf(members, f[1]) == Some(v[1])
    ensures W.FieldOf(members, f[2]) == Some(v[2]) && W.FieldOf(members, f[3]) == Some(v[3])
    ensures W.FieldOf(members, f[4]) == Some(v[4]) && W.FieldOf(members, f[5]) == Some(v[5])
    ensures W.FieldOf(members, f[6]) == Some(v[6]) && W.FieldOf(members, f[7]) == Some(v[7])
    ensures W.FieldOf(members, f[8]) == Some(v[8]) && W.FieldOf(members, f[9]) == Some(v[9])
    ensures W.FieldOf(members, f[10]) == Some(v[10])
  {
    hide *;
    W.FieldsFound(f, v, members);
  }

  /** The values sent, in the order of the keys. */
  function SentValues(s: Spelling, e: SignedEnvelope): (v: seq<Json>)
    ensures |v| == 11
  {
    [DigestJson(s, e.envelopeHash)] + EnvelopeValues(s, e.view, e.signature)
  }

  lemma SentValuesAre(s: Spelling, e: SignedEnvelope)
    ensures var v, w := SentValues(s, e), Wire(s, e);
      && v[0] == Str(w.envelopeHash) && v[1] == Str(w.version) && v[2] == Str(w.keyId) && v[3] == Obj(w.payload)
      && v[4] == Str(w.payloadHash) && v[5] == Str(w.payloadType)
      && v[6] == (if w.previous.None? then Null else Str(w.previous.value)) && v[7] == Str(w.signature)
      && v[8] == Str(w.algorithm) && v[9] == Str(w.signedAt) && v[10] == Str(w.signerId)
  {
    hide PayloadJson, DigestText, PayloadMembers;
    PayloadIsDict(s, e.view.payload);
    var v := EnvelopeValues(s, e.view, e.signature);
    assert DigestJson(s, e.view.payloadHash) == Str(DigestText(s, e.view.payloadHash));
    assert e.view.previous.Some? ==>
      PreviousJson(s, e.view.previous) == Str(DigestText(s, e.view.previous.value));
    assert v[3] == DigestJson(s, e.view.payloadHash) && v[5] == PreviousJson(s, e.view.previous);
    assert forall i :: 0 <= i < 10 ==> SentValues(s, e)[i + 1] == v[i];
    assert v[0] == SentValues(s, e)[1] && v[1] == SentValues(s, e)[2] && v[2] == SentValues(s, e)[3];
    assert v[3] == SentValues(s, e)[4] && v[4] == SentValues(s, e)[5] && v[5] == SentValues(s, e)[6];
    assert v[6] == SentValues(s, e)[7] && v[7] == SentValues(s, e)[8] && v[8] == SentValues(s, e)[9];
    assert v[9] == SentValues(s, e)[10];
  }

  lemma SentIsZip(s: Spelling, e: SignedEnvelope)
    ensures Transmitted(s, e) == Obj(Zip(Fields(TransmittedDoc), SentValues(s, e)))
  {
    hide EnvelopeValues, DigestJson, Zip, Fields;
  }

  lemma SentCarries(s: Spelling, e: SignedEnvelope, members: seq<Member>)
    requires Transmitted(s, e).Obj? && W.Reordered(members, Transmitted(s, e).members)
    ensures W.CarriesEnvelope(members, Wire(s, e))
  {
    hide Transmitted, SentValues, Wire, Zip, W.FieldOf, W.Reordered, Fields, FieldName;
    SentIsZip(s, e);
    SentValuesAre(s, e);
    TransmittedFields();
    Found(Fields(TransmittedDoc), SentValues(s, e), members);
  }

  /** Two envelopes arrive alike only when they are equal. */
  lemma WiresDiffer(s: Spelling, e: SignedEnvelope, e': SignedEnvelope)
    requires Faithful(s)
    ensures Wire(s, e) == Wire(s, e') <==> e == e'
  {
    hide PayloadJson, DigestText, PayloadMembers;
    if Wire(s, e) == Wire(s, e') {
      PayloadIsDict(s, e.view.payload);
      PayloadIsDict(s, e'.view.payload);
      PayloadFaithful(s, e.view.payload, e'.view.payload);
      DigestFaithful(s, e.view.payloadHash, e'.view.payloadHash);
      DigestFaithful(s, e.envelopeHash, e'.envelopeHash);
      if e.view.previous.Some? && e'.view.previous.Some? {
        DigestFaithful(s, e.view.previous.value, e'.view.previous.value);
      }
    }
  }

  /** The envelope that a dictionary stands for, if `from_dict` accepts it and it stands for one. */
  ghost function Received(s: Spelling, co: W.Conversions, members: seq<Member>): Option<SignedEnvelope> {
    if exists e :: W.FromDict(co, members) == Some(Wire(s, e)) then
      var e :| W.FromDict(co, members) == Some(Wire(s, e));
      Some(e)
    else None
  }

  /** What is sent of an envelope is, as text, read back as a dictionary, and the dictionary, in any order of its
      members, as the envelope; unless the envelope would not pass the checks of its own construction. */
  lemma EnvelopeSurvivesTransport(s: Spelling, co: W.Conversions, e: SignedEnvelope, members: seq<Member>)
    requires Faithful(s)
    requires Transmitted(s, e).Obj? && W.Reordered(members, Transmitted(s, e).members)
    ensures ReadValue(Print(Transmitted(s, e))) == Read(Transmitted(s, e), "")
    ensures Received(s, co, members) == if W.ValidEnvelope(co, Wire(s, e)) then Some(e) else None
  {
    hide Wire, W.ValidEnvelope, W.FromDict, Print, ReadValue, Transmitted;
    ReadPrinted(Transmitted(s, e), "");
    assert Print(Transmitted(s, e)) + "" == Print(Transmitted(s, e));
    SentCarries(s, e, members);
    W.CarriedReadsBack(co, Wire(s, e), members);
    forall e' | W.FromDict(co, members) == Some(Wire(s, e'))
      ensures e' == e
    {
      WiresDiffer(s, e, e');
    }
  }

  /** The order in which it is sent is one of the orders. */
  lemma SentIsReordered(s: Spelling, e: SignedEnvelope)
    ensures Transmitted(s, e).Obj? && W.Reordered(Transmitted(s, e).members, Transmitted(s, e).members)
  {
    FieldsAscend(TransmittedDoc);
    hide Fields, Zip, Transmitted, SentValues, W.Reordered;
    SentIsZip(s, e);
    W.ZipReordered(Fields(TransmittedDoc), SentValues(s, e));
  }

  // ----- Leases ---------------------------------------------------------------------------------

  function WireLeaseOf(s: Spelling, l: ReviewLease): W.WireLease {
    W.WireLease(l.leaseId, DigestText(s, l.requestDigest), l.capability, l.action, l.resource, l.reviewGrantIds,
                l.issuedBy, s.time(l.issuedAt), s.time(l.expiresAt), l.maxUses, s.issuer(l.issuerType))
  }

  /** The texts and times that the lease decoder looks at are the source's. */
  ghost predicate Agreed(s: Spelling, co: W.Conversions) {
    && s.authority(OneShotReviewOnly) == W.LEASE_AUTHORITY && s.issuer(Human) == "HUMAN"
    && forall t :: co.time(s.time(t)).Some? && co.time(s.time(t)).value == t
  }

  lemma FoundAt(f: seq<Field>, v: seq<Json>, members: seq<Member>, i: nat)
    requires i < |f| == |v| && W.Reordered(members, Zip(f, v))
    ensures W.FieldOf(members, f[i]) == Some(v[i])
  {
    hide *;
    W.FieldsFound(f, v, members);
  }

  lemma LeaseFound(v: seq<Json>, members: seq<Member>)
    requires |v| == Size(LeaseDoc) && W.Reordered(members, Zip(Fields(LeaseDoc), v))
    ensures W.FieldOf(members, ACTION) == Some(v[0])
    ensures W.FieldOf(members, AUTHORITY_EFFECT) == Some(v[1])
    ensures W.FieldOf(members, CAPABILITY) == Some(v[2])
    ensures W.FieldOf(members, EXPIRES_AT) == Some(v[3])
    ensures W.FieldOf(members, ISSUED_AT) == Some(v[4])
    ensures W.FieldOf(members, ISSUED_BY) == Some(v[5])
    ensures W.FieldOf(members, ISSUER_TYPE) == Some(v[6])
    ensures W.FieldOf(members, LEASE_ID) == Some(v[7])
    ensures W.FieldOf(members, MAX_USES) == Some(v[8])
    ensures W.FieldOf(members, REQUEST_DIGEST) == Some(v[9])
    ensures W.FieldOf(members, RESOURCE) == Some(v[10])
    ensures W.FieldOf(members, REVIEW_GRANT_IDS) == Some(v[11])
  {
    hide W.FieldOf, Zip, W.Reordered, FieldName;
    var f := Fields(LeaseDoc);
    FoundAt(f, v, members, 0); FoundAt(f, v, members, 1); FoundAt(f, v, members, 2); FoundAt(f, v, members, 3);
    FoundAt(f, v, members, 4); FoundAt(f, v, members, 5); FoundAt(f, v, members, 6); FoundAt(f, v, members, 7);
    FoundAt(f, v, members, 8); FoundAt(f, v, members, 9); FoundAt(f, v, members, 10); FoundAt(f, v, members, 11);
  }

  /** The twelve fields, alphabetically and in the order of the payload, are the same. */
  lemma LeaseKeys(values: seq<Json>, members: seq<Member>)
    requires |values| == Size(LeaseDoc) && W.Reordered(members, Zip(Fields(LeaseDoc), values))
    ensures W.ExactlyLeaseKeys(members)
  {
    SameLeaseFields();
    hide FieldName, Zip, W.Reordered, Fields, W.LeaseFields;
    W.ReorderedKeys(Fields(LeaseDoc), values, members);
  }

  lemma SameLeaseFields()
    ensures forall f :: f in Fields(LeaseDoc) <==> f in W.LeaseFields()
  {
  }

  lemma SentLeaseValuesAre(s: Spelling, l: ReviewLease, effect: AuthorityEffect)
    ensures var v, w := LeaseValues(s, l, effect), WireLeaseOf(s, l);
      && v[0] == Str(w.action) && v[1] == Str(s.authority(effect)) && v[2] == Str(w.capability)
      && v[3] == Str(w.expiresAt) && v[4] == Str(w.issuedAt) && v[5] == Str(w.issuedBy) && v[6] == Str(w.issuerType)
      && v[7] == Str(w.leaseId) && v[8] == Int(w.maxUses) && v[9] == Str(w.requestDigest)
      && v[10] == Str(w.resource) && v[11] == Arr(Texts(w.reviewGrantIds))
  {
    hide DigestText;
  }

  lemma LeaseIsZip(s: Spelling, l: ReviewLease, effect: AuthorityEffect)
    ensures PayloadMembers(s, LeasePayload(l, effect)) == Zip(Fields(LeaseDoc), LeaseValues(s, l, effect))
  {
    hide LeaseValues, Zip, Fields;
    var p := LeasePayload(l, effect);
    assert PayloadValues(s, p) == LeaseValues(s, l, effect);
    assert PayloadJson(s, p) == Doc(LeaseDoc, PayloadValues(s, p));
  }

  lemma SentLeaseCarries(s: Spelling, l: ReviewLease, effect: AuthorityEffect, members: seq<Member>)
    requires W.Reordered(members, PayloadMembers(s, LeasePayload(l, effect)))
    ensures W.CarriesLease(members, WireLeaseOf(s, l), s.authority(effect))
  {
    hide PayloadMembers, LeaseValues, WireLeaseOf, Zip, W.FieldOf, W.Reordered, W.ExactlyLeaseKeys, Fields, Texts;
    LeaseIsZip(s, l, effect);
    SentLeaseValuesAre(s, l, effect);
    LeaseKeys(LeaseValues(s, l, effect), members);
    LeaseFound(LeaseValues(s, l, effect), members);
  }

  /** The decoder of payload terms decides as the decoder of dictionaries: what was sent as a lease payload, in any
      order of its members, is read as the lease exactly when its term is, given that its digest has 64 characters. */
  lemma LeaseDecodersAgree(s: Spelling, co: W.Conversions, l: ReviewLease, effect: AuthorityEffect,
                           members: seq<Member>)
    requires Faithful(s) && Agreed(s, co)
    requires W.Reordered(members, PayloadMembers(s, LeasePayload(l, effect)))
    ensures W.LeaseFromDict(co, members)
      == match SignedReview.LeaseFromPayload(LeasePayload(l, effect))
         case Some(lease) => if |DigestText(s, lease.requestDigest)| == 64 then Some(WireLeaseOf(s, lease)) else None
         case None => None
  {
    hide DigestText, W.CarriesLease, W.Reordered, PayloadMembers, W.LeaseFromDict;
    SentLeaseCarries(s, l, effect, members);
    W.CarriedLeaseReadsBack(co, WireLeaseOf(s, l), s.authority(effect), members);
    assert s.authority(effect) == W.LEASE_AUTHORITY <==> effect == OneShotReviewOnly;
    assert s.issuer(l.issuerType) == "HUMAN" <==> l.issuerType == Human;
  }
}
