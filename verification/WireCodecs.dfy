/** How envelopes and leases are read back from the dictionaries they are sent as: `from_dict` and
    `review_lease_from_payload`. */
module WireCodecs {
  import opened CanonicalJson
  import opened FieldNames
  import opened JsonValues
  import opened KeyOrder
  import opened Records
  import Dicts = DigestRendering

  /** Python's conversions of values that do not have the type asked for: `str` of what is no string, `int` of what is
      no integer, `dict` of what is no dictionary, and the reading of timestamps with a zone. */
  datatype Conversions = Conversions(
    text: Json -> string, number: Json -> Option<int>, mapping: Json -> Option<seq<Member>>,
    time: string -> Option<Time>)

  /** `members[key]`; the last member of a key counts. */
  function Lookup(members: seq<Member>, key: string): Option<Json> {
    if |members| == 0 then None
    else
      var last := members[|members| - 1];
      if last.key == key then Some(last.value) else Lookup(members[..|members| - 1], key)
  }

  function FieldOf(members: seq<Member>, field: Field): Option<Json> {
    Lookup(members, FieldName(field))
  }

  function AsText(co: Conversions, json: Json): string {
    if json.Str? then json.s else co.text(json)
  }

  function AsNumber(co: Conversions, json: Json): Option<int> {
    if json.Int? then Some(json.n) else co.number(json)
  }

  function AsMapping(co: Conversions, json: Json): Option<seq<Member>> {
    if json.Obj? then Some(json.members) else co.mapping(json)
  }

  function Texts(co: Conversions, items: seq<Json>): (r: seq<string>)
    ensures |r| == |items| && forall i :: 0 <= i < |r| ==> r[i] == AsText(co, items[i])
  {
    if |items| == 0 then [] else [AsText(co, items[0])] + Texts(co, items[1..])
  }

  function Letters(text: string): (r: seq<string>)
    ensures |r| == |text| && forall i :: 0 <= i < |r| ==> r[i] == [text[i]]
  {
    if text == "" then [] else [[text[0]]] + Letters(text[1..])
  }

  /** `tuple(str(v) for v in json)`: a string gives its characters and a dictionary its keys. */
  function AsTexts(co: Conversions, json: Json): Option<seq<string>> {
    match json
    case Arr(items) => Some(Texts(co, items))
    case Str(s) => Some(Letters(s))
    case Obj(members) => Some(Dicts.KeysOf(members))
    case _ => None
  }

  /** What counts as a list of texts: the items of a list, the characters of a text, the keys of a dictionary. */
  lemma AsTextsIff(co: Conversions, json: Json, texts: seq<string>)
    ensures AsTexts(co, json) == Some(texts) <==>
      match json
      case Arr(items) => |texts| == |items| && forall i :: 0 <= i < |items| ==>
        texts[i] == if items[i].Str? then items[i].s else co.text(items[i])
      case Str(s) => |texts| == |s| && forall i :: 0 <= i < |s| ==> texts[i] == [s[i]]
      case Obj(members) => |texts| == |members| && forall i :: 0 <= i < |members| ==> texts[i] == members[i].key
      case _ => false
  {
    match json {
      case Arr(items) =>
        if |texts| == |items| && forall i :: 0 <= i < |items| ==> texts[i] == AsText(co, items[i]) {
          assert Texts(co, items) == texts;
        }
      case Str(s) =>
        if |texts| == |s| && forall i :: 0 <= i < |s| ==> texts[i] == [s[i]] { assert Letters(s) == texts; }
      case Obj(members) =>
        if |texts| == |members| && forall i :: 0 <= i < |members| ==> texts[i] == members[i].key {
          assert Dicts.KeysOf(members) == texts;
        }
      case _ =>
    }
  }

  ghost predicate HasKey(members: seq<Member>, key: string) {
    exists i :: 0 <= i < |members| && members[i].key == key
  }

  ghost predicate Names(fields: seq<Field>, key: string) {
    exists f :: f in fields && FieldName(f) == key
  }

  // ----- Lookup does not mind the order ---------------------------------------------------------

  lemma {:induction false} LookupFinds(members: seq<Member>, m: Member)
    requires DistinctKeys(MemberKey, members) && m in members
    ensures Lookup(members, m.key) == Some(m.value)
  {
    var n := |members| - 1;
    if members[n] != m {
      var i :| 0 <= i < |members| && members[i] == m;
      assert MemberKey(members[i]) != MemberKey(members[n]);
      assert members[..n][i] == m;
      LookupFinds(members[..n], m);
    }
  }

  lemma {:induction false} LookupMisses(members: seq<Member>, key: string)
    ensures Lookup(members, key).Some? <==> HasKey(members, key)
  {
    if |members| > 0 {
      var n := |members| - 1;
      LookupMisses(members[..n], key);
      if HasKey(members, key) && members[n].key != key {
        var i :| 0 <= i < |members| && members[i].key == key;
        assert members[..n][i].key == key;
      }
      if HasKey(members[..n], key) {
        var i :| 0 <= i < n && members[..n][i].key == key;
        assert members[i].key == key;
      }
    }
  }

  /** The same members, in any order, without repeated keys. */
  ghost predicate Reordered(members: seq<Member>, original: seq<Member>) {
    DistinctKeys(MemberKey, members) && forall m :: m in members <==> m in original
  }

  /** Fields that differ make a dictionary without repeated keys, which is one order of itself. */
  lemma ZipReordered(fields: seq<Field>, values: seq<Json>)
    requires |fields| == |values| && forall i, j :: 0 <= i < j < |fields| ==> fields[i] != fields[j]
    ensures Reordered(Dicts.Zip(fields, values), Dicts.Zip(fields, values))
  {
    hide FieldName;
    forall i, j | 0 <= i < j < |fields|
      ensures MemberKey(Dicts.Zip(fields, values)[i]) != MemberKey(Dicts.Zip(fields, values)[j])
    {
      NamesDiffer(fields[i], fields[j]);
    }
  }

  /** In a dictionary with the fields, in any order, each field is found. */
  lemma FieldsFound(fields: seq<Field>, values: seq<Json>, members: seq<Member>)
    requires |fields| == |values| && Reordered(members, Dicts.Zip(fields, values))
    ensures forall i :: 0 <= i < |fields| ==> FieldOf(members, fields[i]) == Some(values[i])
  {
    hide FieldName;
    forall i | 0 <= i < |fields|
      ensures FieldOf(members, fields[i]) == Some(values[i])
    {
      assert Dicts.Zip(fields, values)[i] in members;
      LookupFinds(members, Dicts.Zip(fields, values)[i]);
    }
  }

  // ----- Envelopes ------------------------------------------------------------------------------

  /** The fields of `SignedEnvelope`. */
  datatype WireEnvelope = WireEnvelope(
    version: string, payloadType: string, payload: seq<Member>, payloadHash: string, signerId: string, keyId: string,
    algorithm: string, signedAt: string, signature: string, previous: Option<string>, envelopeHash: string)

  /** What the construction of an envelope checks. */
  predicate ValidEnvelope(co: Conversions, e: WireEnvelope) {
    && e.version == "0.7" && e.algorithm == "Ed25519" && |e.payloadHash| == 64 && |e.envelopeHash| == 64
    && co.time(e.signedAt).Some?
  }

  /** The fields in the order of `as_dict`. */
  function EnvelopeFields(): seq<Field> {
    [ENVELOPE_VERSION, PAYLOAD_TYPE, PAYLOAD, PAYLOAD_HASH, SIGNER_ID, KEY_ID, SIGNATURE_ALGORITHM, SIGNED_AT,
     PREVIOUS_ENVELOPE_HASH, SIGNATURE, ENVELOPE_HASH]
  }

  function EnvelopeValues(e: WireEnvelope): (v: seq<Json>)
    ensures |v| == |EnvelopeFields()|
  {
    [Str(e.version), Str(e.payloadType), Obj(e.payload), Str(e.payloadHash), Str(e.signerId), Str(e.keyId),
     Str(e.algorithm), Str(e.signedAt), if e.previous.None? then Null else Str(e.previous.value), Str(e.signature),
     Str(e.envelopeHash)]
  }

  /** `as_dict` */
  function AsDict(e: WireEnvelope): seq<Member> {
    Dicts.Zip(EnvelopeFields(), EnvelopeValues(e))
  }

  /** The fields that `from_dict` cannot do without. */
  function RequiredFields(): seq<Field> {
    [ENVELOPE_VERSION, PAYLOAD_TYPE, PAYLOAD, PAYLOAD_HASH, SIGNER_ID, KEY_ID, SIGNATURE_ALGORITHM, SIGNED_AT,
     SIGNATURE, ENVELOPE_HASH]
  }

  predicate Has(members: seq<Member>, fields: seq<Field>) {
    forall i :: 0 <= i < |fields| ==> FieldOf(members, fields[i]).Some?
  }

  function TextAt(co: Conversions, members: seq<Member>, field: Field): string {
    match FieldOf(members, field)
    case Some(json) => AsText(co, json)
    case None => ""
  }

  /** `from_dict`; None stands for the exceptions.  Members with other keys are ignored. */
  function FromDict(co: Conversions, members: seq<Member>): Option<WireEnvelope> {
    if !Has(members, RequiredFields()) then None
    else
      var payload := match FieldOf(members, PAYLOAD) case Some(json) => AsMapping(co, json) case None => None;
      if payload.None? then None
      else
        var previous := match FieldOf(members, PREVIOUS_ENVELOPE_HASH)
          case None => None
          case Some(json) => if json.Null? then None else Some(AsText(co, json));
        var e := WireEnvelope(
          TextAt(co, members, ENVELOPE_VERSION), TextAt(co, members, PAYLOAD_TYPE), payload.value,
          TextAt(co, members, PAYLOAD_HASH), TextAt(co, members, SIGNER_ID), TextAt(co, members, KEY_ID),
          TextAt(co, members, SIGNATURE_ALGORITHM), TextAt(co, members, SIGNED_AT), TextAt(co, members, SIGNATURE),
          previous, TextAt(co, members, ENVELOPE_HASH));
        if ValidEnvelope(co, e) then Some(e) else None
  }

  /** The dictionary holds every field of the envelope. */
  ghost predicate CarriesEnvelope(members: seq<Member>, e: WireEnvelope) {
    && FieldOf(members, ENVELOPE_VERSION) == Some(Str(e.version))
    && FieldOf(members, PAYLOAD_TYPE) == Some(Str(e.payloadType))
    && FieldOf(members, PAYLOAD) == Some(Obj(e.payload))
    && FieldOf(members, PAYLOAD_HASH) == Some(Str(e.payloadHash))
    && FieldOf(members, SIGNER_ID) == Some(Str(e.signerId))
    && FieldOf(members, KEY_ID) == Some(Str(e.keyId))
    && FieldOf(members, SIGNATURE_ALGORITHM) == Some(Str(e.algorithm))
    && FieldOf(members, SIGNED_AT) == Some(Str(e.signedAt))
    && FieldOf(members, PREVIOUS_ENVELOPE_HASH) == Some(if e.previous.None? then Null else Str(e.previous.value))
    && FieldOf(members, SIGNATURE) == Some(Str(e.signature))
    && FieldOf(members, ENVELOPE_HASH) == Some(Str(e.envelopeHash))
  }

  lemma AsDictCarries(e: WireEnvelope, members: seq<Member>)
    requires Reordered(members, AsDict(e))
    ensures CarriesEnvelope(members, e)
  {
    hide FieldOf, Reordered, FieldName;
    var f, v := EnvelopeFields(), EnvelopeValues(e);
    FieldsFound(f, v, members);
    assert FieldOf(members, f[0]) == Some(v[0]) && FieldOf(members, f[1]) == Some(v[1]);
    assert FieldOf(members, f[2]) == Some(v[2]) && FieldOf(members, f[3]) == Some(v[3]);
    assert FieldOf(members, f[4]) == Some(v[4]) && FieldOf(members, f[5]) == Some(v[5]);
    assert FieldOf(members, f[6]) == Some(v[6]) && FieldOf(members, f[7]) == Some(v[7]);
    assert FieldOf(members, f[8]) == Some(v[8]) && FieldOf(members, f[9]) == Some(v[9]);
    assert FieldOf(members, f[10]) == Some(v[10]);
  }

  lemma CarriedReadsBack(co: Conversions, e: WireEnvelope, members: seq<Member>)
    requires CarriesEnvelope(members, e)
    ensures FromDict(co, members) == if ValidEnvelope(co, e) then Some(e) else None
  {
    hide FieldOf, ValidEnvelope;
  }

  /** An envelope survives `as_dict` and `from_dict`, in whatever order the members come; one that fails the checks of
      its construction does not get through. */
  lemma EnvelopeRoundTrip(co: Conversions, e: WireEnvelope, members: seq<Member>)
    requires Reordered(members, AsDict(e))
    ensures FromDict(co, members) == if ValidEnvelope(co, e) then Some(e) else None
  {
    AsDictCarries(e, members);
    CarriedReadsBack(co, e, members);
  }

  /** A dictionary without one of the required fields is refused, and whatever is accepted passes the checks. */
  lemma IncompleteRefused(co: Conversions, members: seq<Member>, field: Field)
    requires field in RequiredFields() && !HasKey(members, FieldName(field))
    ensures FromDict(co, members) == None
  {
    hide FieldName, Lookup;
    LookupMisses(members, FieldName(field));
    var i :| 0 <= i < |RequiredFields()| && RequiredFields()[i] == field;
  }

  // ----- Leases ---------------------------------------------------------------------------------

  /** The fields of `ReviewLease`. */
  datatype WireLease = WireLease(
    leaseId: string, requestDigest: string, capability: string, action: string, resource: string,
    reviewGrantIds: seq<string>, issuedBy: string, issuedAt: string, expiresAt: string, maxUses: int,
    issuerType: string)

  /** What the construction of a lease checks. */
  predicate ValidWireLease(co: Conversions, l: WireLease) {
    && !Blank(l.leaseId) && l.issuerType == "HUMAN" && !Blank(l.issuedBy) && l.maxUses == 1 && |l.requestDigest| == 64
    && co.time(l.issuedAt).Some? && co.time(l.expiresAt).Some?
    && co.time(l.issuedAt).value < co.time(l.expiresAt).value
  }

  /** The fields in the order of `review_lease_payload`. */
  function LeaseFields(): seq<Field> {
    [LEASE_ID, REQUEST_DIGEST, CAPABILITY, ACTION, RESOURCE, REVIEW_GRANT_IDS, ISSUED_BY, ISSUED_AT, EXPIRES_AT,
     MAX_USES, ISSUER_TYPE, AUTHORITY_EFFECT]
  }

  function LeaseValues(l: WireLease, authority: string): (v: seq<Json>)
    ensures |v| == |LeaseFields()|
  {
    [Str(l.leaseId), Str(l.requestDigest), Str(l.capability), Str(l.action), Str(l.resource),
     Arr(Dicts.Texts(l.reviewGrantIds)), Str(l.issuedBy), Str(l.issuedAt), Str(l.expiresAt), Int(l.maxUses),
     Str(l.issuerType), Str(authority)]
  }

  const LEASE_AUTHORITY := "ONE_SHOT_REVIEW_ONLY"

  /** `review_lease_payload`, with the authority effect it claims. */
  function LeaseDict(l: WireLease, authority: string): seq<Member> {
    Dicts.Zip(LeaseFields(), LeaseValues(l, authority))
  }

  /** `set(payload) == expected_fields` */
  ghost predicate ExactlyLeaseKeys(members: seq<Member>) {
    forall key :: HasKey(members, key) <==> Names(LeaseFields(), key)
  }

  /** `review_lease_from_payload`; None stands for the exceptions. */
  ghost function LeaseFromDict(co: Conversions, members: seq<Member>): Option<WireLease> {
    if !ExactlyLeaseKeys(members) then None
    else if FieldOf(members, AUTHORITY_EFFECT) != Some(Str(LEASE_AUTHORITY)) then None
    else
      var ids := match FieldOf(members, REVIEW_GRANT_IDS) case Some(json) => AsTexts(co, json) case None => None;
      var uses := match FieldOf(members, MAX_USES) case Some(json) => AsNumber(co, json) case None => None;
      if ids.None? || uses.None? then None
      else
        var l := WireLease(
          TextAt(co, members, LEASE_ID), TextAt(co, members, REQUEST_DIGEST), TextAt(co, members, CAPABILITY),
          TextAt(co, members, ACTION), TextAt(co, members, RESOURCE), ids.value, TextAt(co, members, ISSUED_BY),
          TextAt(co, members, ISSUED_AT), TextAt(co, members, EXPIRES_AT), uses.value,
          TextAt(co, members, ISSUER_TYPE));
        if ValidWireLease(co, l) then Some(l) else None
  }

  lemma ReorderedKeys(fields: seq<Field>, values: seq<Json>, members: seq<Member>)
    requires |fields| == |values| && Reordered(members, Dicts.Zip(fields, values))
    ensures forall key :: HasKey(members, key) <==> Names(fields, key)
  {
    hide FieldName, Dicts.Zip;
    var zip := Dicts.Zip(fields, values);
    forall key | HasKey(members, key)
      ensures Names(fields, key)
    {
      var i :| 0 <= i < |members| && members[i].key == key;
      assert members[i] in zip;
      var j :| 0 <= j < |zip| && zip[j] == members[i];
      assert fields[j] in fields && FieldName(fields[j]) == key;
    }
    forall key | Names(fields, key)
      ensures HasKey(members, key)
    {
      var f :| f in fields && FieldName(f) == key;
      var j :| 0 <= j < |fields| && fields[j] == f;
      assert zip[j] in members;
      var i :| 0 <= i < |members| && members[i] == zip[j];
      assert members[i].key == key;
    }
  }

  lemma TextsReadBack(co: Conversions, texts: seq<string>)
    ensures AsTexts(co, Arr(Dicts.Texts(texts))) == Some(texts)
  {
    assert Texts(co, Dicts.Texts(texts)) == texts;
  }

  /** The dictionary holds every field of the lease and the authority effect, and nothing else. */
  ghost predicate CarriesLease(members: seq<Member>, l: WireLease, authority: string) {
    && ExactlyLeaseKeys(members)
    && FieldOf(members, LEASE_ID) == Some(Str(l.leaseId))
    && FieldOf(members, REQUEST_DIGEST) == Some(Str(l.requestDigest))
    && FieldOf(members, CAPABILITY) == Some(Str(l.capability))
    && FieldOf(members, ACTION) == Some(Str(l.action))
    && FieldOf(members, RESOURCE) == Some(Str(l.resource))
    && FieldOf(members, REVIEW_GRANT_IDS) == Some(Arr(Dicts.Texts(l.reviewGrantIds)))
    && FieldOf(members, ISSUED_BY) == Some(Str(l.issuedBy))
    && FieldOf(members, ISSUED_AT) == Some(Str(l.issuedAt))
    && FieldOf(members, EXPIRES_AT) == Some(Str(l.expiresAt))
    && FieldOf(members, MAX_USES) == Some(Int(l.maxUses))
    && FieldOf(members, ISSUER_TYPE) == Some(Str(l.issuerType))
    && FieldOf(members, AUTHORITY_EFFECT) == Some(Str(authority))
  }

  lemma LeaseDictKeys(l: WireLease, authority: string, members: seq<Member>)
    requires Reordered(members, LeaseDict(l, authority))
    ensures ExactlyLeaseKeys(members)
  {
    hide FieldName, Reordered, LeaseFields, LeaseValues;
    ReorderedKeys(LeaseFields(), LeaseValues(l, authority), members);
  }

  lemma LeaseDictCarries(l: WireLease, authority: string, members: seq<Member>)
    requires Reordered(members, LeaseDict(l, authority))
    ensures CarriesLease(members, l, authority)
  {
    hide FieldOf, Reordered, ExactlyLeaseKeys, FieldName;
    var f, v := LeaseFields(), LeaseValues(l, authority);
    FieldsFound(f, v, members);
    LeaseDictKeys(l, authority, members);
    assert FieldOf(members, f[0]) == Some(v[0]) && FieldOf(members, f[1]) == Some(v[1]);
    assert FieldOf(members, f[2]) == Some(v[2]) && FieldOf(members, f[3]) == Some(v[3]);
    assert FieldOf(members, f[4]) == Some(v[4]) && FieldOf(members, f[5]) == Some(v[5]);
    assert FieldOf(members, f[6]) == Some(v[6]) && FieldOf(members, f[7]) == Some(v[7]);
    assert FieldOf(members, f[8]) == Some(v[8]) && FieldOf(members, f[9]) == Some(v[9]);
    assert FieldOf(members, f[10]) == Some(v[10]) && FieldOf(members, f[11]) == Some(v[11]);
  }

  lemma CarriedLeaseReadsBack(co: Conversions, l: WireLease, authority: string, members: seq<Member>)
    requires CarriesLease(members, l, authority)
    ensures LeaseFromDict(co, members)
      == if authority == LEASE_AUTHORITY && ValidWireLease(co, l) then Some(l) else None
  {
    TextsReadBack(co, l.reviewGrantIds);
    hide FieldOf, ExactlyLeaseKeys, ValidWireLease, AsTexts, Dicts.Texts;
  }

  /** A dictionary with a lease's fields, in any order, reads back as the lease exactly when it claims the authority of
      a one-shot review and the lease passes the checks; otherwise it is refused. */
  lemma LeaseRoundTrip(co: Conversions, l: WireLease, authority: string, members: seq<Member>)
    requires Reordered(members, LeaseDict(l, authority))
    ensures LeaseFromDict(co, members)
      == if authority == LEASE_AUTHORITY && ValidWireLease(co, l) then Some(l) else None
  {
    LeaseDictCarries(l, authority, members);
    CarriedLeaseReadsBack(co, l, authority, members);
  }

  /** A dictionary that lacks one of the twelve keys, or has another one, is refused. */
  lemma OtherKeysRefused(co: Conversions, members: seq<Member>, key: string)
    requires HasKey(members, key) <==> !Names(LeaseFields(), key)
    ensures LeaseFromDict(co, members) == None
  {
    hide FieldName;
  }

  /** So is one that claims any other authority. */
  lemma OtherAuthorityRefused(co: Conversions, members: seq<Member>)
    requires Lookup(members, FieldName(AUTHORITY_EFFECT)) != Some(Str(LEASE_AUTHORITY))
    ensures LeaseFromDict(co, members) == None
  {
    hide FieldName;
  }
}
