/** The characters that are really hashed keep the digest terms of `Records` apart.

    A digest is rendered as the SHA-256 value of the canonical text of the record it wraps, and the record's own digest
    fields are rendered the same way.  The texts of times and enumeration values enter as a `Spelling`. */
module DigestRendering {
  import opened CanonicalJson
  import opened FieldNames
  import opened JsonText
  import opened JsonValues
  import opened KeyOrder
  import opened Records

  /** The dictionaries that are hashed, or that are part of one. */
  datatype Kind =
    | RequestDoc | LeaseDoc | PermitDoc | ResultDoc | ReceiptBodyDoc | ReceiptDoc | AttestationDoc | RegistryDoc
    | GrantDoc | EvidenceDoc | SimulationDoc | ScenarioDoc | EnvelopeDoc | TransmittedDoc | EventDoc
    | DeltaHashDoc | DeltaDoc | PromotionDoc

  function Size(kind: Kind): nat {
    match kind
    case RequestDoc => 6 case LeaseDoc => 12 case PermitDoc => 17 case ResultDoc => 13 case ReceiptBodyDoc => 14
    case ReceiptDoc => 15 case AttestationDoc => 4 case RegistryDoc => 3 case GrantDoc => 7 case EvidenceDoc => 5
    case SimulationDoc => 8 case ScenarioDoc => 6 case EnvelopeDoc => 10 case TransmittedDoc => 11 case EventDoc => 9
    case DeltaHashDoc => 5 case DeltaDoc => 6 case PromotionDoc => 9
  }

  /** The fields of a dictionary, in alphabetical order. */
  function Fields(kind: Kind): (r: seq<Field>)
    ensures |r| == Size(kind)
  {
    match kind
    case RequestDoc => [ACTION, ACTOR, CAPABILITY, PAYLOAD, REQUEST_ID, RESOURCE]
    case LeaseDoc =>
      [ACTION, AUTHORITY_EFFECT, CAPABILITY, EXPIRES_AT, ISSUED_AT, ISSUED_BY, ISSUER_TYPE, LEASE_ID, MAX_USES,
       REQUEST_DIGEST, RESOURCE, REVIEW_GRANT_IDS]
    case PermitDoc =>
      [ACTION, ACTOR, AUTHORITY_EFFECT, CAPABILITY, EXPIRES_AT, GATE_REASON, GATE_VERDICT, ISSUED_AT,
       MATCHED_GRANT_IDS, MAX_USES, PERMIT_ID, PERMIT_VERSION, REGISTRY_ID, REGISTRY_VERSION, REQUEST_DIGEST,
       REQUEST_ID, RESOURCE]
    case ResultDoc =>
      [ACTION, AUTHORITY_EFFECT, CAPABILITY, EXECUTED_AT, OUTCOME, PERMIT_HASH, PERMIT_ID, REQUEST_DIGEST, REQUEST_ID,
       RESOURCE, RESULT, RESULT_ID, RESULT_VERSION]
    case ReceiptBodyDoc =>
      [ACTION, CAPABILITY, CREATED_AT, GATE, GATE_REASON, MATCHED_GRANT_IDS, OUTCOME, PREVIOUS_RECEIPT_HASH,
       RECEIPT_VERSION, REGISTRY_ID, REGISTRY_VERSION, REQUEST_ID, RESOURCE, RESULT]
    case ReceiptDoc =>
      [ACTION, CAPABILITY, CREATED_AT, GATE, GATE_REASON, MATCHED_GRANT_IDS, OUTCOME, PREVIOUS_RECEIPT_HASH,
       RECEIPT_HASH, RECEIPT_VERSION, REGISTRY_ID, REGISTRY_VERSION, REQUEST_ID, RESOURCE, RESULT]
    case AttestationDoc => [AUTHORITY_EFFECT, GRANTS, REGISTRY_ID, VERSION]
    case RegistryDoc => [GRANTS, REGISTRY_ID, VERSION]
    case GrantDoc => [ACTIONS, CAPABILITY, EFFECT, GRANT_ID, ISSUED_BY, NOTE, RESOURCES]
    case EvidenceDoc => [APP_ID, AUTHORITY_EFFECT, PROMOTION_ID, PROMOTION_REQUEST_DIGEST, PRSP_RECEIPT]
    case SimulationDoc => [APP_ID, APP_STAGE, GENERATED_AT, OVERALL_GATE, RECEIPT_VERSION, RESULTS, RUN_ID, SUMMARY]
    case ScenarioDoc => [DOMAIN, EVIDENCE_REQUIRED, REASON, SCENARIO_ID, SEVERITY, STATUS]
    case EnvelopeDoc =>
      [ENVELOPE_VERSION, KEY_ID, PAYLOAD, PAYLOAD_HASH, PAYLOAD_TYPE, PREVIOUS_ENVELOPE_HASH, SIGNATURE,
       SIGNATURE_ALGORITHM, SIGNED_AT, SIGNER_ID]
    case TransmittedDoc =>
      [ENVELOPE_HASH, ENVELOPE_VERSION, KEY_ID, PAYLOAD, PAYLOAD_HASH, PAYLOAD_TYPE, PREVIOUS_ENVELOPE_HASH,
       SIGNATURE, SIGNATURE_ALGORITHM, SIGNED_AT, SIGNER_ID]
    case EventDoc =>
      [ACTOR, CREATED_AT, EVENT, EVENT_VERSION, LEASE_ID, PREVIOUS_EVENT_HASH, REASON, REQUEST_DIGEST, REQUEST_ID]
    case DeltaHashDoc => [ADDED, BASELINE, CHANGED, PROPOSED, REMOVED]
    case DeltaDoc => [ADDED, CHANGED, DIGEST, HAS_AUTHORITY_CHANGE, HAS_POSSIBLE_AUTHORITY_EXPANSION, REMOVED]
    case PromotionDoc =>
      [APP_ID, AUTHORITY_EFFECT, BASELINE_REGISTRY_DIGEST, CAPABILITY_DELTA, PROMOTION_ID, PROPOSED_REGISTRY_DIGEST,
       REQUESTED_BY, REQUIRED_DOMAINS, TARGET_STAGE]
  }

  /** How digests, times and enumeration values are written. */
  datatype Spelling = Spelling(
    sha: string -> string,
    text: string -> string,
    other: Json -> seq<Member>,
    time: Time -> string,
    verdict: Verdict -> string,
    effect: Effect -> string,
    reason: Reason -> string,
    payloadType: PayloadType -> string,
    authority: AuthorityEffect -> string,
    issuer: IssuerType -> string,
    outcome: Outcome -> string,
    eventReason: EventReason -> string,
    eventKind: EventKind -> string)

  ghost predicate Injective<A(!new), B>(f: A -> B) {
    forall a, a' :: f(a) == f(a') ==> a == a'
  }

  function Names(fields: seq<Field>): (r: seq<string>)
    ensures |r| == |fields| && forall i :: 0 <= i < |r| ==> r[i] == FieldName(fields[i])
  {
    if |fields| == 0 then [] else [FieldName(fields[0])] + Names(fields[1..])
  }

  function KeysOf(members: seq<Member>): (r: seq<string>)
    ensures |r| == |members| && forall i :: 0 <= i < |r| ==> r[i] == members[i].key
  {
    if |members| == 0 then [] else [members[0].key] + KeysOf(members[1..])
  }

  /** SHA-256 is taken to have no collisions; a text that is no digest is no SHA-256 value; distinct values are spelled
      differently; a payload of none of the known shapes has other fields than all of them. */
  ghost predicate Faithful(s: Spelling) {
    && Injective(s.sha) && Injective(s.text) && (forall t, t' :: s.sha(t) != s.text(t'))
    && Injective(s.other) && (forall json, kind :: KeysOf(s.other(json)) != Names(Fields(kind)))
    && Injective(s.time) && Injective(s.verdict) && Injective(s.effect) && Injective(s.reason)
    && Injective(s.payloadType) && Injective(s.authority) && Injective(s.issuer) && Injective(s.outcome)
    && Injective(s.eventReason) && Injective(s.eventKind)
  }

  // ----- Documents ------------------------------------------------------------------------------

  function Zip(fields: seq<Field>, values: seq<Json>): (r: seq<Member>)
    requires |fields| == |values|
    ensures |r| == |fields| && forall i :: 0 <= i < |r| ==> r[i] == Member(FieldName(fields[i]), values[i])
  {
    if |fields| == 0 then [] else [Member(FieldName(fields[0]), values[0])] + Zip(fields[1..], values[1..])
  }

  /** An object whose keys are those of the kind. */
  ghost predicate IsDoc(kind: Kind, json: Json) {
    json.Obj? && KeysOf(json.members) == Names(Fields(kind))
  }

  function Doc(kind: Kind, values: seq<Json>): (r: Json)
    requires |values| == Size(kind)
    ensures IsDoc(kind, r)
  {
    var members := Zip(Fields(kind), values);
    assert KeysOf(members) == Names(Fields(kind));
    Obj(members)
  }

  lemma FieldsInjective(kind: Kind, kind': Kind)
    requires Fields(kind) == Fields(kind')
    ensures kind == kind'
  {
    assert |Fields(kind)| == |Fields(kind')| && Fields(kind)[0] == Fields(kind')[0];
  }

  /** The keys of a document show its kind. */
  lemma SameKind(kind: Kind, kind': Kind)
    requires Names(Fields(kind)) == Names(Fields(kind'))
    ensures kind == kind'
  {
    var f, f' := Fields(kind), Fields(kind');
    hide Fields;
    forall i | 0 <= i < |f|
      ensures f[i] == f'[i]
    {
      assert Names(f)[i] == Names(f')[i];
      NamesDiffer(f[i], f'[i]);
    }
    FieldsInjective(kind, kind');
  }

  /** Documents of one kind show their values. */
  lemma DocValues(kind: Kind, values: seq<Json>, values': seq<Json>)
    requires |values| == |values'| == Size(kind)
    requires Doc(kind, values) == Doc(kind, values')
    ensures values == values'
  {
    hide Fields;
    var m, m' := Zip(Fields(kind), values), Zip(Fields(kind), values');
    forall i | 0 <= i < |values|
      ensures values[i] == values'[i]
    {
      assert m[i] == m'[i];
    }
  }

  // ----- Rendering ------------------------------------------------------------------------------

  function Texts(texts: seq<string>): (r: seq<Json>)
    ensures |r| == |texts| && forall i :: 0 <= i < |r| ==> r[i] == Str(texts[i])
  {
    if |texts| == 0 then [] else [Str(texts[0])] + Texts(texts[1..])
  }

  function GrantValues(s: Spelling, g: CapabilityGrant): (v: seq<Json>)
    ensures |v| == 7
  {
    [Arr(Texts(g.actions)), Str(g.capability), Str(s.effect(g.effect)), Str(g.grantId), Str(g.issuedBy), Str(g.note),
     Arr(Texts(g.resources))]
  }

  function GrantsJson(s: Spelling, grants: seq<CapabilityGrant>): (r: seq<Json>)
    ensures |r| == |grants| && forall i :: 0 <= i < |r| ==> r[i] == Doc(GrantDoc, GrantValues(s, grants[i]))
  {
    if |grants| == 0 then [] else [Doc(GrantDoc, GrantValues(s, grants[0]))] + GrantsJson(s, grants[1..])
  }

  function ScenarioValues(r: ScenarioResult): (v: seq<Json>)
    ensures |v| == 6
  {
    [Str(r.domain), Arr(Texts(r.evidenceRequired)), Str(r.reason), Str(r.scenarioId), Str(r.severity), Str(r.status)]
  }

  function ScenariosJson(s: Spelling, results: seq<ScenarioResult>): (r: seq<Json>)
    ensures |r| == |results| && forall i :: 0 <= i < |r| ==> r[i] == Doc(ScenarioDoc, ScenarioValues(results[i]))
  {
    if |results| == 0 then []
    else [Doc(ScenarioDoc, ScenarioValues(results[0]))] + ScenariosJson(s, results[1..])
  }

  function SimulationValues(s: Spelling, r: SimulationReceipt): (v: seq<Json>)
    ensures |v| == 8
  {
    [Str(r.appId), Str(r.appStage), Str(r.generatedAt), Str(r.overallGate), Str(r.receiptVersion),
     Arr(ScenariosJson(s, r.results)), Str(r.runId), r.summary]
  }

  function LeaseValues(s: Spelling, l: ReviewLease, effect: AuthorityEffect): (v: seq<Json>)
    ensures |v| == 12
    decreases l, 0
  {
    [Str(l.action), Str(s.authority(effect)), Str(l.capability), Str(s.time(l.expiresAt)), Str(s.time(l.issuedAt)),
     Str(l.issuedBy), Str(s.issuer(l.issuerType)), Str(l.leaseId), Int(l.maxUses), DigestJson(s, l.requestDigest),
     Str(l.resource), Arr(Texts(l.reviewGrantIds))]
  }

  function PermitValues(s: Spelling, p: Permit): (v: seq<Json>)
    ensures |v| == 17
    decreases p, 0
  {
    [Str(p.action), Str(p.actor), Str(s.authority(p.authorityEffect)), Str(p.capability), Str(s.time(p.expiresAt)),
     Str(s.reason(p.gateReason)), Str(s.verdict(p.gateVerdict)), Str(s.time(p.issuedAt)),
     Arr(Texts(p.matchedGrantIds)), Int(p.maxUses), Str(p.permitId), Str(p.permitVersion), Str(p.registryId),
     Str(p.registryVersion), DigestJson(s, p.requestDigest), Str(p.requestId), Str(p.resource)]
  }

  function ResultValues(s: Spelling, r: ExecutionResult): (v: seq<Json>)
    ensures |v| == 13
    decreases r, 0
  {
    [Str(r.action), Str(s.authority(r.authorityEffect)), Str(r.capability), Str(s.time(r.executedAt)),
     Str(s.outcome(r.outcome)), DigestJson(s, r.permitHash), Str(r.permitId), DigestJson(s, r.requestDigest),
     Str(r.requestId), Str(r.resource), r.result, Str(r.resultId), Str(r.resultVersion)]
  }

  function BodyValues(s: Spelling, b: ReceiptBody): (v: seq<Json>)
    ensures |v| == 14
    decreases b, 0
  {
    [Str(b.action), Str(b.capability), Str(s.time(b.createdAt)), Str(s.verdict(b.gate)), Str(s.reason(b.gateReason)),
     Arr(Texts(b.matchedGrantIds)), Str(s.outcome(b.outcome)), PreviousJson(s, b.previousReceiptHash), Str("0.1"),
     Str(b.registryId), Str(b.registryVersion), Str(b.requestId), Str(b.resource), b.result]
  }

  /** The body's values, with the receipt's hash in its alphabetical place. */
  function ReceiptValues(s: Spelling, r: ActionReceipt): (v: seq<Json>)
    ensures |v| == 15
    decreases r, 0
  {
    var body := BodyValues(s, r.body);
    body[..8] + [DigestJson(s, r.receiptHash)] + body[8..]
  }

  function EventValues(s: Spelling, e: EventBody): (v: seq<Json>)
    ensures |v| == 9
    decreases e, 0
  {
    [Str(e.actor), Str(s.time(e.createdAt)), Str(s.eventKind(e.event)), Str("0.6"), Str(e.leaseId),
     PreviousJson(s, e.previousEventHash), Str(s.eventReason(e.reason)), DigestJson(s, e.requestDigest),
     if e.requestId.None? then Null else Str(e.requestId.value)]
  }

  function EnvelopeValues(s: Spelling, v: SignatureView, signature: string): (values: seq<Json>)
    ensures |values| == 10
    decreases v, 0
  {
    [Str("0.7"), Str(v.keyId), PayloadJson(s, v.payload), DigestJson(s, v.payloadHash),
     Str(s.payloadType(v.payloadType)), PreviousJson(s, v.previous), Str(signature), Str("Ed25519"),
     Str(s.time(v.signedAt)), Str(v.signerId)]
  }

  function DeltaValues(s: Spelling, d: CapabilityDelta): (v: seq<Json>)
    ensures |v| == 6
    decreases d, 0
  {
    [Arr(Texts(d.added)), Arr(Texts(d.changed)), DigestJson(s, d.digest),
     Bool(d.added != [] || d.removed != [] || d.changed != []), Bool(d.added != [] || d.changed != []),
     Arr(Texts(d.removed))]
  }

  function PromotionValues(s: Spelling, p: PromotionRequest): (v: seq<Json>)
    ensures |v| == 9
    decreases p, 0
  {
    [Str(p.appId), Str("NONE"), DigestJson(s, p.baselineDigest), Doc(DeltaDoc, DeltaValues(s, p.delta)),
     Str(p.promotionId), DigestJson(s, p.proposedDigest), Str(p.requestedBy), Arr(Texts(p.requiredDomains)),
     Str(p.targetStage)]
  }

  function RegistryValues(s: Spelling, r: CapabilityRegistry): (v: seq<Json>)
    ensures |v| == 3
  {
    [Arr(GrantsJson(s, r.grants)), Str(r.registryId), Str(r.version)]
  }

  function EvidenceValues(s: Spelling, p: Payload): (v: seq<Json>)
    requires p.EvidencePayload?
    ensures |v| == 5
    decreases p, 0
  {
    [Str(p.appId), Str(s.authority(p.evidenceEffect)), Str(p.promotionId), DigestJson(s, p.requestDigest),
     Doc(SimulationDoc, SimulationValues(s, p.prsp))]
  }

  function PayloadKind(payload: Payload): Option<Kind> {
    match payload
    case LeasePayload(_, _) => Some(LeaseDoc)
    case PermitPayload(_) => Some(PermitDoc)
    case ResultPayload(_) => Some(ResultDoc)
    case ReceiptPayload(_) => Some(ReceiptDoc)
    case RegistryPayload(_, _) => Some(AttestationDoc)
    case EvidencePayload(_, _, _, _, _) => Some(EvidenceDoc)
    case OtherPayload(_) => None
  }

  function PayloadValues(s: Spelling, payload: Payload): (v: seq<Json>)
    ensures PayloadKind(payload).Some? ==> |v| == Size(PayloadKind(payload).value)
    decreases payload, 1
  {
    match payload
    case LeasePayload(lease, effect) => LeaseValues(s, lease, effect)
    case PermitPayload(permit) => PermitValues(s, permit)
    case ResultPayload(result) => ResultValues(s, result)
    case ReceiptPayload(receipt) => ReceiptValues(s, receipt)
    case RegistryPayload(registry, effect) => [Str(s.authority(effect))] + RegistryValues(s, registry)
    case EvidencePayload(_, _, _, _, _) => EvidenceValues(s, payload)
    case OtherPayload(json) => []
  }

  function PayloadJson(s: Spelling, payload: Payload): Json
    decreases payload, 2
  {
    if payload.OtherPayload? then Obj(s.other(payload.json))
    else Doc(PayloadKind(payload).value, PayloadValues(s, payload))
  }

  function HashedKind(hashed: Hashed): Option<Kind> {
    match hashed
    case RequestBody(_) => Some(RequestDoc)
    case PayloadBody(payload) => PayloadKind(payload)
    case EnvelopeBody(_, _) => Some(EnvelopeDoc)
    case ReceiptHashBody(_) => Some(ReceiptBodyDoc)
    case EventHashBody(_) => Some(EventDoc)
    case RegistryBody(_) => Some(RegistryDoc)
    case DeltaBody(_, _, _, _, _) => Some(DeltaHashDoc)
    case PromotionBody(_) => Some(PromotionDoc)
  }

  function RequestValues(r: ActionRequest): (v: seq<Json>)
    ensures |v| == 6
  {
    [Str(r.action), Str(r.actor), Str(r.capability), r.payload, Str(r.requestId), Str(r.resource)]
  }

  function DeltaBodyValues(s: Spelling, h: Hashed): (v: seq<Json>)
    requires h.DeltaBody?
    ensures |v| == 5
    decreases h, 0
  {
    [Arr(Texts(h.added)), DigestJson(s, h.baseline), Arr(Texts(h.changed)), DigestJson(s, h.proposed),
     Arr(Texts(h.removed))]
  }

  function HashedValues(s: Spelling, hashed: Hashed): (v: seq<Json>)
    ensures HashedKind(hashed).Some? ==> |v| == Size(HashedKind(hashed).value)
    decreases hashed, 1
  {
    match hashed
    case RequestBody(request) => RequestValues(request)
    case PayloadBody(payload) => PayloadValues(s, payload)
    case EnvelopeBody(view, signature) => EnvelopeValues(s, view, signature)
    case ReceiptHashBody(receipt) => BodyValues(s, receipt)
    case EventHashBody(event) => EventValues(s, event)
    case RegistryBody(registry) => RegistryValues(s, registry)
    case DeltaBody(_, _, _, _, _) => DeltaBodyValues(s, hashed)
    case PromotionBody(promotion) => PromotionValues(s, promotion)
  }

  /** What is hashed, as JSON. */
  function HashedJson(s: Spelling, hashed: Hashed): Json
    decreases hashed, 2
  {
    if HashedKind(hashed).None? then Obj(s.other(hashed.payload.json))
    else Doc(HashedKind(hashed).value, HashedValues(s, hashed))
  }

  function DigestJson(s: Spelling, digest: Digest): Json
    decreases digest, 1
  {
    Str(DigestText(s, digest))
  }

  function PreviousJson(s: Spelling, previous: Option<Digest>): Json
    decreases previous, 0
  {
    if previous.None? then Null else DigestJson(s, previous.value)
  }

  /** The characters of a digest field. */
  function DigestText(s: Spelling, digest: Digest): string
    decreases digest, 0
  {
    match digest
    case Sha256(hashed) => s.sha(Print(HashedJson(s, hashed)))
    case Text(raw) => s.text(raw)
  }

  // ----- Rendering loses nothing ----------------------------------------------------------------

  lemma TextsFaithful(t: seq<string>, t': seq<string>)
    requires Arr(Texts(t)) == Arr(Texts(t'))
    ensures t == t'
  {
    forall i | 0 <= i < |t|
      ensures t[i] == t'[i]
    {
      assert Texts(t)[i] == Texts(t')[i];
    }
  }

  lemma GrantFaithful(s: Spelling, g: CapabilityGrant, g': CapabilityGrant)
    requires Faithful(s) && GrantValues(s, g) == GrantValues(s, g')
    ensures g == g'
  {
    hide Doc;
    var v, v' := GrantValues(s, g), GrantValues(s, g');
    assert v[0] == v'[0] && v[1] == v'[1] && v[2] == v'[2] && v[3] == v'[3];
    assert v[4] == v'[4] && v[5] == v'[5] && v[6] == v'[6];
    TextsFaithful(g.actions, g'.actions);
    TextsFaithful(g.resources, g'.resources);
  }

  lemma GrantsFaithful(s: Spelling, g: seq<CapabilityGrant>, g': seq<CapabilityGrant>)
    requires Faithful(s) && Arr(GrantsJson(s, g)) == Arr(GrantsJson(s, g'))
    ensures g == g'
  {
    hide GrantValues, Faithful, Doc;
    forall i | 0 <= i < |g|
      ensures g[i] == g'[i]
    {
      assert GrantsJson(s, g)[i] == GrantsJson(s, g')[i];
      DocValues(GrantDoc, GrantValues(s, g[i]), GrantValues(s, g'[i]));
      GrantFaithful(s, g[i], g'[i]);
    }
  }

  lemma ScenarioFaithful(s: Spelling, r: ScenarioResult, r': ScenarioResult)
    requires Faithful(s) && ScenarioValues(r) == ScenarioValues(r')
    ensures r == r'
  {
    hide Doc;
    var v, v' := ScenarioValues(r), ScenarioValues(r');
    assert v[0] == v'[0] && v[1] == v'[1] && v[2] == v'[2] && v[3] == v'[3];
    assert v[4] == v'[4] && v[5] == v'[5];
    TextsFaithful(r.evidenceRequired, r'.evidenceRequired);
  }

  lemma ScenariosFaithful(s: Spelling, r: seq<ScenarioResult>, r': seq<ScenarioResult>)
    requires Faithful(s) && Arr(ScenariosJson(s, r)) == Arr(ScenariosJson(s, r'))
    ensures r == r'
  {
    hide ScenarioValues, Faithful, Doc;
    forall i | 0 <= i < |r|
      ensures r[i] == r'[i]
    {
      assert ScenariosJson(s, r)[i] == ScenariosJson(s, r')[i];
      DocValues(ScenarioDoc, ScenarioValues(r[i]), ScenarioValues(r'[i]));
      ScenarioFaithful(s, r[i], r'[i]);
    }
  }

  lemma SimulationFaithful(s: Spelling, r: SimulationReceipt, r': SimulationReceipt)
    requires Faithful(s) && SimulationValues(s, r) == SimulationValues(s, r')
    ensures r == r'
  {
    hide Faithful, Doc, ScenariosJson;
    var v, v' := SimulationValues(s, r), SimulationValues(s, r');
    assert v[0] == v'[0] && v[1] == v'[1] && v[2] == v'[2] && v[3] == v'[3];
    assert v[4] == v'[4] && v[5] == v'[5] && v[6] == v'[6] && v[7] == v'[7];
    ScenariosFaithful(s, r.results, r'.results);
  }

  lemma LeaseFaithful(s: Spelling, l: ReviewLease, e: AuthorityEffect, l': ReviewLease, e': AuthorityEffect)
    requires Faithful(s) && LeaseValues(s, l, e) == LeaseValues(s, l', e')
    ensures l == l' && e == e'
    decreases l, 0
  {
    hide Doc, DigestText, PreviousJson;
    var v, v' := LeaseValues(s, l, e), LeaseValues(s, l', e');
    assert v[0] == v'[0] && v[1] == v'[1] && v[2] == v'[2] && v[3] == v'[3];
    assert v[4] == v'[4] && v[5] == v'[5] && v[6] == v'[6] && v[7] == v'[7];
    assert v[8] == v'[8] && v[9] == v'[9] && v[10] == v'[10] && v[11] == v'[11];
    TextsFaithful(l.reviewGrantIds, l'.reviewGrantIds);
    DigestFaithful(s, l.requestDigest, l'.requestDigest);
  }

  lemma PermitFaithful(s: Spelling, p: Permit, p': Permit)
    requires Faithful(s) && PermitValues(s, p) == PermitValues(s, p')
    ensures p == p'
    decreases p, 0
  {
    hide Doc, DigestText, PreviousJson;
    var v, v' := PermitValues(s, p), PermitValues(s, p');
    assert v[0] == v'[0] && v[1] == v'[1] && v[2] == v'[2] && v[3] == v'[3];
    assert v[4] == v'[4] && v[5] == v'[5] && v[6] == v'[6] && v[7] == v'[7];
    assert v[8] == v'[8] && v[9] == v'[9] && v[10] == v'[10] && v[11] == v'[11];
    assert v[12] == v'[12] && v[13] == v'[13] && v[14] == v'[14] && v[15] == v'[15];
    assert v[16] == v'[16];
    TextsFaithful(p.matchedGrantIds, p'.matchedGrantIds);
    DigestFaithful(s, p.requestDigest, p'.requestDigest);
  }

  lemma ResultFaithful(s: Spelling, r: ExecutionResult, r': ExecutionResult)
    requires Faithful(s) && ResultValues(s, r) == ResultValues(s, r')
    ensures r == r'
    decreases r, 0
  {
    hide Doc, DigestText, PreviousJson;
    var v, v' := ResultValues(s, r), ResultValues(s, r');
    assert v[0] == v'[0] && v[1] == v'[1] && v[2] == v'[2] && v[3] == v'[3];
    assert v[4] == v'[4] && v[5] == v'[5] && v[6] == v'[6] && v[7] == v'[7];
    assert v[8] == v'[8] && v[9] == v'[9] && v[10] == v'[10] && v[11] == v'[11];
    assert v[12] == v'[12];
    DigestFaithful(s, r.permitHash, r'.permitHash);
    DigestFaithful(s, r.requestDigest, r'.requestDigest);
  }

  lemma BodyFaithful(s: Spelling, b: ReceiptBody, b': ReceiptBody)
    requires Faithful(s) && BodyValues(s, b) == BodyValues(s, b')
    ensures b == b'
    decreases b, 0
  {
    hide Doc, DigestText, PreviousJson;
    var v, v' := BodyValues(s, b), BodyValues(s, b');
    assert v[0] == v'[0] && v[1] == v'[1] && v[2] == v'[2] && v[3] == v'[3];
    assert v[4] == v'[4] && v[5] == v'[5] && v[6] == v'[6] && v[7] == v'[7];
    assert v[9] == v'[9] && v[10] == v'[10] && v[11] == v'[11] && v[12] == v'[12];
    assert v[13] == v'[13];
    TextsFaithful(b.matchedGrantIds, b'.matchedGrantIds);
    PreviousFaithful(s, b.previousReceiptHash, b'.previousReceiptHash);
  }

  lemma ReceiptFaithful(s: Spelling, r: ActionReceipt, r': ActionReceipt)
    requires Faithful(s) && ReceiptValues(s, r) == ReceiptValues(s, r')
    ensures r == r'
    decreases r, 0
  {
    hide BodyValues, DigestText, Faithful;
    var v, v' := ReceiptValues(s, r), ReceiptValues(s, r');
    var b, b' := BodyValues(s, r.body), BodyValues(s, r'.body);
    assert b == v[..8] + v[9..] && b' == v'[..8] + v'[9..];
    assert v[8] == v'[8];
    BodyFaithful(s, r.body, r'.body);
    DigestFaithful(s, r.receiptHash, r'.receiptHash);
  }

  lemma EventFaithful(s: Spelling, e: EventBody, e': EventBody)
    requires Faithful(s) && EventValues(s, e) == EventValues(s, e')
    ensures e == e'
    decreases e, 0
  {
    hide Doc, DigestText, PreviousJson;
    var v, v' := EventValues(s, e), EventValues(s, e');
    assert v[0] == v'[0] && v[1] == v'[1] && v[2] == v'[2] && v[4] == v'[4];
    assert v[5] == v'[5] && v[6] == v'[6] && v[7] == v'[7] && v[8] == v'[8];
    PreviousFaithful(s, e.previousEventHash, e'.previousEventHash);
    DigestFaithful(s, e.requestDigest, e'.requestDigest);
  }

  lemma EnvelopeFaithful(s: Spelling, view: SignatureView, t: string, view': SignatureView, t': string)
    requires Faithful(s) && EnvelopeValues(s, view, t) == EnvelopeValues(s, view', t')
    ensures view == view' && t == t'
    decreases view, 0
  {
    hide Doc, DigestText, PreviousJson, PayloadJson;
    var v, v' := EnvelopeValues(s, view, t), EnvelopeValues(s, view', t');
    assert v[1] == v'[1] && v[2] == v'[2] && v[3] == v'[3] && v[4] == v'[4];
    assert v[5] == v'[5] && v[6] == v'[6] && v[8] == v'[8] && v[9] == v'[9];
    PayloadFaithful(s, view.payload, view'.payload);
    DigestFaithful(s, view.payloadHash, view'.payloadHash);
    PreviousFaithful(s, view.previous, view'.previous);
  }

  lemma DeltaFaithful(s: Spelling, d: CapabilityDelta, d': CapabilityDelta)
    requires Faithful(s) && DeltaValues(s, d) == DeltaValues(s, d')
    ensures d == d'
    decreases d, 0
  {
    hide Faithful, Doc, DigestText, PreviousJson;
    var v, v' := DeltaValues(s, d), DeltaValues(s, d');
    assert v[0] == v'[0] && v[1] == v'[1] && v[2] == v'[2] && v[5] == v'[5];
    TextsFaithful(d.added, d'.added);
    TextsFaithful(d.changed, d'.changed);
    TextsFaithful(d.removed, d'.removed);
    DigestFaithful(s, d.digest, d'.digest);
  }

  lemma PromotionFaithful(s: Spelling, p: PromotionRequest, p': PromotionRequest)
    requires Faithful(s) && PromotionValues(s, p) == PromotionValues(s, p')
    ensures p == p'
    decreases p, 0
  {
    hide Faithful, Fields, Doc, DigestText, PreviousJson, DeltaValues;
    var v, v' := PromotionValues(s, p), PromotionValues(s, p');
    assert v[0] == v'[0] && v[2] == v'[2] && v[3] == v'[3] && v[4] == v'[4];
    assert v[5] == v'[5] && v[6] == v'[6] && v[7] == v'[7] && v[8] == v'[8];
    DigestFaithful(s, p.baselineDigest, p'.baselineDigest);
    DigestFaithful(s, p.proposedDigest, p'.proposedDigest);
    DocValues(DeltaDoc, DeltaValues(s, p.delta), DeltaValues(s, p'.delta));
    DeltaFaithful(s, p.delta, p'.delta);
    TextsFaithful(p.requiredDomains, p'.requiredDomains);
  }

  lemma RegistryFaithful(s: Spelling, r: CapabilityRegistry, r': CapabilityRegistry)
    requires Faithful(s) && RegistryValues(s, r) == RegistryValues(s, r')
    ensures r == r'
  {
    hide GrantsJson;
    var v, v' := RegistryValues(s, r), RegistryValues(s, r');
    assert v[0] == v'[0] && v[1] == v'[1] && v[2] == v'[2];
    GrantsFaithful(s, r.grants, r'.grants);
  }

  lemma AttestationFaithful(s: Spelling, p: Payload, p': Payload)
    requires p.RegistryPayload? && p'.RegistryPayload?
    requires Faithful(s) && PayloadValues(s, p) == PayloadValues(s, p')
    ensures p == p'
  {
    hide RegistryValues;
    var v, v' := PayloadValues(s, p), PayloadValues(s, p');
    assert v[0] == v'[0];
    assert v[1..] == RegistryValues(s, p.registry) && v'[1..] == RegistryValues(s, p'.registry);
    RegistryFaithful(s, p.registry, p'.registry);
  }

  lemma EvidenceFaithful(s: Spelling, p: Payload, p': Payload)
    requires p.EvidencePayload? && p'.EvidencePayload?
    requires Faithful(s) && EvidenceValues(s, p) == EvidenceValues(s, p')
    ensures p == p'
    decreases p, 0
  {
    hide Fields, Doc, DigestText, PreviousJson, SimulationValues;
    var v, v' := EvidenceValues(s, p), EvidenceValues(s, p');
    assert v[0] == v'[0] && v[1] == v'[1] && v[2] == v'[2] && v[3] == v'[3];
    assert v[4] == v'[4];
    DigestFaithful(s, p.requestDigest, p'.requestDigest);
    DocValues(SimulationDoc, SimulationValues(s, p.prsp), SimulationValues(s, p'.prsp));
    SimulationFaithful(s, p.prsp, p'.prsp);
  }

  /** Payloads whose JSON is equal are of one kind and have equal values. */
  lemma SamePayloadKind(s: Spelling, p: Payload, p': Payload)
    requires Faithful(s) && PayloadJson(s, p) == PayloadJson(s, p')
    ensures PayloadKind(p) == PayloadKind(p')
    ensures PayloadKind(p).Some? ==> PayloadValues(s, p) == PayloadValues(s, p')
  {
    hide PayloadValues, Doc, Fields;
    if PayloadKind(p).Some? && PayloadKind(p').Some? {
      SameKind(PayloadKind(p).value, PayloadKind(p').value);
      DocValues(PayloadKind(p).value, PayloadValues(s, p), PayloadValues(s, p'));
    }
  }

  lemma PayloadFaithful(s: Spelling, p: Payload, p': Payload)
    requires Faithful(s) && PayloadJson(s, p) == PayloadJson(s, p')
    ensures p == p'
    decreases p, 1
  {
    hide LeaseValues, PermitValues, ResultValues, ReceiptValues, RegistryValues, EvidenceValues, Doc, Fields;
    SamePayloadKind(s, p, p');
    match p {
      case LeasePayload(lease, effect) => LeaseFaithful(s, lease, effect, p'.lease, p'.leaseEffect);
      case PermitPayload(permit) => PermitFaithful(s, permit, p'.permit);
      case ResultPayload(result) => ResultFaithful(s, result, p'.result);
      case ReceiptPayload(receipt) => ReceiptFaithful(s, receipt, p'.receipt);
      case RegistryPayload(_, _) => AttestationFaithful(s, p, p');
      case EvidencePayload(_, _, _, _, _) => EvidenceFaithful(s, p, p');
      case OtherPayload(_) =>
    }
  }

  lemma RequestFaithful(r: ActionRequest, r': ActionRequest)
    requires RequestValues(r) == RequestValues(r')
    ensures r == r'
  {
    var v, v' := RequestValues(r), RequestValues(r');
    assert v[0] == v'[0] && v[1] == v'[1] && v[2] == v'[2] && v[3] == v'[3];
    assert v[4] == v'[4] && v[5] == v'[5];
  }

  lemma DeltaBodyFaithful(s: Spelling, h: Hashed, h': Hashed)
    requires h.DeltaBody? && h'.DeltaBody?
    requires Faithful(s) && DeltaBodyValues(s, h) == DeltaBodyValues(s, h')
    ensures h == h'
    decreases h, 0
  {
    hide Faithful, Doc, DigestText, PreviousJson;
    var v, v' := DeltaBodyValues(s, h), DeltaBodyValues(s, h');
    assert v[0] == v'[0] && v[1] == v'[1] && v[2] == v'[2] && v[3] == v'[3];
    assert v[4] == v'[4];
    TextsFaithful(h.added, h'.added);
    TextsFaithful(h.changed, h'.changed);
    TextsFaithful(h.removed, h'.removed);
    DigestFaithful(s, h.baseline, h'.baseline);
    DigestFaithful(s, h.proposed, h'.proposed);
  }

  lemma SameHashedKind(s: Spelling, h: Hashed, h': Hashed)
    requires Faithful(s) && HashedJson(s, h) == HashedJson(s, h')
    ensures HashedKind(h) == HashedKind(h')
    ensures HashedKind(h).Some? ==> HashedValues(s, h) == HashedValues(s, h')
    ensures HashedKind(h).None? ==> h == h'
  {
    hide HashedValues, Doc, Fields;
    if HashedKind(h).Some? && HashedKind(h').Some? {
      SameKind(HashedKind(h).value, HashedKind(h').value);
      DocValues(HashedKind(h).value, HashedValues(s, h), HashedValues(s, h'));
    }
  }

  lemma HashedFaithful(s: Spelling, h: Hashed, h': Hashed)
    requires Faithful(s) && HashedJson(s, h) == HashedJson(s, h')
    ensures h == h'
    decreases h, 1
  {
    hide PayloadValues, EnvelopeValues, BodyValues, EventValues, PromotionValues, RegistryValues, RequestValues;
    hide DeltaBodyValues, Doc, Fields, Faithful;
    SameHashedKind(s, h, h');
    match h {
      case RequestBody(request) => RequestFaithful(request, h'.request);
      case PayloadBody(payload) =>
        if !payload.OtherPayload? {
          PayloadFaithful(s, payload, h'.payload);
        }
      case EnvelopeBody(view, signature) => EnvelopeFaithful(s, view, signature, h'.view, h'.signature);
      case ReceiptHashBody(receipt) => BodyFaithful(s, receipt, h'.receipt);
      case EventHashBody(event) => EventFaithful(s, event, h'.event);
      case RegistryBody(registry) => RegistryFaithful(s, registry, h'.registry);
      case DeltaBody(_, _, _, _, _) => DeltaBodyFaithful(s, h, h');
      case PromotionBody(promotion) => PromotionFaithful(s, promotion, h'.promotion);
    }
  }

  lemma PreviousFaithful(s: Spelling, p: Option<Digest>, p': Option<Digest>)
    requires Faithful(s) && PreviousJson(s, p) == PreviousJson(s, p')
    ensures p == p'
    decreases p, 0
  {
    hide DigestText, Faithful;
    if p.Some? && p'.Some? {
      DigestFaithful(s, p.value, p'.value);
    }
  }

  /** Digests whose characters are equal are equal: nothing but equal records hash to equal characters. */
  lemma DigestFaithful(s: Spelling, digest: Digest, digest': Digest)
    requires Faithful(s)
    ensures DigestText(s, digest) == DigestText(s, digest') <==> digest == digest'
    decreases digest, 0
  {
    hide HashedJson, Print;
    if DigestText(s, digest) == DigestText(s, digest') {
      if digest.Sha256? && digest'.Sha256? {
        PrintInjective(HashedJson(s, digest.of), HashedJson(s, digest'.of));
        HashedFaithful(s, digest.of, digest'.of);
      }
    }
  }

  /** What `as_dict` sends of an envelope: the hashed dictionary and the envelope's own hash. */
  function Transmitted(s: Spelling, e: SignedEnvelope): Json {
    Doc(TransmittedDoc, [DigestJson(s, e.envelopeHash)] + EnvelopeValues(s, e.view, e.signature))
  }

  /** An envelope survives its text: reading the text gives the dictionary back, and two envelopes have one text only
      when they are equal. */
  lemma EnvelopeSurvives(s: Spelling, e: SignedEnvelope, e': SignedEnvelope)
    requires Faithful(s)
    ensures ReadValue(Print(Transmitted(s, e))) == Read(Transmitted(s, e), "")
    ensures Print(Transmitted(s, e)) == Print(Transmitted(s, e')) <==> e == e'
  {
    hide Print, ReadValue, Doc, EnvelopeValues, DigestText;
    ReadPrinted(Transmitted(s, e), "");
    assert Print(Transmitted(s, e)) + "" == Print(Transmitted(s, e));
    if Print(Transmitted(s, e)) == Print(Transmitted(s, e')) {
      PrintInjective(Transmitted(s, e), Transmitted(s, e'));
      var v := [DigestJson(s, e.envelopeHash)] + EnvelopeValues(s, e.view, e.signature);
      var v' := [DigestJson(s, e'.envelopeHash)] + EnvelopeValues(s, e'.view, e'.signature);
      DocValues(TransmittedDoc, v, v');
      assert v[0] == v'[0] && v[1..] == v'[1..];
      assert v[1..] == EnvelopeValues(s, e.view, e.signature) && v'[1..] == EnvelopeValues(s, e'.view, e'.signature);
      EnvelopeFaithful(s, e.view, e.signature, e'.view, e'.signature);
      DigestFaithful(s, e.envelopeHash, e'.envelopeHash);
    }
  }

  /** A document is the canonical form of every dictionary with its entries, whatever the order of its keys. */
  lemma DocIsCanonical(kind: Kind, values: seq<Json>, entries: seq<Entry>)
    requires |values| == Size(kind) && DistinctKeys(EntryKey, entries)
    requires forall m :: m in CanonicalMembers(entries) <==> m in Doc(kind, values).members
    ensures Canonical(PyDict(entries)) == Doc(kind, values)
  {
    hide Fields, FieldName, Zip, SortBy, Sorted, DistinctKeys;
    var members := Zip(Fields(kind), values);
    SortedMembers(entries);
    KeysAscend(kind, values);
    SortedIsUnique(MemberKey, SortBy(MemberKey, CanonicalMembers(entries)), members);
  }

  /** Each field of the list is before the next. */
  ghost predicate Stepwise(f: seq<Field>) {
    forall i :: 0 <= i < |f| - 1 ==> f[i] < f[i + 1]
  }

  lemma LeaseDocAscends()
    ensures Stepwise(Fields(LeaseDoc))
  {
    var f := Fields(LeaseDoc);
    assert f[0] < f[1] < f[2] < f[3] < f[4] < f[5] < f[6] < f[7] < f[8] < f[9] < f[10] < f[11];
  }

  lemma PermitDocAscends()
    ensures Stepwise(Fields(PermitDoc))
  {
    var f := Fields(PermitDoc);
    assert f[0] < f[1] < f[2] < f[3] < f[4] < f[5] < f[6] < f[7] < f[8] < f[9] < f[10] < f[11] < f[12] < f[13]
      < f[14] < f[15] < f[16];
  }

  lemma ResultDocAscends()
    ensures Stepwise(Fields(ResultDoc))
  {
    var f := Fields(ResultDoc);
    assert f[0] < f[1] < f[2] < f[3] < f[4] < f[5] < f[6] < f[7] < f[8] < f[9] < f[10] < f[11] < f[12];
  }

  lemma ReceiptBodyDocAscends()
    ensures Stepwise(Fields(ReceiptBodyDoc))
  {
    var f := Fields(ReceiptBodyDoc);
    assert f[0] < f[1] < f[2] < f[3] < f[4] < f[5] < f[6] < f[7] < f[8] < f[9] < f[10] < f[11] < f[12] < f[13];
  }

  lemma ReceiptDocAscends()
    ensures Stepwise(Fields(ReceiptDoc))
  {
    var f := Fields(ReceiptDoc);
    assert f[0] < f[1] < f[2] < f[3] < f[4] < f[5] < f[6] < f[7] < f[8] < f[9] < f[10] < f[11] < f[12] < f[13]
      < f[14];
  }

  lemma EnvelopeDocAscends()
    ensures Stepwise(Fields(EnvelopeDoc))
  {
    var f := Fields(EnvelopeDoc);
    assert f[0] < f[1] < f[2] < f[3] < f[4] < f[5] < f[6] < f[7] < f[8] < f[9];
  }

  lemma TransmittedDocAscends()
    ensures Stepwise(Fields(TransmittedDoc))
  {
    var f := Fields(TransmittedDoc);
    assert f[0] < f[1] < f[2] < f[3] < f[4] < f[5] < f[6] < f[7] < f[8] < f[9] < f[10];
  }

  lemma FieldsAscend(kind: Kind)
    ensures forall i, j :: 0 <= i < j < |Fields(kind)| ==> Fields(kind)[i] < Fields(kind)[j]
  {
    match kind {
      case LeaseDoc => LeaseDocAscends();
      case PermitDoc => PermitDocAscends();
      case ResultDoc => ResultDocAscends();
      case ReceiptBodyDoc => ReceiptBodyDocAscends();
      case ReceiptDoc => ReceiptDocAscends();
      case EnvelopeDoc => EnvelopeDocAscends();
      case TransmittedDoc => TransmittedDocAscends();
      case _ => ShortAscends(kind);
    }
    hide Fields;
    StepwiseAscending(Fields(kind));
  }

  lemma ShortAscends(kind: Kind)
    requires Size(kind) < 10
    ensures Stepwise(Fields(kind))
  {
  }

  lemma {:induction false} StepwiseAscending(f: seq<Field>)
    requires Stepwise(f)
    ensures forall i, j :: 0 <= i < j < |f| ==> f[i] < f[j]
  {
    if |f| > 1 {
      var n := |f| - 1;
      StepwiseAscending(f[..n]);
      assert f[n - 1] < f[n - 1 + 1];
      assert forall i :: 0 <= i < n ==> f[..n][i] == f[i];
    }
  }

  /** The keys of a document are in order, each once. */
  lemma KeysAscend(kind: Kind, values: seq<Json>)
    requires |values| == Size(kind)
    ensures Sorted(MemberKey, Zip(Fields(kind), values)) && DistinctKeys(MemberKey, Zip(Fields(kind), values))
  {
    FieldsAscend(kind);
    hide Fields, FieldName, Before;
    var fields, members := Fields(kind), Zip(Fields(kind), values);
    forall i, j | 0 <= i < j < |members|
      ensures MemberKey(members[i]) != MemberKey(members[j]) && !Before(MemberKey(members[j]), MemberKey(members[i]))
    {
      NamesInOrder(fields[i], fields[j]);
      BeforeTotal(FieldName(fields[i]), FieldName(fields[j]));
    }
  }
}
