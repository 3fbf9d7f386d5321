/** Which value stands under which key in the dictionaries that are hashed and sent, whatever the order of the keys. */
module RecordFields {
  import opened CanonicalJson
  import opened DigestRendering
  import opened FieldNames
  import opened JsonValues
  import opened Records
  import W = WireCodecs

  /** The members of the object, in any order. */
  ghost predicate Holds(members: seq<Member>, json: Json) {
    json.Obj? && W.Reordered(members, json.members)
  }

  ghost predicate At(members: seq<Member>, field: Field, value: Json) {
    W.FieldOf(members, field) == Some(value)
  }

  function DeltaJson(s: Spelling, d: CapabilityDelta): Json {
    Doc(DeltaDoc, DeltaValues(s, d))
  }

  function SimulationJson(s: Spelling, r: SimulationReceipt): Json {
    Doc(SimulationDoc, SimulationValues(s, r))
  }

  lemma Found(kind: Kind, values: seq<Json>, members: seq<Member>, i: nat)
    requires i < |values| == Size(kind) && Holds(members, Doc(kind, values))
    ensures At(members, Fields(kind)[i], values[i])
  {
    hide Fields, FieldName, W.FieldOf, W.Reordered, Zip;
    W.FieldsFound(Fields(kind), values, members);
  }

  /** The fields of a request. */
  lemma RequestFields(r: ActionRequest, members: seq<Member>)
    requires Holds(members, Doc(RequestDoc, RequestValues(r)))
    ensures At(members, REQUEST_ID, Str(r.requestId)) && At(members, CAPABILITY, Str(r.capability))
    ensures At(members, ACTION, Str(r.action)) && At(members, RESOURCE, Str(r.resource))
    ensures At(members, PAYLOAD, r.payload) && At(members, ACTOR, Str(r.actor))
  {
    hide At, Holds, Texts, Doc, FieldName, DigestJson, PreviousJson;
    var v := RequestValues(r);
    Found(RequestDoc, v, members, 0); Found(RequestDoc, v, members, 1); Found(RequestDoc, v, members, 2);
    Found(RequestDoc, v, members, 3); Found(RequestDoc, v, members, 4); Found(RequestDoc, v, members, 5);
  }

  /** The fields of a permit. */
  lemma PermitFields(s: Spelling, p: Permit, members: seq<Member>)
    requires Holds(members, Doc(PermitDoc, PermitValues(s, p)))
    ensures At(members, PERMIT_VERSION, Str(p.permitVersion)) && At(members, PERMIT_ID, Str(p.permitId))
    ensures At(members, REQUEST_DIGEST, DigestJson(s, p.requestDigest)) && At(members, REQUEST_ID, Str(p.requestId))
    ensures At(members, CAPABILITY, Str(p.capability)) && At(members, ACTION, Str(p.action))
    ensures At(members, RESOURCE, Str(p.resource)) && At(members, ACTOR, Str(p.actor))
    ensures At(members, GATE_VERDICT, Str(s.verdict(p.gateVerdict)))
    ensures At(members, GATE_REASON, Str(s.reason(p.gateReason)))
    ensures At(members, MATCHED_GRANT_IDS, Arr(Texts(p.matchedGrantIds)))
    ensures At(members, REGISTRY_ID, Str(p.registryId)) && At(members, REGISTRY_VERSION, Str(p.registryVersion))
    ensures At(members, ISSUED_AT, Str(s.time(p.issuedAt))) && At(members, EXPIRES_AT, Str(s.time(p.expiresAt)))
    ensures At(members, MAX_USES, Int(p.maxUses))
    ensures At(members, AUTHORITY_EFFECT, Str(s.authority(p.authorityEffect)))
  {
    hide At, Holds, Texts, Doc, FieldName, DigestJson, PreviousJson;
    var v := PermitValues(s, p);
    Found(PermitDoc, v, members, 0); Found(PermitDoc, v, members, 1); Found(PermitDoc, v, members, 2);
    Found(PermitDoc, v, members, 3); Found(PermitDoc, v, members, 4); Found(PermitDoc, v, members, 5);
    Found(PermitDoc, v, members, 6); Found(PermitDoc, v, members, 7); Found(PermitDoc, v, members, 8);
    Found(PermitDoc, v, members, 9); Found(PermitDoc, v, members, 10); Found(PermitDoc, v, members, 11);
    Found(PermitDoc, v, members, 12); Found(PermitDoc, v, members, 13); Found(PermitDoc, v, members, 14);
    Found(PermitDoc, v, members, 15); Found(PermitDoc, v, members, 16);
  }

  /** The fields of an execution result. */
  lemma ResultFields(s: Spelling, r: ExecutionResult, members: seq<Member>)
    requires Holds(members, Doc(ResultDoc, ResultValues(s, r)))
    ensures At(members, RESULT_VERSION, Str(r.resultVersion)) && At(members, RESULT_ID, Str(r.resultId))
    ensures At(members, PERMIT_ID, Str(r.permitId)) && At(members, PERMIT_HASH, DigestJson(s, r.permitHash))
    ensures At(members, REQUEST_DIGEST, DigestJson(s, r.requestDigest)) && At(members, REQUEST_ID, Str(r.requestId))
    ensures At(members, CAPABILITY, Str(r.capability)) && At(members, ACTION, Str(r.action))
    ensures At(members, RESOURCE, Str(r.resource)) && At(members, OUTCOME, Str(s.outcome(r.outcome)))
    ensures At(members, RESULT, r.result) && At(members, EXECUTED_AT, Str(s.time(r.executedAt)))
    ensures At(members, AUTHORITY_EFFECT, Str(s.authority(r.authorityEffect)))
  {
    hide At, Holds, Texts, Doc, FieldName, DigestJson, PreviousJson;
    var v := ResultValues(s, r);
    Found(ResultDoc, v, members, 0); Found(ResultDoc, v, members, 1); Found(ResultDoc, v, members, 2);
    Found(ResultDoc, v, members, 3); Found(ResultDoc, v, members, 4); Found(ResultDoc, v, members, 5);
    Found(ResultDoc, v, members, 6); Found(ResultDoc, v, members, 7); Found(ResultDoc, v, members, 8);
    Found(ResultDoc, v, members, 9); Found(ResultDoc, v, members, 10); Found(ResultDoc, v, members, 11);
    Found(ResultDoc, v, members, 12);
  }

  /** The body of a receipt, which is hashed. */
  lemma ReceiptBodyFields(s: Spelling, b: ReceiptBody, members: seq<Member>)
    requires Holds(members, Doc(ReceiptBodyDoc, BodyValues(s, b)))
    ensures At(members, RECEIPT_VERSION, Str("0.1")) && At(members, REQUEST_ID, Str(b.requestId))
    ensures At(members, CAPABILITY, Str(b.capability)) && At(members, ACTION, Str(b.action))
    ensures At(members, RESOURCE, Str(b.resource)) && At(members, GATE, Str(s.verdict(b.gate)))
    ensures At(members, GATE_REASON, Str(s.reason(b.gateReason)))
    ensures At(members, MATCHED_GRANT_IDS, Arr(Texts(b.matchedGrantIds)))
    ensures At(members, OUTCOME, Str(s.outcome(b.outcome))) && At(members, RESULT, b.result)
    ensures At(members, REGISTRY_ID, Str(b.registryId)) && At(members, REGISTRY_VERSION, Str(b.registryVersion))
    ensures At(members, CREATED_AT, Str(s.time(b.createdAt)))
    ensures At(members, PREVIOUS_RECEIPT_HASH, PreviousJson(s, b.previousReceiptHash))
  {
    hide At, Holds, Texts, Doc, FieldName, DigestJson, PreviousJson;
    var v := BodyValues(s, b);
    Found(ReceiptBodyDoc, v, members, 0); Found(ReceiptBodyDoc, v, members, 1); Found(ReceiptBodyDoc, v, members, 2);
    Found(ReceiptBodyDoc, v, members, 3); Found(ReceiptBodyDoc, v, members, 4); Found(ReceiptBodyDoc, v, members, 5);
    Found(ReceiptBodyDoc, v, members, 6); Found(ReceiptBodyDoc, v, members, 7); Found(ReceiptBodyDoc, v, members, 8);
    Found(ReceiptBodyDoc, v, members, 9); Found(ReceiptBodyDoc, v, members, 10);
    Found(ReceiptBodyDoc, v, members, 11); Found(ReceiptBodyDoc, v, members, 12);
    Found(ReceiptBodyDoc, v, members, 13);
  }

  /** A receipt, which is sent: its body and its hash. */
  lemma ReceiptFields(s: Spelling, r: ActionReceipt, members: seq<Member>)
    requires Holds(members, Doc(ReceiptDoc, ReceiptValues(s, r)))
    ensures At(members, RECEIPT_VERSION, Str("0.1")) && At(members, REQUEST_ID, Str(r.body.requestId))
    ensures At(members, CAPABILITY, Str(r.body.capability)) && At(members, ACTION, Str(r.body.action))
    ensures At(members, RESOURCE, Str(r.body.resource)) && At(members, GATE, Str(s.verdict(r.body.gate)))
    ensures At(members, GATE_REASON, Str(s.reason(r.body.gateReason)))
    ensures At(members, MATCHED_GRANT_IDS, Arr(Texts(r.body.matchedGrantIds)))
    ensures At(members, OUTCOME, Str(s.outcome(r.body.outcome))) && At(members, RESULT, r.body.result)
    ensures At(members, REGISTRY_ID, Str(r.body.registryId))
    ensures At(members, REGISTRY_VERSION, Str(r.body.registryVersion))
    ensures At(members, CREATED_AT, Str(s.time(r.body.createdAt)))
    ensures At(members, PREVIOUS_RECEIPT_HASH, PreviousJson(s, r.body.previousReceiptHash))
    ensures At(members, RECEIPT_HASH, DigestJson(s, r.receiptHash))
  {
    hide At, Holds, Texts, Doc, FieldName, DigestJson, PreviousJson;
    var v := ReceiptValues(s, r);
    Found(ReceiptDoc, v, members, 0); Found(ReceiptDoc, v, members, 1); Found(ReceiptDoc, v, members, 2);
    Found(ReceiptDoc, v, members, 3); Found(ReceiptDoc, v, members, 4); Found(ReceiptDoc, v, members, 5);
    Found(ReceiptDoc, v, members, 6); Found(ReceiptDoc, v, members, 7); Found(ReceiptDoc, v, members, 8);
    Found(ReceiptDoc, v, members, 9); Found(ReceiptDoc, v, members, 10); Found(ReceiptDoc, v, members, 11);
    Found(ReceiptDoc, v, members, 12); Found(ReceiptDoc, v, members, 13); Found(ReceiptDoc, v, members, 14);
  }

  /** An event of the broker's log. */
  lemma EventFields(s: Spelling, e: EventBody, members: seq<Member>)
    requires Holds(members, Doc(EventDoc, EventValues(s, e)))
    ensures At(members, EVENT_VERSION, Str("0.6")) && At(members, EVENT, Str(s.eventKind(e.event)))
    ensures At(members, LEASE_ID, Str(e.leaseId))
    ensures At(members, REQUEST_ID, if e.requestId.None? then Null else Str(e.requestId.value))
    ensures At(members, REQUEST_DIGEST, DigestJson(s, e.requestDigest))
    ensures At(members, REASON, Str(s.eventReason(e.reason))) && At(members, ACTOR, Str(e.actor))
    ensures At(members, CREATED_AT, Str(s.time(e.createdAt)))
    ensures At(members, PREVIOUS_EVENT_HASH, PreviousJson(s, e.previousEventHash))
  {
    hide At, Holds, Texts, Doc, FieldName, DigestJson, PreviousJson;
    var v := EventValues(s, e);
    Found(EventDoc, v, members, 0); Found(EventDoc, v, members, 1); Found(EventDoc, v, members, 2);
    Found(EventDoc, v, members, 3); Found(EventDoc, v, members, 4); Found(EventDoc, v, members, 5);
    Found(EventDoc, v, members, 6); Found(EventDoc, v, members, 7); Found(EventDoc, v, members, 8);
  }

  /** A registry. */
  lemma RegistryFields(s: Spelling, r: CapabilityRegistry, members: seq<Member>)
    requires Holds(members, Doc(RegistryDoc, RegistryValues(s, r)))
    ensures At(members, REGISTRY_ID, Str(r.registryId)) && At(members, VERSION, Str(r.version))
    ensures At(members, GRANTS, Arr(GrantsJson(s, r.grants)))
  {
    hide At, Holds, Texts, Doc, FieldName, DigestJson, PreviousJson, GrantsJson;
    var v := RegistryValues(s, r);
    Found(RegistryDoc, v, members, 0); Found(RegistryDoc, v, members, 1); Found(RegistryDoc, v, members, 2);
  }

  /** A registry that is attested. */
  lemma AttestationFields(s: Spelling, r: CapabilityRegistry, effect: AuthorityEffect, members: seq<Member>)
    requires Holds(members, Doc(AttestationDoc, PayloadValues(s, RegistryPayload(r, effect))))
    ensures At(members, REGISTRY_ID, Str(r.registryId)) && At(members, VERSION, Str(r.version))
    ensures At(members, GRANTS, Arr(GrantsJson(s, r.grants)))
    ensures At(members, AUTHORITY_EFFECT, Str(s.authority(effect)))
  {
    hide At, Holds, Texts, Doc, FieldName, DigestJson, PreviousJson, GrantsJson;
    var v := PayloadValues(s, RegistryPayload(r, effect));
    Found(AttestationDoc, v, members, 0); Found(AttestationDoc, v, members, 1); Found(AttestationDoc, v, members, 2);
    Found(AttestationDoc, v, members, 3);
  }

  /** A grant of a registry. */
  lemma GrantFields(s: Spelling, grants: seq<CapabilityGrant>, i: nat, members: seq<Member>)
    requires i < |grants|
    requires Holds(members, Doc(GrantDoc, GrantValues(s, grants[i])))
    ensures At(members, GRANT_ID, Str(grants[i].grantId)) && At(members, CAPABILITY, Str(grants[i].capability))
    ensures At(members, EFFECT, Str(s.effect(grants[i].effect)))
    ensures At(members, ACTIONS, Arr(Texts(grants[i].actions)))
    ensures At(members, RESOURCES, Arr(Texts(grants[i].resources))) && At(members, ISSUED_BY, Str(grants[i].issuedBy))
    ensures At(members, NOTE, Str(grants[i].note))
  {
    hide At, Holds, Texts, Doc, FieldName, DigestJson, PreviousJson, GrantsJson;
    var v := GrantValues(s, grants[i]);
    Found(GrantDoc, v, members, 0); Found(GrantDoc, v, members, 1); Found(GrantDoc, v, members, 2);
    Found(GrantDoc, v, members, 3); Found(GrantDoc, v, members, 4); Found(GrantDoc, v, members, 5);
    Found(GrantDoc, v, members, 6);
  }

  /** What the digest of a registry difference is taken of. */
  lemma DeltaBodyFields(s: Spelling, base: Digest, proposed: Digest, added: seq<string>, removed: seq<string>,
                        changed: seq<string>, members: seq<Member>)
    requires Holds(members, Doc(DeltaHashDoc, DeltaBodyValues(s, DeltaBody(base, proposed, added, removed, changed))))
    ensures At(members, BASELINE, DigestJson(s, base)) && At(members, PROPOSED, DigestJson(s, proposed))
    ensures At(members, ADDED, Arr(Texts(added))) && At(members, REMOVED, Arr(Texts(removed)))
    ensures At(members, CHANGED, Arr(Texts(changed)))
  {
    hide At, Holds, Texts, Doc, FieldName, DigestJson, PreviousJson;
    var v := DeltaBodyValues(s, DeltaBody(base, proposed, added, removed, changed));
    Found(DeltaHashDoc, v, members, 0); Found(DeltaHashDoc, v, members, 1); Found(DeltaHashDoc, v, members, 2);
    Found(DeltaHashDoc, v, members, 3); Found(DeltaHashDoc, v, members, 4);
  }

  /** A registry difference inside a promotion request. */
  lemma DeltaFields(s: Spelling, d: CapabilityDelta, members: seq<Member>)
    requires Holds(members, Doc(DeltaDoc, DeltaValues(s, d)))
    ensures At(members, ADDED, Arr(Texts(d.added))) && At(members, REMOVED, Arr(Texts(d.removed)))
    ensures At(members, CHANGED, Arr(Texts(d.changed))) && At(members, DIGEST, DigestJson(s, d.digest))
    ensures At(members, HAS_AUTHORITY_CHANGE, Bool(|d.added| + |d.removed| + |d.changed| > 0))
    ensures At(members, HAS_POSSIBLE_AUTHORITY_EXPANSION, Bool(|d.added| + |d.changed| > 0))
  {
    hide At, Holds, Texts, Doc, FieldName, DigestJson, PreviousJson;
    var v := DeltaValues(s, d);
    Found(DeltaDoc, v, members, 0); Found(DeltaDoc, v, members, 1); Found(DeltaDoc, v, members, 2);
    Found(DeltaDoc, v, members, 3); Found(DeltaDoc, v, members, 4); Found(DeltaDoc, v, members, 5);
  }

  /** A promotion request. */
  lemma PromotionFields(s: Spelling, p: PromotionRequest, members: seq<Member>)
    requires Holds(members, Doc(PromotionDoc, PromotionValues(s, p)))
    ensures At(members, PROMOTION_ID, Str(p.promotionId)) && At(members, APP_ID, Str(p.appId))
    ensures At(members, BASELINE_REGISTRY_DIGEST, DigestJson(s, p.baselineDigest))
    ensures At(members, PROPOSED_REGISTRY_DIGEST, DigestJson(s, p.proposedDigest))
    ensures At(members, CAPABILITY_DELTA, DeltaJson(s, p.delta))
    ensures At(members, REQUIRED_DOMAINS, Arr(Texts(p.requiredDomains)))
    ensures At(members, REQUESTED_BY, Str(p.requestedBy)) && At(members, TARGET_STAGE, Str(p.targetStage))
    ensures At(members, AUTHORITY_EFFECT, Str("NONE"))
  {
    hide At, Holds, Texts, Doc, FieldName, DigestJson, PreviousJson, DeltaValues;
    var v := PromotionValues(s, p);
    Found(PromotionDoc, v, members, 0); Found(PromotionDoc, v, members, 1); Found(PromotionDoc, v, members, 2);
    Found(PromotionDoc, v, members, 3); Found(PromotionDoc, v, members, 4); Found(PromotionDoc, v, members, 5);
    Found(PromotionDoc, v, members, 6); Found(PromotionDoc, v, members, 7); Found(PromotionDoc, v, members, 8);
  }

  /** Evidence for a promotion. */
  lemma EvidenceFields(s: Spelling, p: Payload, members: seq<Member>)
    requires p.EvidencePayload?
    requires Holds(members, Doc(EvidenceDoc, EvidenceValues(s, p)))
    ensures At(members, PROMOTION_REQUEST_DIGEST, DigestJson(s, p.requestDigest))
    ensures At(members, PROMOTION_ID, Str(p.promotionId)) && At(members, APP_ID, Str(p.appId))
    ensures At(members, PRSP_RECEIPT, SimulationJson(s, p.prsp))
    ensures At(members, AUTHORITY_EFFECT, Str(s.authority(p.evidenceEffect)))
  {
    hide At, Holds, Texts, Doc, FieldName, DigestJson, PreviousJson, SimulationValues;
    var v := EvidenceValues(s, p);
    Found(EvidenceDoc, v, members, 0); Found(EvidenceDoc, v, members, 1); Found(EvidenceDoc, v, members, 2);
    Found(EvidenceDoc, v, members, 3); Found(EvidenceDoc, v, members, 4);
  }

  /** The simulation receipt inside it. */
  lemma SimulationFields(s: Spelling, r: SimulationReceipt, members: seq<Member>)
    requires Holds(members, Doc(SimulationDoc, SimulationValues(s, r)))
    ensures At(members, RECEIPT_VERSION, Str(r.receiptVersion)) && At(members, RUN_ID, Str(r.runId))
    ensures At(members, GENERATED_AT, Str(r.generatedAt)) && At(members, APP_ID, Str(r.appId))
    ensures At(members, APP_STAGE, Str(r.appStage)) && At(members, OVERALL_GATE, Str(r.overallGate))
    ensures At(members, SUMMARY, r.summary) && At(members, RESULTS, Arr(ScenariosJson(s, r.results)))
  {
    hide At, Holds, Texts, Doc, FieldName, DigestJson, PreviousJson, ScenariosJson;
    var v := SimulationValues(s, r);
    Found(SimulationDoc, v, members, 0); Found(SimulationDoc, v, members, 1); Found(SimulationDoc, v, members, 2);
    Found(SimulationDoc, v, members, 3); Found(SimulationDoc, v, members, 4); Found(SimulationDoc, v, members, 5);
    Found(SimulationDoc, v, members, 6); Found(SimulationDoc, v, members, 7);
  }

  /** A result of a simulation. */
  lemma ScenarioFields(s: Spelling, results: seq<ScenarioResult>, i: nat, members: seq<Member>)
    requires i < |results|
    requires Holds(members, Doc(ScenarioDoc, ScenarioValues(results[i])))
    ensures At(members, SCENARIO_ID, Str(results[i].scenarioId)) && At(members, DOMAIN, Str(results[i].domain))
    ensures At(members, STATUS, Str(results[i].status)) && At(members, REASON, Str(results[i].reason))
    ensures At(members, SEVERITY, Str(results[i].severity))
    ensures At(members, EVIDENCE_REQUIRED, Arr(Texts(results[i].evidenceRequired)))
  {
    hide At, Holds, Texts, Doc, FieldName, DigestJson, PreviousJson, ScenariosJson;
    var v := ScenarioValues(results[i]);
    Found(ScenarioDoc, v, members, 0); Found(ScenarioDoc, v, members, 1); Found(ScenarioDoc, v, members, 2);
    Found(ScenarioDoc, v, members, 3); Found(ScenarioDoc, v, members, 4); Found(ScenarioDoc, v, members, 5);
  }

  // ----- The request's dictionary -----------------------------------------------------------------

  /** A request whose payload is in canonical form. */
  function CanonicalRequest(r: RawRequest): ActionRequest {
    ActionRequest(r.requestId, r.capability, r.action, r.resource, Canonical(PyDict(r.payload)), r.actor)
  }

  lemma RequestKeys()
    ensures FieldName(ACTION) == "action" && FieldName(ACTOR) == "actor" && FieldName(CAPABILITY) == "capability"
    ensures FieldName(PAYLOAD) == "payload" && FieldName(REQUEST_ID) == "request_id"
    ensures FieldName(RESOURCE) == "resource"
  {
  }

  lemma StrIsCanonical(t: string)
    ensures Canonical(PyStr(t)) == Str(t)
  {
  }

  lemma RequestMembers(r: RawRequest)
    ensures var v := RequestValues(CanonicalRequest(r));
      && RequestView(r).PyDict?
      && forall m :: m in CanonicalMembers(RequestView(r).entries) <==> m in Doc(RequestDoc, v).members
  {
    var q := CanonicalRequest(r);
    RequestKeys();
    StrIsCanonical(r.requestId);
    StrIsCanonical(r.capability);
    StrIsCanonical(r.action);
    StrIsCanonical(r.resource);
    StrIsCanonical(r.actor);
    hide FieldName, Canonical;
    var members, zip := CanonicalMembers(RequestView(r).entries), Zip(Fields(RequestDoc), RequestValues(q));
    assert members[0] == zip[4] && members[1] == zip[2] && members[2] == zip[0];
    assert members[3] == zip[5] && members[4] == zip[3] && members[5] == zip[1];
    assert members == [members[0], members[1], members[2], members[3], members[4], members[5]];
    assert zip == [zip[0], zip[1], zip[2], zip[3], zip[4], zip[5]];
  }

  /** The dictionary that the source hashes, with its real keys, is the request's document. */
  lemma RequestViewIsHashed(s: Spelling, r: RawRequest)
    requires WellFormed(PyDict(r.payload))
    ensures Canonical(RequestView(r)) == HashedJson(s, RequestBody(CanonicalRequest(r)))
  {
    RequestViewKeys(r);
    RequestMembers(r);
    hide RequestView, CanonicalMembers, Doc, RequestValues;
    DocIsCanonical(RequestDoc, RequestValues(CanonicalRequest(r)), RequestView(r).entries);
  }
}
