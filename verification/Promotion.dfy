/** Promotion of a registry on simulation evidence: the recomputed gate and the promotion gate. */
module Promotion {
  import opened Envelopes
  import opened Gate
  import opened JsonValues
  import opened KeyOrder
  import opened Records
  import opened Registries

  datatype Status = Passed | NeedsReview | Held | Rejected | Skipped

  /** `status.upper()` as one of the known statuses. */
  type StatusReader = string -> Option<Status>

  // ----- Requests -------------------------------------------------------------------------------

  /** `PromotionRequest`, whose construction sorts the required domains and drops repetitions. */
  function BuildPromotion(promotionId: string, baseline: CapabilityRegistry, proposed: CapabilityRegistry,
                          requestedBy: string, appId: string, requiredDomains: seq<string>, targetStage: string)
    : Option<PromotionRequest>
  {
    if Blank(promotionId) || Blank(appId) || requiredDomains == [] then None
    else
      Some(PromotionRequest(promotionId, appId, RegistryDigest(baseline), RegistryDigest(proposed),
                            DiffRegistries(baseline, proposed), SortedSet(requiredDomains), requestedBy, targetStage))
  }

  function PromotionDigest(request: PromotionRequest): Digest {
    Sha256(PromotionBody(request))
  }

  // ----- Simulation results ---------------------------------------------------------------------

  datatype Scenario = Scenario(domain: string, status: Status)

  /** A simulation receipt as it is read back, reduced to what the gate looks at. */
  datatype Simulation = Simulation(runId: string, appId: string, gate: Status, scenarios: seq<Scenario>)

  function ReadScenarios(read: StatusReader, results: seq<ScenarioResult>): Option<seq<Scenario>> {
    if |results| == 0 then Some([])
    else
      var status, rest := read(results[0].status), ReadScenarios(read, results[1..]);
      if status.None? || rest.None? then None
      else Some([Scenario(results[0].domain, status.value)] + rest.value)
  }

  /** `PRSPSimulationReceipt.from_dict`: the declared gate must be one of the four, every status one of the five. */
  function ReadSimulation(read: StatusReader, receipt: SimulationReceipt): Option<Simulation> {
    var gate, scenarios := read(receipt.overallGate), ReadScenarios(read, receipt.results);
    if gate.None? || gate.value == Skipped || scenarios.None? then None
    else Some(Simulation(receipt.runId, receipt.appId, gate.value, scenarios.value))
  }

  predicate Active(scenario: Scenario) {
    scenario.status != Skipped
  }

  predicate Shows(scenarios: seq<Scenario>, status: Status) {
    exists i :: 0 <= i < |scenarios| && scenarios[i].status == status
  }

  predicate AnyActive(scenarios: seq<Scenario>) {
    exists i :: 0 <= i < |scenarios| && Active(scenarios[i])
  }

  function RecomputeGate(scenarios: seq<Scenario>): Status {
    if !AnyActive(scenarios) then Held
    else if Shows(scenarios, Rejected) then Rejected
    else if Shows(scenarios, Held) then Held
    else if Shows(scenarios, NeedsReview) then NeedsReview
    else Passed
  }

  function Rank(status: Status): nat {
    match status
    case Passed => 0
    case NeedsReview => 1
    case Held => 2
    case Rejected => 3
    case Skipped => 4
  }

  /** The recomputed gate is the most severe status of an active scenario, HOLD when none is active. */
  lemma GateIsMostSevere(scenarios: seq<Scenario>, gate: Status)
    ensures RecomputeGate(scenarios) == gate <==>
      if AnyActive(scenarios) then
        && gate != Skipped && Shows(scenarios, gate)
        && forall i :: 0 <= i < |scenarios| && Active(scenarios[i]) ==> Rank(scenarios[i].status) <= Rank(gate)
      else gate == Held
  {
    var g := RecomputeGate(scenarios);
    if AnyActive(scenarios) {
      var i :| 0 <= i < |scenarios| && Active(scenarios[i]);
      assert Shows(scenarios, scenarios[i].status);
      var k :| 0 <= k < |scenarios| && scenarios[k].status == g;
      assert forall j :: 0 <= j < |scenarios| ==> Shows(scenarios, scenarios[j].status);
      assert forall j :: 0 <= j < |scenarios| && Active(scenarios[j]) ==> Rank(scenarios[j].status) <= Rank(g);
      if gate != Skipped && Shows(scenarios, gate) {
        var j :| 0 <= j < |scenarios| && scenarios[j].status == gate;
        assert Active(scenarios[j]) && Active(scenarios[k]);
      }
    }
  }

  /** Neither order nor repetition of the results matters. */
  lemma GateIgnoresOrder(scenarios: seq<Scenario>, scenarios': seq<Scenario>)
    requires forall s :: s in scenarios <==> s in scenarios'
    ensures RecomputeGate(scenarios) == RecomputeGate(scenarios')
  {
    forall status
      ensures Shows(scenarios, status) ==> Shows(scenarios', status)
      ensures Shows(scenarios', status) ==> Shows(scenarios, status)
    {
      ShowsMember(scenarios, scenarios', status);
      ShowsMember(scenarios', scenarios, status);
    }
    ActiveShows(scenarios);
    ActiveShows(scenarios');
  }

  /** Once some scenario is active, further results never lower the gate. */
  lemma MoreResultsNeverLower(scenarios: seq<Scenario>, scenarios': seq<Scenario>)
    requires AnyActive(scenarios) && forall s :: s in scenarios ==> s in scenarios'
    ensures Rank(RecomputeGate(scenarios)) <= Rank(RecomputeGate(scenarios'))
  {
    forall status
      ensures Shows(scenarios, status) ==> Shows(scenarios', status)
    {
      ShowsMember(scenarios, scenarios', status);
    }
    ActiveShows(scenarios);
    ActiveShows(scenarios');
  }

  lemma ShowsMember(scenarios: seq<Scenario>, scenarios': seq<Scenario>, status: Status)
    requires forall s :: s in scenarios ==> s in scenarios'
    ensures Shows(scenarios, status) ==> Shows(scenarios', status)
  {
    if Shows(scenarios, status) {
      var i :| 0 <= i < |scenarios| && scenarios[i].status == status;
      assert scenarios[i] in scenarios';
      var j :| 0 <= j < |scenarios'| && scenarios'[j] == scenarios[i];
      assert scenarios'[j].status == status;
    }
  }

  lemma ActiveShows(scenarios: seq<Scenario>)
    ensures AnyActive(scenarios) <==> exists status :: status != Skipped && Shows(scenarios, status)
  {
    if AnyActive(scenarios) {
      var i :| 0 <= i < |scenarios| && Active(scenarios[i]);
      assert Shows(scenarios, scenarios[i].status);
    }
    if exists status :: status != Skipped && Shows(scenarios, status) {
      var status :| status != Skipped && Shows(scenarios, status);
      var i :| 0 <= i < |scenarios| && scenarios[i].status == status;
      assert Active(scenarios[i]);
    }
  }

  // ----- The promotion gate ---------------------------------------------------------------------

  /** What the gate takes out of a payload: each field, or None when the payload does not have it or it is of another
      type. */
  datatype Evidence = Evidence(
    effect: Option<AuthorityEffect>, requestDigest: Option<Digest>, promotionId: Option<string>, appId: Option<string>,
    receipt: Option<SimulationReceipt>)

  /** How a mapping with other fields than the signers' payloads reads as evidence. */
  type EvidenceReader = Json -> Evidence

  function EvidenceIn(readOther: EvidenceReader, payload: Payload): Evidence {
    match payload
    case EvidencePayload(digest, promotionId, appId, prsp, effect) =>
      Evidence(Some(effect), Some(digest), Some(promotionId), Some(appId), Some(prsp))
    case LeasePayload(_, effect) => Evidence(Some(effect), None, None, None, None)
    case PermitPayload(permit) => Evidence(Some(permit.authorityEffect), None, None, None, None)
    case ResultPayload(result) => Evidence(Some(result.authorityEffect), None, None, None, None)
    case ReceiptPayload(_) => Evidence(None, None, None, None, None)
    case RegistryPayload(_, effect) => Evidence(Some(effect), None, None, None, None)
    case OtherPayload(json) => readOther(json)
  }

  datatype PromotionReason =
    | InvalidEvidence(failure: EnvelopeFailure) | AuthorityAttempted | DigestMismatch | PromotionIdMismatch
    | AppIdMismatch | InvalidReceipt | ReceiptAppIdMismatch | GateInconsistent(declared: Status, computed: Status)
    | DomainsMissing | GateIs(computed: Status) | EvidenceSatisfies

  datatype PromotionDecision = PromotionDecision(
    verdict: Status, reason: PromotionReason, promotionId: string, runId: Option<string>, missing: seq<string>,
    observed: Option<Status>)

  function EvidencePolicy(trust: TrustStore): Policy {
    Policy(trust, Some(PromotionIssuer), Some(EvidenceType))
  }

  function ActiveDomains(scenarios: seq<Scenario>): (r: seq<string>)
    ensures forall d :: d in r <==> exists i :: 0 <= i < |scenarios| && Active(scenarios[i]) && scenarios[i].domain == d
  {
    if |scenarios| == 0 then []
    else
      var rest := ActiveDomains(scenarios[1..]);
      assert scenarios == [scenarios[0]] + scenarios[1..];
      (if Active(scenarios[0]) then [scenarios[0].domain] else []) + rest
  }

  function Without(texts: seq<string>, covered: seq<string>): (r: seq<string>)
    ensures forall t :: t in r <==> t in texts && t !in covered
  {
    if |texts| == 0 then [] else (if texts[0] in covered then [] else [texts[0]]) + Without(texts[1..], covered)
  }

  /** `sorted(set(required) - covered)` */
  function MissingDomains(required: seq<string>, scenarios: seq<Scenario>): seq<string> {
    SortedSet(Without(required, ActiveDomains(scenarios)))
  }

  function Reject(request: PromotionRequest, reason: PromotionReason, runId: Option<string>): PromotionDecision {
    PromotionDecision(Rejected, reason, request.promotionId, runId, [], None)
  }

  function EvaluatePromotion(book: Book, trust: TrustStore, read: StatusReader, readOther: EvidenceReader,
                             request: PromotionRequest, envelope: SignedEnvelope): PromotionDecision
  {
    var verification := VerifyEnvelope(book, envelope, EvidencePolicy(trust));
    if verification.reason.Some? then Reject(request, InvalidEvidence(verification.reason.value), None)
    else
      var evidence := EvidenceIn(readOther, envelope.view.payload);
      if evidence.effect != Some(EvidenceOnly) then Reject(request, AuthorityAttempted, None)
      else if evidence.requestDigest != Some(PromotionDigest(request)) then Reject(request, DigestMismatch, None)
      else if evidence.promotionId != Some(request.promotionId) then Reject(request, PromotionIdMismatch, None)
      else if evidence.appId != Some(request.appId) then Reject(request, AppIdMismatch, None)
      else
        match ReadEvidence(read, evidence)
        case None => Reject(request, InvalidReceipt, None)
        case Some(simulation) => Judge(request, simulation)
  }

  function ReadEvidence(read: StatusReader, evidence: Evidence): Option<Simulation> {
    if evidence.receipt.None? then None else ReadSimulation(read, evidence.receipt.value)
  }

  /** The decision on evidence that is about this request. */
  function Judge(request: PromotionRequest, simulation: Simulation): PromotionDecision {
    var run := Some(simulation.runId);
    var computed := RecomputeGate(simulation.scenarios);
    var missing := MissingDomains(request.requiredDomains, simulation.scenarios);
    if simulation.appId != request.appId then Reject(request, ReceiptAppIdMismatch, run)
    else if computed != simulation.gate then
      Reject(request, GateInconsistent(simulation.gate, computed), run).(observed := Some(computed))
    else if missing != [] then
      PromotionDecision(Held, DomainsMissing, request.promotionId, run, missing, Some(computed))
    else if computed != Passed then
      PromotionDecision(computed, GateIs(computed), request.promotionId, run, [], Some(computed))
    else PromotionDecision(Passed, EvidenceSatisfies, request.promotionId, run, [], Some(computed))
  }

  predicate Eligible(decision: PromotionDecision) {
    decision.verdict == Passed
  }

  /** The envelope carries readable evidence about exactly this request, from a trusted issuer. */
  ghost predicate AboutRequest(book: Book, trust: TrustStore, read: StatusReader, readOther: EvidenceReader,
                               request: PromotionRequest, envelope: SignedEnvelope, simulation: Simulation)
  {
    && Accepted(book, envelope, EvidencePolicy(trust))
    && var evidence := EvidenceIn(readOther, envelope.view.payload);
    && evidence.effect == Some(EvidenceOnly)
    && evidence.requestDigest == Some(PromotionDigest(request))
    && evidence.promotionId == Some(request.promotionId)
    && evidence.appId == Some(request.appId) && simulation.appId == request.appId
    && ReadEvidence(read, evidence) == Some(simulation)
    && simulation.gate == RecomputeGate(simulation.scenarios)
  }

  /** Every required domain has a result that was not skipped. */
  ghost predicate Covered(request: PromotionRequest, scenarios: seq<Scenario>) {
    forall d :: d in request.requiredDomains ==>
      exists i :: 0 <= i < |scenarios| && Active(scenarios[i]) && scenarios[i].domain == d
  }

  lemma MissingIff(request: PromotionRequest, scenarios: seq<Scenario>)
    ensures MissingDomains(request.requiredDomains, scenarios) == [] <==> Covered(request, scenarios)
    ensures forall d :: d in MissingDomains(request.requiredDomains, scenarios) <==>
      d in request.requiredDomains && d !in ActiveDomains(scenarios)
  {
    var without := Without(request.requiredDomains, ActiveDomains(scenarios));
    SortedSetIs(without);
    NoneMeansEmpty(SortedSet(without));
    NoneMeansEmpty(without);
  }

  /** The verdict in full.  A missing domain holds the promotion even when a scenario was rejected. */
  lemma VerdictIff(book: Book, trust: TrustStore, read: StatusReader, readOther: EvidenceReader,
                   request: PromotionRequest, envelope: SignedEnvelope)
    ensures var verdict := EvaluatePromotion(book, trust, read, readOther, request, envelope).verdict;
      if exists s :: AboutRequest(book, trust, read, readOther, request, envelope, s) then
        var s :| AboutRequest(book, trust, read, readOther, request, envelope, s);
        verdict == if Covered(request, s.scenarios) then RecomputeGate(s.scenarios) else Held
      else verdict == Rejected
  {
    hide RecomputeGate, MissingDomains, ReadEvidence, Covered, PromotionDigest, EvidenceIn;
    VerifiedIffSigned(book, envelope, EvidencePolicy(trust));
    var simulation := ReadEvidence(read, EvidenceIn(readOther, envelope.view.payload));
    if simulation.Some? {
      MissingIff(request, simulation.value.scenarios);
      assert forall s :: AboutRequest(book, trust, read, readOther, request, envelope, s) ==> s == simulation.value;
      assert AboutRequest(book, trust, read, readOther, request, envelope, simulation.value) ||
        EvaluatePromotion(book, trust, read, readOther, request, envelope).verdict == Rejected;
    }
  }

  /** A promotion is eligible exactly when a trusted issuer signed evidence about this very request, whose declared gate
      is the recomputed one, which covers the required domains, and in which every result that counts passed. */
  lemma EligibleIff(book: Book, trust: TrustStore, read: StatusReader, readOther: EvidenceReader,
                    request: PromotionRequest, envelope: SignedEnvelope)
    ensures Eligible(EvaluatePromotion(book, trust, read, readOther, request, envelope)) <==>
      exists s ::
        && AboutRequest(book, trust, read, readOther, request, envelope, s)
        && Covered(request, s.scenarios) && AnyActive(s.scenarios)
        && forall i :: 0 <= i < |s.scenarios| && Active(s.scenarios[i]) ==> s.scenarios[i].status == Passed
  {
    hide EvaluatePromotion, Covered, AboutRequest, RecomputeGate;
    VerdictIff(book, trust, read, readOther, request, envelope);
    forall s | AboutRequest(book, trust, read, readOther, request, envelope, s)
      ensures forall s' :: AboutRequest(book, trust, read, readOther, request, envelope, s') ==> s' == s
      ensures RecomputeGate(s.scenarios) == Passed <==>
        && AnyActive(s.scenarios)
        && forall i :: 0 <= i < |s.scenarios| && Active(s.scenarios[i]) ==> s.scenarios[i].status == Passed
    {
      OneSimulation(book, trust, read, readOther, request, envelope, s);
      PassedIff(s.scenarios);
    }
  }

  lemma OneSimulation(book: Book, trust: TrustStore, read: StatusReader, readOther: EvidenceReader,
                      request: PromotionRequest, envelope: SignedEnvelope, s: Simulation)
    requires AboutRequest(book, trust, read, readOther, request, envelope, s)
    ensures forall s' :: AboutRequest(book, trust, read, readOther, request, envelope, s') ==> s' == s
  {
  }

  lemma PassedIff(scenarios: seq<Scenario>)
    ensures RecomputeGate(scenarios) == Passed <==>
      && AnyActive(scenarios)
      && forall i :: 0 <= i < |scenarios| && Active(scenarios[i]) ==> scenarios[i].status == Passed
  {
    hide RecomputeGate;
    GateIsMostSevere(scenarios, Passed);
    if AnyActive(scenarios) {
      var i :| 0 <= i < |scenarios| && Active(scenarios[i]);
    }
  }

  /** One envelope makes one promotion request eligible. */
  lemma OneEnvelopeOnePromotion(book: Book, trust: TrustStore, read: StatusReader, readOther: EvidenceReader,
                                request: PromotionRequest, request': PromotionRequest, envelope: SignedEnvelope)
    requires Eligible(EvaluatePromotion(book, trust, read, readOther, request, envelope))
    requires Eligible(EvaluatePromotion(book, trust, read, readOther, request', envelope))
    ensures request == request'
  {
    hide EvaluatePromotion, Covered;
    EligibleIff(book, trust, read, readOther, request, envelope);
    EligibleIff(book, trust, read, readOther, request', envelope);
  }

  /** Evidence for one proposal promotes no registry that decides any request differently. */
  lemma EvidenceBindsVerdicts(
      glob: Glob, action: ActionRequest, book: Book, trust: TrustStore, read: StatusReader, readOther: EvidenceReader,
      envelope: SignedEnvelope, request: PromotionRequest, request': PromotionRequest,
      proposed: CapabilityRegistry, proposed': CapabilityRegistry)
    requires request.proposedDigest == RegistryDigest(proposed)
    requires request'.proposedDigest == RegistryDigest(proposed')
    requires Eligible(EvaluatePromotion(book, trust, read, readOther, request, envelope))
    requires Eligible(EvaluatePromotion(book, trust, read, readOther, request', envelope))
    ensures Evaluate(glob, action, proposed).verdict == Evaluate(glob, action, proposed').verdict
  {
    hide EvaluatePromotion, Evaluate, Snapshot;
    OneEnvelopeOnePromotion(book, trust, read, readOther, request, request', envelope);
    SameSnapshotSameVerdict(glob, action, proposed, proposed');
  }

  /** A request that was built carries what it was given, names both registries and their difference, and asks for
      exactly the domains given. */
  lemma BuiltPromotion(promotionId: string, baseline: CapabilityRegistry, proposed: CapabilityRegistry,
                       requestedBy: string, appId: string, requiredDomains: seq<string>, targetStage: string)
    ensures
      var built := BuildPromotion(promotionId, baseline, proposed, requestedBy, appId, requiredDomains, targetStage);
      && (built.Some? ==>
            && built.value.promotionId == promotionId && built.value.appId == appId
            && built.value.requestedBy == requestedBy && built.value.targetStage == targetStage
            && built.value.baselineDigest == Sha256(RegistryBody(Snapshot(baseline)))
            && built.value.proposedDigest == Sha256(RegistryBody(Snapshot(proposed))))
      && (built.None? <==> Blank(promotionId) || Blank(appId) || requiredDomains == [])
      && (built.Some? ==>
            && built.value.proposedDigest == RegistryDigest(proposed)
            && built.value.delta == DiffRegistries(baseline, proposed)
            && (forall d :: d in built.value.requiredDomains <==> d in requiredDomains)
            && Sorted(Itself, built.value.requiredDomains) && DistinctKeys(Itself, built.value.requiredDomains))
  {
    hide SortedSet, Blank, Snapshot;
    SortedSetIs(requiredDomains);
  }

  /** Two proposals that were built and are promoted on one envelope decide every request alike. */
  lemma BuiltPromotionsAgree(
      glob: Glob, action: ActionRequest, book: Book, trust: TrustStore, read: StatusReader, readOther: EvidenceReader,
      envelope: SignedEnvelope, id: string, id': string, baseline: CapabilityRegistry, baseline': CapabilityRegistry,
      proposed: CapabilityRegistry, proposed': CapabilityRegistry, actor: string, actor': string, app: string,
      app': string, domains: seq<string>, domains': seq<string>, stage: string, stage': string)
    requires var built := BuildPromotion(id, baseline, proposed, actor, app, domains, stage);
      built.Some? && Eligible(EvaluatePromotion(book, trust, read, readOther, built.value, envelope))
    requires var built' := BuildPromotion(id', baseline', proposed', actor', app', domains', stage');
      built'.Some? && Eligible(EvaluatePromotion(book, trust, read, readOther, built'.value, envelope))
    ensures Evaluate(glob, action, proposed).verdict == Evaluate(glob, action, proposed').verdict
  {
    hide EvaluatePromotion, Evaluate, BuildPromotion, RegistryDigest;
    BuiltPromotion(id, baseline, proposed, actor, app, domains, stage);
    BuiltPromotion(id', baseline', proposed', actor', app', domains', stage');
    EvidenceBindsVerdicts(glob, action, book, trust, read, readOther, envelope,
                          BuildPromotion(id, baseline, proposed, actor, app, domains, stage).value,
                          BuildPromotion(id', baseline', proposed', actor', app', domains', stage').value,
                          proposed, proposed');
  }
}
