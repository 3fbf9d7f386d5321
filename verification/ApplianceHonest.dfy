/** The approved path through the appliance, with a pause between the gate's two clock readings. */
module ApplianceHonest {
  import opened Appliance
  import opened ApplianceRun
  import opened ApplianceTheorems
  import opened Envelopes
  import opened Gate
  import opened Ledgers
  import opened Records
  import opened ReviewLeases
  import opened SignedReview

  /** A reviewed request: the reviewer approves it for `ttl` seconds at `start`; the gate consumes the lease at once and
      stamps the permit `pause` later. */
  datatype Scenario = Scenario(
    request: ActionRequest, approvedBy: string, ttl: int, leaseId: string, text: string, start: Time, pause: Time,
    observed: Observation)

  /** The deployment works for the scenario: its signers are trusted and its times are in range. */
  ghost predicate Works(c: Config, registry: CapabilityRegistry, s: Scenario) {
    && ValidRequest(s.request)
    && Evaluate(c.glob, s.request, registry).verdict == REVIEW
    && Trusts(LeasePolicy(c.gateTrust), c.reviewSigner) && Trusts(PermitPolicy(c.executorTrust), c.gateSigner)
    && !Blank(s.approvedBy) && !Blank(s.leaseId) && s.leaseId != "" && !Blank(c.reviewSigner.subject)
    && 1 <= s.ttl <= MAX_LEASE_TTL && 1 <= c.permitTtl <= MAX_PERMIT_TTL
  }

  function LeaseOf(c: Config, registry: CapabilityRegistry, s: Scenario): ReviewLease {
    ReviewLease(s.leaseId, RequestDigest(s.request), s.request.capability, s.request.action, s.request.resource,
                Evaluate(c.glob, s.request, registry).matchedGrantIds, c.reviewSigner.subject, s.start,
                s.start + (if s.ttl < 0 then 0 else s.ttl) * SECOND, 1, Human)
  }

  function LeaseEnvelope(c: Config, registry: CapabilityRegistry, s: Scenario): SignedEnvelope {
    SignPayload(ReviewLeaseType, ReviewLeasePayload(LeaseOf(c, registry, s)), c.reviewSigner, s.start, None, s.text)
  }

  function DecisionOf(c: Config, registry: CapabilityRegistry, s: Scenario): GateDecision {
    ReleasedDecision(Evaluate(c.glob, s.request, registry), s.leaseId)
  }

  function PermitOf(c: Config, registry: CapabilityRegistry, s: Scenario): Permit
    requires 1 <= c.permitTtl <= MAX_PERMIT_TTL
  {
    NewPermit(s.request, DecisionOf(c, registry, s), registry, c.permitTtl, s.start + s.pause).value
  }

  function PermitEnvelope(c: Config, registry: CapabilityRegistry, s: Scenario): SignedEnvelope
    requires 1 <= c.permitTtl <= MAX_PERMIT_TTL
  {
    SignPermit(PermitOf(c, registry, s), c.gateSigner, s.start + s.pause, s.text)
  }

  function ApprovalStep(c: Config, registry: CapabilityRegistry, s: Scenario): Step {
    Approve(s.request, Evaluate(c.glob, s.request, registry), true, s.approvedBy, s.ttl, s.leaseId, s.start, s.text)
  }

  function Steps(c: Config, registry: CapabilityRegistry, s: Scenario): seq<Step>
    requires 1 <= c.permitTtl <= MAX_PERMIT_TTL
  {
    [ApprovalStep(c, registry, s),
     GateDecides(s.request, Some(LeaseEnvelope(c, registry, s)), s.start),
     GateSigns(s.start + s.pause, s.text),
     ExecutorAccepts(s.request, PermitEnvelope(c, registry, s), s.start + s.pause),
     ExecutorDispatches(s.observed)]
  }

  lemma Approves(c: Config, registry: CapabilityRegistry, s: Scenario)
    requires Works(c, registry, s)
    ensures var w := Next(c, Start(registry), ApprovalStep(c, registry, s));
      && SignatureOf(LeaseEnvelope(c, registry, s)) in w.book
      && w.registry == registry && w.reviewRows == map[] && w.permitRows == map[] && w.gate.GateIdle?
      && w.executor.ExecutorIdle? && w.dispatches == [] && w.permits == []
  {
    hide Evaluate;
    var base := Evaluate(c.glob, s.request, registry);
    assert NewLease("signed-lease-", s.request, base, c.reviewSigner.subject, s.ttl, s.leaseId, s.start)
      == Ok(LeaseOf(c, registry, s));
  }

  lemma LeaseReleases(c: Config, w: World, s: Scenario)
    requires Works(c, w.registry, s) && SignatureOf(LeaseEnvelope(c, w.registry, s)) in w.book && w.reviewRows == map[]
    ensures SignedReply(w.book, c.gateTrust, w.reviewRows, LeaseEnvelope(c, w.registry, s), s.request,
                        Evaluate(c.glob, s.request, w.registry), s.start) == Released(s.leaseId)
  {
    hide Evaluate;
    var envelope := LeaseEnvelope(c, w.registry, s);
    var base := Evaluate(c.glob, s.request, w.registry);
    SignedReleaseIff(w.book, c.gateTrust, w.reviewRows, envelope, s.request, base, s.start);
  }

  lemma GateReleases(c: Config, w: World, s: Scenario)
    requires Works(c, w.registry, s) && SignatureOf(LeaseEnvelope(c, w.registry, s)) in w.book
    requires w.reviewRows == map[] && w.gate.GateIdle?
    ensures var base := Evaluate(c.glob, s.request, w.registry);
      var w' := GateDecide(c, w, s.request, Some(LeaseEnvelope(c, w.registry, s)), s.start);
      && w'.gate == Deciding(s.request, base, DecisionOf(c, w.registry, s),
                             Some(Redemption(s.request, base, LeaseOf(c, w.registry, s), s.start)))
      && w'.registry == w.registry && w'.permitRows == w.permitRows && w'.executor == w.executor
      && w'.dispatches == w.dispatches && w'.permits == w.permits
  {
    LeaseReleases(c, w, s);
    hide Evaluate, SignedReply, SignedRows;
  }

  lemma ExecutorReleases(c: Config, w: World, s: Scenario)
    requires Works(c, w.registry, s) && SignatureOf(PermitEnvelope(c, w.registry, s)) in w.book
    requires w.permitRows == map[]
    ensures PermitGranted(w.book, c.executorTrust, w.permitRows, PermitEnvelope(c, w.registry, s), s.request,
                          s.start + s.pause)
  {
    hide Evaluate;
    PermitReleasesIff(w.book, c.executorTrust, PermitEnvelope(c, w.registry, s), s.request, s.start + s.pause);
  }

  lemma RunsOn(c: Config, registry: CapabilityRegistry, steps: seq<Step>, step: Step)
    ensures Run(c, registry, steps + [step]) == Next(c, Run(c, registry, steps), step)
  {
    hide Next;
    assert (steps + [step])[..|steps|] == steps;
  }

  lemma FiveSteps(c: Config, registry: CapabilityRegistry, a: Step, b: Step, d: Step, e: Step, f: Step)
    ensures Run(c, registry, [a, b, d, e, f])
      == Next(c, Next(c, Next(c, Next(c, Next(c, Start(registry), a), b), d), e), f)
  {
    hide Next;
    RunsOn(c, registry, [], a);
    RunsOn(c, registry, [a], b);
    RunsOn(c, registry, [a, b], d);
    RunsOn(c, registry, [a, b, d], e);
    RunsOn(c, registry, [a, b, d, e], f);
    assert [] + [a] == [a] && [a] + [b] == [a, b] && [a, b] + [d] == [a, b, d];
    assert [a, b, d] + [e] == [a, b, d, e] && [a, b, d, e] + [f] == [a, b, d, e, f];
  }

  lemma Dispatches(c: Config, registry: CapabilityRegistry, w: World, s: Scenario)
    requires Works(c, registry, s) && w.registry == registry && SignatureOf(PermitEnvelope(c, registry, s)) in w.book
    requires w.permitRows == map[] && w.executor.ExecutorIdle? && w.dispatches == []
    ensures var permit := PermitEnvelope(c, registry, s);
      var w' := ExecutorDispatch(ExecutorAccept(c, w, s.request, permit, s.start + s.pause), s.observed);
      && w'.dispatches
         == [Dispatch(s.request, permit, PermitOf(c, registry, s).permitId, s.start + s.pause, s.observed)]
      && w'.executor == Executed(w'.dispatches[0]) && w'.permits == w.permits
  {
    ExecutorReleases(c, w, s);
    hide Evaluate, PermitGranted, RowsAfterPermit, ReleasedDecision;
  }

  /** The approved request is dispatched, once, and accepted as late as the gate's pause lets it. */
  lemma ApprovedIsDispatched(c: Config, registry: CapabilityRegistry, s: Scenario)
    requires Works(c, registry, s)
    ensures var w := Run(c, registry, Steps(c, registry, s));
      && |w.dispatches| == 1 && |w.permits| == 1
      && w.dispatches[0] == Dispatch(s.request, PermitEnvelope(c, registry, s), PermitOf(c, registry, s).permitId,
                                     s.start + s.pause, s.observed)
      && Behind(w, w.permits[0], w.dispatches[0])
      && w.permits[0].redemption == Some(Redemption(s.request, Evaluate(c.glob, s.request, registry),
                                                    LeaseOf(c, registry, s), s.start))
  {
    hide Evaluate, ReleasedDecision, ApproveStep, GateDecide, GateSign, ExecutorAccept, ExecutorDispatch, Run,
         LeaseEnvelope, PermitEnvelope;
    var steps := Steps(c, registry, s);
    FiveSteps(c, registry, steps[0], steps[1], steps[2], steps[3], steps[4]);
    var w1 := Next(c, Start(registry), steps[0]);
    Approves(c, registry, s);
    var w2 := Next(c, w1, steps[1]);
    GateReleases(c, w1, s);
    var w3 := Next(c, w2, steps[2]);
    Stamped(c, registry, w2, s);
    Dispatches(c, registry, w3, s);
    EnvelopeView(c, registry, s);
  }

  lemma EnvelopeView(c: Config, registry: CapabilityRegistry, s: Scenario)
    requires 1 <= c.permitTtl <= MAX_PERMIT_TTL
    ensures PermitEnvelope(c, registry, s).view.payload == PermitPayload(PermitOf(c, registry, s))
  {
    hide Evaluate;
  }

  lemma Stamped(c: Config, registry: CapabilityRegistry, w: World, s: Scenario)
    requires 1 <= c.permitTtl <= MAX_PERMIT_TTL && w.registry == registry && w.permits == []
    requires w.gate.Deciding? && w.gate.request == s.request && w.gate.decision == DecisionOf(c, registry, s)
    ensures var w' := GateSign(c, w, s.start + s.pause, s.text);
      var envelope := PermitEnvelope(c, registry, s);
      && SignatureOf(envelope) in w'.book && w'.registry == registry
      && w'.permitRows == w.permitRows && w'.executor == w.executor && w'.dispatches == w.dispatches
      && w'.permits == [PermitIssue(s.request, registry, w.gate.base, w.gate.decision, w.gate.redemption,
                                    PermitOf(c, registry, s), envelope.view)]
  {
    hide Evaluate;
  }

  /** The plain bound of lease ttl + permit ttl on the time from a lease to its dispatch does not hold in every run: it
      is missed when the gate pauses that long between its two clock readings. */
  lemma PlainTimeBoundCanFail(c: Config, registry: CapabilityRegistry, s: Scenario)
    requires Works(c, registry, s) && s.pause >= (s.ttl + c.permitTtl) * SECOND
    ensures var w := Run(c, registry, Steps(c, registry, s));
      && |w.dispatches| == 1 && |w.permits| == 1 && Behind(w, w.permits[0], w.dispatches[0])
      && w.permits[0].redemption.Some?
      && !InPlainBound(c, w.permits[0].redemption.value.lease, w.dispatches[0].acceptedAt)
  {
    hide Run, Evaluate;
    ApprovedIsDispatched(c, registry, s);
  }

  // ----- The handlers are the steps -------------------------------------------------------------

  /** The review signer's step is its handler: an approved lease is signed and on record, and nothing else changes. */
  lemma ApproveStepIsTheHandler(c: Config, w: World, request: ActionRequest, claimed: GateDecision, approved: bool,
                                approvedBy: string, ttl: int, leaseId: string, at: Time, text: string)
    ensures var made := ApproveReview(request, claimed, approved, approvedBy, ttl, leaseId, c.reviewSigner, at, text);
      var w' := Next(c, w, Approve(request, claimed, approved, approvedBy, ttl, leaseId, at, text));
      match made
      case Error(_) => w' == w
      case Ok(envelope) =>
        && envelope.view.payload.LeasePayload?
        && w' == w.(
             book := w.book + {SignatureOf(envelope)},
             leases := w.leases
               + {LeaseIssue(request, claimed, approvedBy, ttl, envelope.view.payload.lease, envelope.view)})
  {
    hide NewLease;
  }

  /** What nobody can prevent: outsiders sign anything with their own keys, a known signature gets another text, and
      every service restarts at any time with what it had stored. */
  lemma EnvironmentIsFree(c: Config, w: World, signature: Signature, text: string, registry: CapabilityRegistry)
    ensures signature.keyId !in c.serviceKeys ==>
      Next(c, w, OutsiderSigns(signature)) == w.(book := w.book + {signature})
    ensures signature in w.book ==>
      Next(c, w, AnotherSignatureText(signature, text))
      == w.(book := w.book + {Signature(signature.keyId, signature.view, text)})
    ensures Next(c, w, GateRestarts(registry)) == w.(gate := GateIdle, registry := registry)
    ensures Next(c, w, ExecutorRestarts) == w.(executor := ExecutorIdle)
    ensures Next(c, w, VerifierRestarts) == w.(verifier := VerifierIdle)
  {
  }

  /** What the first gate step leaves behind: a decided request, and the lease consumed for it, if any. */
  lemma GateDecided(c: Config, w: World, request: ActionRequest, lease: Option<SignedEnvelope>, at: Time)
    requires w.gate.GateIdle? && ValidRequest(request)
    ensures var base := Evaluate(c.glob, request, w.registry);
      var decision := Decide(base, TryLease(w.book, c.gateTrust, w.reviewRows, request, base, lease, at));
      var w' := GateDecide(c, w, request, lease, at);
      var consumes := base.verdict != ALLOW && decision.verdict == ALLOW;
      && w'.reviewRows == RowsAfterTry(w.book, c.gateTrust, w.reviewRows, request, base, lease, at)
      && w'.permits == w.permits && w'.book == w.book && w'.registry == w.registry
      && (consumes ==> lease.Some? && lease.value.view.payload.LeasePayload?)
      && w'.redemptions == (
           if consumes then w.redemptions + [Redemption(request, base, lease.value.view.payload.lease, at)]
           else w.redemptions)
      && w'.gate == (
           if decision.verdict != ALLOW then GateIdle
           else
             Deciding(request, base, decision,
                      if consumes then Some(Redemption(request, base, lease.value.view.payload.lease, at)) else None))
  {
    var base := Evaluate(c.glob, request, w.registry);
    if base.verdict == REVIEW && lease.Some? {
      SignedEffect(w.book, c.gateTrust, w.reviewRows, lease.value, request, base, at);
      SignedReleaseIff(w.book, c.gateTrust, w.reviewRows, lease.value, request, base, at);
    }
    hide Evaluate, SignedReply, SignedRows, ReleasedDecision;
    ReleasedAllows(base, lease);
  }

  /** The two gate steps do together what the handler does: same ledger, and a permit exactly when the handler sends
      one, with the lease that was consumed for it and the time of that. */
  lemma GateStepsAreTheHandler(c: Config, w: World, request: ActionRequest, lease: Option<SignedEnvelope>,
                               redeemAt: Time, permitAt: Time, text: string)
    requires w.gate.GateIdle? && ValidRequest(request)
    ensures var base := Evaluate(c.glob, request, w.registry);
      var decision := Decide(base, TryLease(w.book, c.gateTrust, w.reviewRows, request, base, lease, redeemAt));
      var w' := GateSign(c, GateDecide(c, w, request, lease, redeemAt), permitAt, text);
      var permit := NewPermit(request, decision, w.registry, c.permitTtl, permitAt);
      && w'.reviewRows == RowsAfterTry(w.book, c.gateTrust, w.reviewRows, request, base, lease, redeemAt)
      && (base.verdict == ALLOW || decision.verdict != ALLOW ==> w'.redemptions == w.redemptions)
      && (base.verdict != ALLOW && decision.verdict == ALLOW ==>
            && lease.Some? && lease.value.view.payload.LeasePayload?
            && w'.redemptions
               == w.redemptions + [Redemption(request, base, lease.value.view.payload.lease, redeemAt)])
      && (decision.verdict == ALLOW && permit.Ok? ==>
            && |w'.permits| == |w.permits| + 1 && w'.permits[|w.permits|].permit == permit.value
            && w'.permits[|w.permits|].redemption
               == (if base.verdict == ALLOW then None else Some(w'.redemptions[|w'.redemptions| - 1]))
            && SignatureOf(SignPermit(permit.value, c.gateSigner, permitAt, text)) in w'.book)
      && (!(decision.verdict == ALLOW && permit.Ok?) ==> w'.permits == w.permits && w'.book == w.book)
  {
    hide Evaluate, TryLease, RowsAfterTry, Decide, GateDecide;
    GateDecided(c, w, request, lease, redeemAt);
  }

  lemma ReleasedAllows(base: GateDecision, lease: Option<SignedEnvelope>)
    ensures forall id :: ReleasedDecision(base, id).verdict == ALLOW
  {
  }

  /** The three executor steps do together what the handler does. */
  lemma ExecutorStepsAreTheHandler(c: Config, w: World, request: ActionRequest, permit: SignedEnvelope,
                                   observed: Observation, acceptAt: Time, signAt: Time, text: string)
    requires w.executor.ExecutorIdle?
    ensures
      var accepted := ExecutorAccept(c, w, request, permit, acceptAt);
      var w' := ExecutorSign(c, ExecutorDispatch(accepted, observed), signAt, text);
      if ValidRequest(request) && PermitGranted(w.book, c.executorTrust, w.permitRows, permit, request, acceptAt) then
        && w'.permitRows == w.permitRows[permit.view.payload.permit.permitId := Row(permit.envelopeHash, acceptAt)]
        && w'.dispatches
           == w.dispatches + [Dispatch(request, permit, permit.view.payload.permit.permitId, acceptAt, observed)]
        && w'.book == w.book + {SignatureOf(SignResult(request, permit, observed, c.executorSigner, signAt, text))}
        && w'.executor.ExecutorIdle?
      else w' == w
  {
    hide RefusePermit, Fresh, SignResult;
  }

  /** The three verifier steps do together what the handler does. */
  lemma VerifierStepsAreTheHandler(c: Config, w: World, request: ActionRequest, permit: SignedEnvelope,
                                   result: SignedEnvelope, at: Time, text: string)
    requires w.verifier.VerifierIdle?
    ensures
      var made := FinalReceipt(w.book, c.verifierTrust, request, permit, result, c.verifierSigner, w.chain, at, text);
      var w' := VerifierReply(VerifierStore(VerifierSign(c, w, request, permit, result, at, text)));
      if ValidRequest(request) && made.Ok? then
        && w'.chain == ChainState(Some(made.value.receipt.receiptHash), Some(made.value.envelope.envelopeHash))
        && w'.saved == w.saved + [Saved(request, made.value.receipt, made.value.envelope, true)]
        && w'.book == w.book + {SignatureOf(made.value.envelope)}
        && w'.verifier.VerifierIdle?
      else w' == w
  {
    hide FinalReceipt;
  }
}
