/** The in-process runtime: gate, lease redemption, execution, and two interleaved hash chains. */
module Runtime {
  import opened Envelopes
  import opened Gate
  import opened JsonValues
  import opened Ledgers
  import opened Receipts
  import opened Records
  import opened ReviewBroker
  import opened ReviewLeases
  import opened SignedReview
  import Appliance

  /** What an executor does with a request: any exception counts as raised. */
  datatype ExecutorReply = Returned(result: Json) | Raised(errorType: string, reason: string)

  /** The executor, as far as the runtime is concerned: whatever it was called with. */
  class ActionExecutor {
    var calls: seq<ActionRequest>

    constructor ()
      ensures calls == []
    {
      calls := [];
    }

    method Execute(request: ActionRequest)
      modifies this
      ensures calls == old(calls) + [request]
    {
      calls := calls + [request];
    }
  }

  // ----- What a call does -----------------------------------------------------------------------

  datatype Setup = Setup(
    glob: Glob, registry: CapabilityRegistry, hasBroker: bool, trust: Option<TrustStore>, signer: Option<Signer>)

  datatype RuntimeState = RuntimeState(
    broker: BrokerState, rows: Table, lastReceipt: Option<Digest>, lastSigned: Option<Digest>,
    executed: seq<ActionRequest>)

  /** The lease that comes with a request, in one form or the other, and the time it is tried. */
  datatype Offer = Offer(leaseId: Option<string>, envelope: Option<SignedEnvelope>, at: Time)

  /** The arguments of `run`, with the reading of the clock for the receipt and the behaviour of the executor. */
  datatype RunCall = RunCall(request: ActionRequest, offer: Offer, createdAt: Time, reply: ExecutorReply)

  /** What became of the lease of a call. */
  datatype Trial =
    | NotTried
    | Unavailable(reason: Reason)
    | TriedSigned(reply: ReviewAuthorization)
    | TriedBroker(reply: ReviewAuthorization)

  function TrialOf(setup: Setup, book: Book, s: RuntimeState, request: ActionRequest, base: GateDecision, offer: Offer)
    : Trial
  {
    if base.verdict != REVIEW then NotTried
    else if offer.envelope.Some? then
      if setup.trust.None? then Unavailable(AuthorizerUnavailable)
      else TriedSigned(SignedReply(book, setup.trust.value, s.rows, offer.envelope.value, request, base, offer.at))
    else if offer.leaseId.Some? then
      if !setup.hasBroker then Unavailable(BrokerUnavailable)
      else TriedBroker(RedeemReply(s.broker, offer.leaseId.value, request, base, offer.at))
    else NotTried
  }

  function BrokerTag(leaseId: string): string {
    "review-lease:" + leaseId
  }

  function DecisionAfter(base: GateDecision, trial: Trial): GateDecision {
    match trial
    case NotTried => base
    case Unavailable(reason) => GateDecision(REVIEW, reason, base.matchedGrantIds)
    case TriedSigned(Released(id)) => Appliance.ReleasedDecision(base, id)
    case TriedSigned(Refused(why, _)) => GateDecision(REVIEW, SignedLeaseRejected(why), base.matchedGrantIds)
    case TriedBroker(Released(id)) => GateDecision(ALLOW, LeaseRedeemed, base.matchedGrantIds + [BrokerTag(id)])
    case TriedBroker(Refused(why, _)) => GateDecision(REVIEW, LeaseRejected(why), base.matchedGrantIds)
  }

  /** What the decision tells of the lease that came along: the gate's own decision, unless it asked for review; then
      which store was asked and what it answered.  A release adds one tag of the store to the reviewed grant ids. */
  ghost predicate Follows(setup: Setup, book: Book, s: RuntimeState, request: ActionRequest, base: GateDecision,
                          offer: Offer, d: GateDecision)
  {
    var ids := base.matchedGrantIds;
    if base.verdict != REVIEW || (offer.envelope.None? && offer.leaseId.None?) then d == base
    else if offer.envelope.Some? && setup.trust.None? then d == GateDecision(REVIEW, AuthorizerUnavailable, ids)
    else if offer.envelope.Some? then
      match SignedReply(book, setup.trust.value, s.rows, offer.envelope.value, request, base, offer.at)
      case Released(id) => d == GateDecision(ALLOW, SignedLeaseRedeemed, ids + ["signed-review-lease:" + id])
      case Refused(why, _) => d == GateDecision(REVIEW, SignedLeaseRejected(why), ids)
    else if !setup.hasBroker then d == GateDecision(REVIEW, BrokerUnavailable, ids)
    else
      match RedeemReply(s.broker, offer.leaseId.value, request, base, offer.at)
      case Released(id) => d == GateDecision(ALLOW, LeaseRedeemed, ids + ["review-lease:" + id])
      case Refused(why, _) => d == GateDecision(REVIEW, LeaseRejected(why), ids)
  }

  function OutcomeOf(decision: GateDecision, reply: ExecutorReply): Outcome {
    if decision.verdict != ALLOW then NOT_EXECUTED else if reply.Returned? then SUCCEEDED else FAILED
  }

  function ResultOf(decision: GateDecision, reply: ExecutorReply): Json {
    if decision.verdict != ALLOW then Obj([])
    else
      match reply
      case Returned(result) => result
      case Raised(errorType, reason) => Obj([Member("error", Str(errorType)), Member("reason", Str(reason))])
  }

  function TrialIn(setup: Setup, book: Book, s: RuntimeState, call: RunCall): Trial {
    TrialOf(setup, book, s, call.request, Evaluate(setup.glob, call.request, setup.registry), call.offer)
  }

  function DecisionIn(setup: Setup, book: Book, s: RuntimeState, call: RunCall): GateDecision {
    DecisionAfter(Evaluate(setup.glob, call.request, setup.registry), TrialIn(setup, book, s, call))
  }

  predicate BothLeases(call: RunCall) {
    call.offer.leaseId.Some? && call.offer.envelope.Some?
  }

  function ReceiptOf(setup: Setup, book: Book, s: RuntimeState, call: RunCall): ActionReceipt {
    var decision := DecisionIn(setup, book, s, call);
    CreateReceipt(call.request, decision, setup.registry.registryId, setup.registry.version,
                  OutcomeOf(decision, call.reply), ResultOf(decision, call.reply), s.lastReceipt, call.createdAt)
  }

  /** The state after the lease has been tried. */
  function Tried(setup: Setup, book: Book, s: RuntimeState, request: ActionRequest, base: GateDecision, offer: Offer)
    : (r: RuntimeState)
    ensures r.lastReceipt == s.lastReceipt && r.lastSigned == s.lastSigned && r.executed == s.executed
  {
    match TrialOf(setup, book, s, request, base, offer)
    case TriedSigned(_) =>
      s.(rows := SignedRows(book, setup.trust.value, s.rows, offer.envelope.value, request, base, offer.at))
    case TriedBroker(_) => s.(broker := Redeemed(s.broker, offer.leaseId.value, request, base, offer.at))
    case _ => s
  }

  /** The state after `run`. */
  function AfterRun(setup: Setup, book: Book, s: RuntimeState, call: RunCall): RuntimeState {
    if BothLeases(call) then s
    else
      Tried(setup, book, s, call.request, Evaluate(setup.glob, call.request, setup.registry), call.offer).(
        lastReceipt := Some(ReceiptOf(setup, book, s, call).receiptHash),
        executed := if DecisionIn(setup, book, s, call).verdict == ALLOW then s.executed + [call.request]
                    else s.executed)
  }

  /** The envelope that `run_signed` makes for the receipt. */
  function EnvelopeOf(setup: Setup, book: Book, s: RuntimeState, call: RunCall, signedAt: Time, text: string)
    : SignedEnvelope
    requires setup.signer.Some?
  {
    SignReceipt(ReceiptOf(setup, book, s, call), setup.signer.value, signedAt, s.lastSigned, text)
  }

  // ----- The runtime object ---------------------------------------------------------------------

  class PersonalAgentRuntime {
    const glob: Glob
    const registry: CapabilityRegistry
    const executor: ActionExecutor
    const broker: Broker?
    const authorizer: SignedReviewAuthorizer?
    const receiptSigner: Option<Signer>
    var previousReceiptHash: Option<Digest>
    var previousSignedReceiptHash: Option<Digest>

    constructor (glob: Glob, registry: CapabilityRegistry, executor: ActionExecutor, broker: Broker?,
                 authorizer: SignedReviewAuthorizer?, receiptSigner: Option<Signer>,
                 previousReceiptHash: Option<Digest>, previousSignedReceiptHash: Option<Digest>)
      ensures this.glob == glob && this.registry == registry && this.executor == executor && this.broker == broker
      ensures this.authorizer == authorizer && this.receiptSigner == receiptSigner
      ensures this.previousReceiptHash == previousReceiptHash
      ensures this.previousSignedReceiptHash == previousSignedReceiptHash
    {
      this.glob, this.registry, this.executor, this.broker := glob, registry, executor, broker;
      this.authorizer, this.receiptSigner := authorizer, receiptSigner;
      this.previousReceiptHash := previousReceiptHash;
      this.previousSignedReceiptHash := previousSignedReceiptHash;
    }

    function TheSetup(): Setup
      reads this
    {
      Setup(glob, registry, broker != null, if authorizer == null then None else Some(authorizer.trust), receiptSigner)
    }

    /** What the runtime changes besides itself. */
    ghost function Footprint(): set<object>
      reads this
    {
      {executor} + (if broker == null then {} else {broker})
      + (if authorizer == null then {} else {authorizer.ledger})
    }

    ghost function State(): RuntimeState
      reads this, Footprint()
    {
      RuntimeState(if broker == null then EMPTY else broker.State(),
                   if authorizer == null then map[] else authorizer.ledger.rows,
                   previousReceiptHash, previousSignedReceiptHash, executor.calls)
    }

    /** Redeems the lease given, when the gate asks for review, and decides. */
    method Consult(book: Book, request: ActionRequest, base: GateDecision, offer: Offer)
      returns (decision: GateDecision)
      modifies Footprint() - {executor}
      ensures decision == DecisionAfter(base, TrialOf(TheSetup(), book, old(State()), request, base, offer))
      ensures Follows(TheSetup(), book, old(State()), request, base, offer, decision)
      ensures State() == Tried(TheSetup(), book, old(State()), request, base, offer)
    {
      hide SignedReply, SignedRows, RedeemReply, Redeemed;
      decision := base;
      if base.verdict == REVIEW && offer.envelope.Some? {
        if authorizer == null {
          decision := GateDecision(REVIEW, AuthorizerUnavailable, base.matchedGrantIds);
        } else {
          var authorization := authorizer.Redeem(book, offer.envelope.value, request, base, offer.at);
          if authorization.Released? {
            decision := GateDecision(ALLOW, SignedLeaseRedeemed,
                                     base.matchedGrantIds + [Appliance.LeaseTag(authorization.leaseId)]);
          } else {
            decision := GateDecision(REVIEW, SignedLeaseRejected(authorization.why), base.matchedGrantIds);
          }
        }
      } else if base.verdict == REVIEW && offer.leaseId.Some? {
        if broker == null {
          decision := GateDecision(REVIEW, BrokerUnavailable, base.matchedGrantIds);
        } else {
          var authorization := broker.Redeem(offer.leaseId.value, request, base, offer.at);
          if authorization.Released? {
            decision := GateDecision(ALLOW, LeaseRedeemed,
                                     base.matchedGrantIds + [BrokerTag(authorization.leaseId)]);
          } else {
            decision := GateDecision(REVIEW, LeaseRejected(authorization.why), base.matchedGrantIds);
          }
        }
      }
    }

    method Run(book: Book, request: ActionRequest, offer: Offer, createdAt: Time, reply: ExecutorReply)
      returns (r: Result<ActionReceipt>)
      modifies this`previousReceiptHash, Footprint()
      ensures var call := RunCall(request, offer, createdAt, reply);
        && State() == AfterRun(TheSetup(), book, old(State()), call)
        && r == if BothLeases(call) then Error(BothLeasesGiven)
                else Ok(ReceiptOf(TheSetup(), book, old(State()), call))
      ensures offer.leaseId.Some? && offer.envelope.Some? ==> r == Error(BothLeasesGiven) && State() == old(State())
      ensures offer.leaseId.None? || offer.envelope.None? ==> r.Ok?
    {
      hide TrialOf, Tried, Evaluate;
      if offer.leaseId.Some? && offer.envelope.Some? {
        return Error(BothLeasesGiven);
      }
      var base := Evaluate(glob, request, registry);
      var decision := Consult(book, request, base, offer);
      var outcome, result := NOT_EXECUTED, Obj([]);
      if decision.verdict == ALLOW {
        executor.Execute(request);
        match reply {
          case Returned(value) => outcome, result := SUCCEEDED, value;
          case Raised(errorType, reason) =>
            outcome := FAILED;
            result := Obj([Member("error", Str(errorType)), Member("reason", Str(reason))]);
        }
      }
      var receipt := CreateReceipt(request, decision, registry.registryId, registry.version, outcome, result,
                                   previousReceiptHash, createdAt);
      previousReceiptHash := Some(receipt.receiptHash);
      return Ok(receipt);
    }

    method RunSigned(book: Book, request: ActionRequest, offer: Offer, createdAt: Time, reply: ExecutorReply,
                     signedAt: Time, text: string) returns (r: Result<(ActionReceipt, SignedEnvelope)>)
      modifies this, Footprint()
      ensures var setup, before := TheSetup(), old(State());
        var call := RunCall(request, offer, createdAt, reply);
        if setup.signer.None? then r == Error(NoReceiptSigner) && State() == before
        else if BothLeases(call) then r == Error(BothLeasesGiven) && State() == before
        else
          var envelope := EnvelopeOf(setup, book, before, call, signedAt, text);
          && r == Ok((ReceiptOf(setup, book, before, call), envelope))
          && State() == AfterRun(setup, book, before, call).(lastSigned := Some(envelope.envelopeHash))
    {
      hide Tried, ReceiptOf, DecisionIn;
      if receiptSigner.None? {
        return Error(NoReceiptSigner);
      }
      var receipt := Run(book, request, offer, createdAt, reply);
      if receipt.Error? {
        return Error(receipt.fault);
      }
      var envelope := SignReceipt(receipt.value, receiptSigner.value, signedAt, previousSignedReceiptHash, text);
      previousSignedReceiptHash := Some(envelope.envelopeHash);
      return Ok((receipt.value, envelope));
    }
  }

  // ----- Runs -----------------------------------------------------------------------------------

  /** A call of the runtime, or of the control plane that shares its broker. */
  datatype Step =
    | Plain(call: RunCall)
    | Signed(call: RunCall, signedAt: Time, text: string)
    | OnBroker(op: ReviewBroker.Call)

  /** What led to a receipt. */
  datatype Handled = Handled(request: ActionRequest, trial: Trial)

  datatype Trace = Trace(
    state: RuntimeState, handled: seq<Handled>, receipts: seq<ActionReceipt>, envelopes: seq<SignedEnvelope>)

  function Completed(setup: Setup, book: Book, t: Trace, call: RunCall): Trace {
    Trace(AfterRun(setup, book, t.state, call),
          t.handled + [Handled(call.request, TrialIn(setup, book, t.state, call))],
          t.receipts + [ReceiptOf(setup, book, t.state, call)], t.envelopes)
  }

  function Next(setup: Setup, book: Book, t: Trace, step: Step): Trace {
    match step
    case Plain(call) => if BothLeases(call) then t else Completed(setup, book, t, call)
    case Signed(call, signedAt, text) =>
      if setup.signer.None? || BothLeases(call) then t
      else
        var envelope := EnvelopeOf(setup, book, t.state, call, signedAt, text);
        var u := Completed(setup, book, t, call);
        u.(state := u.state.(lastSigned := Some(envelope.envelopeHash)), envelopes := t.envelopes + [envelope])
    case OnBroker(op) =>
      if setup.hasBroker then t.(state := t.state.(broker := ReviewBroker.After(t.state.broker, op))) else t
  }

  function RunSteps(setup: Setup, book: Book, start: RuntimeState, steps: seq<Step>): Trace {
    if |steps| == 0 then Trace(start, [], [], [])
    else Next(setup, book, RunSteps(setup, book, start, steps[..|steps| - 1]), steps[|steps| - 1])
  }

  // ----- The two chains -------------------------------------------------------------------------

  function SignaturesOf(envelopes: seq<SignedEnvelope>): Book {
    if |envelopes| == 0 then {}
    else SignaturesOf(envelopes[..|envelopes| - 1]) + {SignatureOf(envelopes[|envelopes| - 1])}
  }

  function ReceiptPolicy(trust: TrustStore): Policy {
    Policy(trust, Some(ReceiptSigner), Some(ActionReceiptType))
  }

  /** The receipts form one hash chain from the constructor's value, whatever the runs were. */
  lemma {:induction false} ReceiptsFormOneChain(setup: Setup, book: Book, start: RuntimeState, steps: seq<Step>)
    ensures var t := RunSteps(setup, book, start, steps);
      && ReceiptChain(t.receipts, start.lastReceipt)
      && t.state.lastReceipt == LastReceiptHash(start.lastReceipt, t.receipts)
      && |t.handled| == |t.receipts|
  {
    hide Tried, DecisionIn, TrialIn, ReviewBroker.After, ReceiptChain;
    if steps == [] {
      EmptyReceiptChain(start.lastReceipt);
    } else {
      var init, last := steps[..|steps| - 1], steps[|steps| - 1];
      ReceiptsFormOneChain(setup, book, start, init);
      var t := RunSteps(setup, book, start, init);
      if !last.OnBroker? {
        ReceiptChainAppend(t.receipts, ReceiptOf(setup, book, t.state, last.call), start.lastReceipt);
      }
    }
  }

  lemma EmptyReceiptChain(previous: Option<Digest>)
    ensures ReceiptChain([], previous)
  {
  }

  /** The signed receipts form one chain that verifies from the constructor's value. */
  lemma {:induction false} EnvelopesFormOneChain(setup: Setup, book: Book, trust: TrustStore, start: RuntimeState,
                                                 steps: seq<Step>)
    requires setup.signer.Some? && Trusts(ReceiptPolicy(trust), setup.signer.value)
    ensures var t := RunSteps(setup, book, start, steps);
      && ValidChain(SignaturesOf(t.envelopes), t.envelopes, ReceiptPolicy(trust), start.lastSigned)
      && t.state.lastSigned == EndHash(start.lastSigned, t.envelopes)
  {
    hide Tried, DecisionIn, ReceiptOf, TrialIn, ReviewBroker.After, ValidChain, Trusts;
    if steps == [] {
      EmptyChain({}, ReceiptPolicy(trust), start.lastSigned);
    } else {
      var init, last := steps[..|steps| - 1], steps[|steps| - 1];
      EnvelopesFormOneChain(setup, book, trust, start, init);
      var t := RunSteps(setup, book, start, init);
      var u := RunSteps(setup, book, start, steps);
      if last.Signed? && !BothLeases(last.call) {
        var receipt := ReceiptOf(setup, book, t.state, last.call);
        SignedReceiptExtends(t.envelopes, trust, setup.signer.value, receipt, last.signedAt, last.text,
                             start.lastSigned);
      }
    }
  }

  lemma EmptyChain(book: Book, policy: Policy, previous: Option<Digest>)
    ensures ValidChain(book, [], policy, previous)
  {
  }

  lemma SignedReceiptExtends(envelopes: seq<SignedEnvelope>, trust: TrustStore, signer: Signer, receipt: ActionReceipt,
                             signedAt: Time, text: string, previous: Option<Digest>)
    requires ValidChain(SignaturesOf(envelopes), envelopes, ReceiptPolicy(trust), previous)
    requires Trusts(ReceiptPolicy(trust), signer)
    ensures var e := SignReceipt(receipt, signer, signedAt, EndHash(previous, envelopes), text);
      ValidChain(SignaturesOf(envelopes + [e]), envelopes + [e], ReceiptPolicy(trust), previous)
  {
    hide ValidChain;
    var e := SignReceipt(receipt, signer, signedAt, EndHash(previous, envelopes), text);
    var longer := envelopes + [e];
    assert longer[..|longer| - 1] == envelopes;
    ChainMonotone(SignaturesOf(envelopes), SignaturesOf(longer), envelopes, ReceiptPolicy(trust), previous);
    ChainStep(SignaturesOf(longer), longer, ReceiptPolicy(trust), previous);
  }

  // ----- Execution ------------------------------------------------------------------------------

  /** The requests whose receipts say that they were executed, in order. */
  function Executed(handled: seq<Handled>, receipts: seq<ActionReceipt>): seq<ActionRequest>
    requires |handled| == |receipts|
  {
    if |receipts| == 0 then []
    else
      var n := |receipts| - 1;
      Executed(handled[..n], receipts[..n])
      + (if receipts[n].body.outcome != NOT_EXECUTED then [handled[n].request] else [])
  }

  lemma ExecutedAppend(handled: seq<Handled>, receipts: seq<ActionReceipt>, h: Handled, r: ActionReceipt)
    requires |handled| == |receipts|
    ensures Executed(handled + [h], receipts + [r]) ==
      Executed(handled, receipts) + (if r.body.outcome != NOT_EXECUTED then [h.request] else [])
  {
    assert (handled + [h])[..|receipts|] == handled && (receipts + [r])[..|receipts|] == receipts;
  }

  lemma CompletedExecutes(setup: Setup, book: Book, t: Trace, call: RunCall)
    requires |t.handled| == |t.receipts| && !BothLeases(call)
    ensures var u := Completed(setup, book, t, call);
      && |u.handled| == |u.receipts|
      && var more := if DecisionIn(setup, book, t.state, call).verdict == ALLOW then [call.request] else [];
      && u.state.executed == t.state.executed + more
      && Executed(u.handled, u.receipts) == Executed(t.handled, t.receipts) + more
  {
    hide Tried, DecisionIn, TrialIn, Executed;
    var receipt := ReceiptOf(setup, book, t.state, call);
    ExecutedAppend(t.handled, t.receipts, Handled(call.request, TrialIn(setup, book, t.state, call)), receipt);
  }

  lemma NothingExecuted()
    ensures Executed([], []) == []
  {
  }

  /** The executor is called exactly once for every receipt whose outcome is not NOT_EXECUTED, with that receipt's
      request and in the same order, and for nothing else. */
  lemma {:induction false} ExecutedOncePerReceipt(setup: Setup, book: Book, start: RuntimeState, steps: seq<Step>)
    ensures var t := RunSteps(setup, book, start, steps);
      && |t.handled| == |t.receipts|
      && t.state.executed == start.executed + Executed(t.handled, t.receipts)
  {
    hide AfterRun, ReceiptOf, EnvelopeOf, ReviewBroker.After, Executed;
    if steps != [] {
      var init, last := steps[..|steps| - 1], steps[|steps| - 1];
      ExecutedOncePerReceipt(setup, book, start, init);
      if !last.OnBroker? && !BothLeases(last.call) {
        CompletedExecutes(setup, book, RunSteps(setup, book, start, init), last.call);
      }
    } else {
      NothingExecuted();
    }
  }

  // ----- Authority ------------------------------------------------------------------------------

  predicate ReleasedBy(trial: Trial) {
    (trial.TriedSigned? || trial.TriedBroker?) && trial.reply.Released?
  }

  /** A request is executed exactly when the gate allows it outright, or asks for review and a lease released it; a
      request that the gate denies is not executed, whatever lease comes with it. */
  lemma ExecutedIffAuthorized(setup: Setup, book: Book, s: RuntimeState, call: RunCall)
    ensures var base := Evaluate(setup.glob, call.request, setup.registry);
      ReceiptOf(setup, book, s, call).body.outcome != NOT_EXECUTED <==>
        base.verdict == ALLOW || (base.verdict == REVIEW && ReleasedBy(TrialIn(setup, book, s, call)))
    ensures ReceiptOf(setup, book, s, call).body.outcome != NOT_EXECUTED <==>
      ReceiptOf(setup, book, s, call).body.gate == ALLOW
  {
    hide Evaluate, SignedReply, RedeemReply;
  }

  /** The uses that the runs so far have made of leases are on record. */
  ghost predicate OnRecord(setup: Setup, t: Trace) {
    && KeyedById(t.state.broker.leases)
    && (forall i :: 0 <= i < |t.handled| && ReleasedBy(t.handled[i].trial) ==> Recorded(t.state, t.handled[i].trial))
  }

  predicate Recorded(s: RuntimeState, trial: Trial)
    requires ReleasedBy(trial)
  {
    var id := trial.reply.leaseId;
    if trial.TriedSigned? then id in s.rows
    else Spent(s.broker, id)
  }

  /** A lease that is on record does not release again. */
  lemma RecordedIsSpent(setup: Setup, book: Book, s: RuntimeState, call: RunCall, trial: Trial)
    requires KeyedById(s.broker.leases) && ReleasedBy(trial) && Recorded(s, trial)
    ensures TrialIn(setup, book, s, call) != trial
  {
    hide Evaluate;
    if TrialIn(setup, book, s, call) == trial && trial.TriedBroker? {
      BrokerReleaseIff(s.broker, call.offer.leaseId.value, call.request,
                       Evaluate(setup.glob, call.request, setup.registry), call.offer.at);
    }
  }

  predicate Spent(s: BrokerState, id: string) {
    id in s.leases && id in s.uses && s.uses[id] > 0
  }

  ghost predicate KeepsSpent(s: BrokerState, s': BrokerState) {
    KeyedById(s'.leases) && forall id :: Spent(s, id) ==> Spent(s', id)
  }

  lemma RedeemedRecords(s: BrokerState, id: string, request: ActionRequest, base: GateDecision, now: Time)
    requires KeyedById(s.leases)
    ensures KeepsSpent(s, Redeemed(s, id, request, base, now))
    ensures RedeemReply(s, id, request, base, now).Released? ==> Spent(Redeemed(s, id, request, base, now), id)
  {
    hide Refusal, KeyedById;
  }

  lemma BrokerStepRecords(s: BrokerState, op: ReviewBroker.Call)
    requires KeyedById(s.leases)
    ensures KeepsSpent(s, ReviewBroker.After(s, op))
  {
    hide Redeemed;
    if op.CallRedeem? {
      RedeemedRecords(s, op.redeemId, op.request, op.base, op.redeemAt);
    }
  }

  lemma SignedRowsRecord(book: Book, trust: TrustStore, rows: Table, envelope: SignedEnvelope, request: ActionRequest,
                         base: GateDecision, now: Time)
    ensures var rows' := SignedRows(book, trust, rows, envelope, request, base, now);
      && (forall id :: id in rows ==> id in rows')
      && var reply := SignedReply(book, trust, rows, envelope, request, base, now);
         reply.Released? ==> reply.leaseId in rows'
  {
    hide CheckLease;
  }

  /** Trying a lease records its release and forgets nothing. */
  lemma TriedRecords(setup: Setup, book: Book, s: RuntimeState, call: RunCall)
    requires KeyedById(s.broker.leases) && !BothLeases(call)
    ensures var s', trial := AfterRun(setup, book, s, call), TrialIn(setup, book, s, call);
      && KeyedById(s'.broker.leases)
      && (ReleasedBy(trial) ==> Recorded(s', trial))
      && forall earlier :: ReleasedBy(earlier) && Recorded(s, earlier) ==> Recorded(s', earlier)
  {
    hide Evaluate, SignedRows, SignedReply, Redeemed, RedeemReply, KeyedById, ReceiptOf, DecisionIn;
    var base := Evaluate(setup.glob, call.request, setup.registry);
    match TrialIn(setup, book, s, call) {
      case TriedSigned(_) =>
        SignedRowsRecord(book, setup.trust.value, s.rows, call.offer.envelope.value, call.request, base, call.offer.at);
      case TriedBroker(_) =>
        RedeemedRecords(s.broker, call.offer.leaseId.value, call.request, base, call.offer.at);
        ReleasedId(s.broker, call.offer.leaseId.value, call.request, base, call.offer.at);
      case _ =>
    }
  }

  lemma ReleasedId(s: BrokerState, id: string, request: ActionRequest, base: GateDecision, now: Time)
    ensures RedeemReply(s, id, request, base, now).Released? ==> RedeemReply(s, id, request, base, now).leaseId == id
  {
    hide Refusal;
  }

  /** No lease is released twice by the same authorizer. */
  ghost predicate NoLeaseTwice(handled: seq<Handled>) {
    forall i, j :: 0 <= i < j < |handled| && ReleasedBy(handled[i].trial) ==> handled[i].trial != handled[j].trial
  }

  /** No lease releases two requests through the same authorizer, however the calls of `run`, `run_signed` and the
      broker interleave. */
  lemma {:induction false} NoLeaseReleasesTwice(setup: Setup, book: Book, start: RuntimeState, steps: seq<Step>)
    requires KeyedById(start.broker.leases)
    ensures OnRecord(setup, RunSteps(setup, book, start, steps))
    ensures NoLeaseTwice(RunSteps(setup, book, start, steps).handled)
  {
    hide AfterRun, ReceiptOf, EnvelopeOf, ReviewBroker.After, KeyedById, TrialIn;
    if steps != [] {
      var init, last := steps[..|steps| - 1], steps[|steps| - 1];
      NoLeaseReleasesTwice(setup, book, start, init);
      var t := RunSteps(setup, book, start, init);
      match last {
        case OnBroker(op) => BrokerStepRecords(t.state.broker, op);
        case _ =>
          if !BothLeases(last.call) {
            TriedRecords(setup, book, t.state, last.call);
          }
          forall i | 0 <= i < |t.handled| && ReleasedBy(t.handled[i].trial)
            ensures TrialIn(setup, book, t.state, last.call) != t.handled[i].trial
          {
            RecordedIsSpent(setup, book, t.state, last.call, t.handled[i].trial);
          }
      }
    }
  }

  // ----- What receipts say of leases ------------------------------------------------------------

  /** The lease that a receipt shows: the reason tells the store, the last matched id the lease. */
  function LeaseShown(receipt: ActionReceipt): Option<(Reason, string)> {
    var reason, ids := receipt.body.gateReason, receipt.body.matchedGrantIds;
    if (reason == SignedLeaseRedeemed || reason == LeaseRedeemed) && |ids| > 0 then Some((reason, ids[|ids| - 1]))
    else None
  }

  /** The lease that released the request. */
  function LeaseSpent(trial: Trial): Option<(Reason, string)> {
    match trial
    case TriedSigned(Released(id)) => Some((SignedLeaseRedeemed, Appliance.LeaseTag(id)))
    case TriedBroker(Released(id)) => Some((LeaseRedeemed, BrokerTag(id)))
    case _ => None
  }

  /** A receipt shows the lease that released its request, and no other receipt shows one. */
  lemma ReceiptNamesLease(setup: Setup, book: Book, s: RuntimeState, call: RunCall)
    ensures LeaseShown(ReceiptOf(setup, book, s, call)) == LeaseSpent(TrialIn(setup, book, s, call))
  {
    ReasonIff(setup.glob, call.request, setup.registry);
    GateNeverRedeems(setup.glob, call.request, setup.registry);
    hide Evaluate, SignedReply, RedeemReply, Protected, Asserted, Matches;
  }

  lemma GateNeverRedeems(glob: Glob, request: ActionRequest, registry: CapabilityRegistry)
    ensures Evaluate(glob, request, registry).reason != SignedLeaseRedeemed
    ensures Evaluate(glob, request, registry).reason != LeaseRedeemed
  {
    hide Matching, IdsWith, Protected;
  }

  lemma {:induction false} ReceiptsNameLeases(setup: Setup, book: Book, start: RuntimeState, steps: seq<Step>)
    ensures var t := RunSteps(setup, book, start, steps);
      && |t.handled| == |t.receipts|
      && forall i :: 0 <= i < |t.receipts| ==> LeaseShown(t.receipts[i]) == LeaseSpent(t.handled[i].trial)
  {
    hide AfterRun, ReceiptOf, EnvelopeOf, ReviewBroker.After, TrialIn, LeaseShown, LeaseSpent;
    if steps != [] {
      var init, last := steps[..|steps| - 1], steps[|steps| - 1];
      ReceiptsNameLeases(setup, book, start, init);
      if !last.OnBroker? {
        ReceiptNamesLease(setup, book, RunSteps(setup, book, start, init).state, last.call);
      }
    }
  }

  /** No two receipts of a run show the same lease. */
  lemma ReceiptsShowEachLeaseOnce(setup: Setup, book: Book, start: RuntimeState, steps: seq<Step>)
    requires KeyedById(start.broker.leases)
    ensures var receipts := RunSteps(setup, book, start, steps).receipts;
      forall i, j :: 0 <= i < j < |receipts| && LeaseShown(receipts[i]).Some? ==>
        LeaseShown(receipts[i]) != LeaseShown(receipts[j])
  {
    var t := RunSteps(setup, book, start, steps);
    NoLeaseReleasesTwice(setup, book, start, steps);
    ReceiptsNameLeases(setup, book, start, steps);
    hide RunSteps;
    forall i, j | 0 <= i < j < |t.receipts| && LeaseShown(t.receipts[i]).Some?
      ensures LeaseShown(t.receipts[i]) != LeaseShown(t.receipts[j])
    {
      if LeaseSpent(t.handled[j].trial).Some? {
        TagsDiffer(t.handled[i].trial.reply.leaseId, t.handled[j].trial.reply.leaseId);
      }
    }
  }

  /** Different leases have different tags. */
  lemma TagsDiffer(id: string, id': string)
    ensures Appliance.LeaseTag(id) == Appliance.LeaseTag(id') <==> id == id'
    ensures BrokerTag(id) == BrokerTag(id') <==> id == id'
  {
    SamePrefix("signed-review-lease:", id, id');
    SamePrefix("review-lease:", id, id');
  }

  lemma SamePrefix(prefix: string, s: string, t: string)
    ensures prefix + s == prefix + t <==> s == t
  {
    assert (prefix + s)[|prefix|..] == s && (prefix + t)[|prefix|..] == t;
  }
}
