/** The approved path to its end: the result, the receipt and the reply, and what a stop before the reply leaves
    behind. */
module ApplianceDelivery {
  import opened Appliance
  import opened ApplianceHonest
  import opened ApplianceRun
  import opened ApplianceTheorems
  import opened Envelopes
  import opened Gate
  import opened Records

  /** The deployment works for the scenario to the end: the verifier trusts the gate and the executor too. */
  ghost predicate Completes(c: Config, registry: CapabilityRegistry, s: Scenario) {
    && Works(c, registry, s)
    && Trusts(PermitPolicy(c.verifierTrust), c.gateSigner) && Trusts(ResultPolicy(c.verifierTrust), c.executorSigner)
  }

  function ResultEnvelope(c: Config, registry: CapabilityRegistry, s: Scenario, at: Time): SignedEnvelope
    requires 1 <= c.permitTtl <= MAX_PERMIT_TTL
  {
    ResultFor(c, s, PermitEnvelope(c, registry, s), at)
  }

  function ResultFor(c: Config, s: Scenario, permit: SignedEnvelope, at: Time): SignedEnvelope {
    if permit.view.payload.PermitPayload? then SignResult(s.request, permit, s.observed, c.executorSigner, at, s.text)
    else permit
  }

  /** The message that the client sends to the verifier. */
  function Finalize(c: Config, registry: CapabilityRegistry, s: Scenario, at: Time): Step
    requires 1 <= c.permitTtl <= MAX_PERMIT_TTL
  {
    VerifierSigns(s.request, PermitEnvelope(c, registry, s), ResultEnvelope(c, registry, s, at), at, s.text)
  }

  // ----- Up to the dispatch ---------------------------------------------------------------------

  /** Steps of the other services leave the verifier alone, only one kind of step dispatches, and no signature is ever
      lost. */
  lemma VerifierLeftAlone(c: Config, w: World, step: Step)
    ensures w.book <= Next(c, w, step).book
    ensures !(step.VerifierSigns? || step.VerifierStores? || step.VerifierReplies? || step.VerifierRestarts?) ==>
      Next(c, w, step).verifier == w.verifier && Next(c, w, step).saved == w.saved
    ensures !step.ExecutorDispatches? ==> Next(c, w, step).dispatches == w.dispatches
  {
    hide Evaluate, TryLease, RowsAfterTry, FinalReceipt, PermitGranted, RowsAfterPermit, ApproveReview, SignPermit,
         Decide, SignResult, NewPermit;
  }

  /** The scenario's request has been dispatched, and nothing else. */
  predicate OnlyDispatch(w: World, s: Scenario) {
    |w.dispatches| == 1 && w.dispatches[0].request == s.request && w.dispatches[0].observed == s.observed
  }

  lemma Dispatched(c: Config, registry: CapabilityRegistry, s: Scenario)
    requires Works(c, registry, s)
    ensures var w := Run(c, registry, Steps(c, registry, s));
      && w.verifier.VerifierIdle? && w.saved == [] && w.executor.Executed? && OnlyDispatch(w, s)
      && w.executor.dispatch.request == s.request && w.executor.dispatch.observed == s.observed
      && w.executor.dispatch.permit == PermitEnvelope(c, registry, s)
      && SignatureOf(PermitEnvelope(c, registry, s)) in w.book
  {
    hide Evaluate, ReleasedDecision, ApproveStep, GateDecide, GateSign, ExecutorAccept, ExecutorDispatch, Run,
         LeaseEnvelope, PermitEnvelope, LeaseOf, DecisionOf;
    var steps := Steps(c, registry, s);
    FiveSteps(c, registry, steps[0], steps[1], steps[2], steps[3], steps[4]);
    var w1 := Next(c, Start(registry), steps[0]);
    VerifierLeftAlone(c, Start(registry), steps[0]);
    Approves(c, registry, s);
    var w2 := Next(c, w1, steps[1]);
    VerifierLeftAlone(c, w1, steps[1]);
    GateReleases(c, w1, s);
    var w3 := Next(c, w2, steps[2]);
    VerifierLeftAlone(c, w2, steps[2]);
    Stamped(c, registry, w2, s);
    Dispatches(c, registry, w3, s);
    VerifierLeftAlone(c, w3, steps[3]);
    VerifierLeftAlone(c, Next(c, w3, steps[3]), steps[4]);
  }

  // ----- The result and the receipt -------------------------------------------------------------

  /** The verifier makes a receipt of the scenario's permit and result, whatever its chain state. */
  lemma ReceiptMade(c: Config, registry: CapabilityRegistry, s: Scenario, book: Book, chain: ChainState, at: Time)
    requires Completes(c, registry, s)
    requires SignatureOf(PermitEnvelope(c, registry, s)) in book
    requires SignatureOf(ResultEnvelope(c, registry, s, at)) in book
    ensures FinalReceipt(book, c.verifierTrust, s.request, PermitEnvelope(c, registry, s),
                         ResultEnvelope(c, registry, s, at), c.verifierSigner, chain, at, s.text).Ok?
  {
    hide Evaluate, NewPermit;
    VerifiedIffSigned(book, PermitEnvelope(c, registry, s), PermitPolicy(c.verifierTrust));
    VerifiedIffSigned(book, ResultEnvelope(c, registry, s, at), ResultPolicy(c.verifierTrust));
  }

  /** The executor signs its result; the verifier is still idle. */
  lemma ResultSigned(c: Config, registry: CapabilityRegistry, s: Scenario, at: Time)
    requires Works(c, registry, s)
    ensures var w := Run(c, registry, Steps(c, registry, s) + [ExecutorSigns(at, s.text)]);
      && w.verifier.VerifierIdle? && w.saved == [] && OnlyDispatch(w, s)
      && SignatureOf(PermitEnvelope(c, registry, s)) in w.book
      && SignatureOf(ResultEnvelope(c, registry, s, at)) in w.book
  {
    hide Run, Steps, Evaluate, PermitEnvelope;
    var w := Run(c, registry, Steps(c, registry, s));
    Dispatched(c, registry, s);
    RunsOn(c, registry, Steps(c, registry, s), ExecutorSigns(at, s.text));
    EnvelopeView(c, registry, s);
    VerifierLeftAlone(c, w, ExecutorSigns(at, s.text));
  }

  /** A receipt that can be made is signed and stored. */
  lemma ReceiptStored(c: Config, w: World, request: ActionRequest, permit: SignedEnvelope, result: SignedEnvelope,
                      at: Time, text: string)
    requires w.verifier.VerifierIdle? && ValidRequest(request)
    requires FinalReceipt(w.book, c.verifierTrust, request, permit, result, c.verifierSigner, w.chain, at, text).Ok?
    ensures var w' := Next(c, Next(c, w, VerifierSigns(request, permit, result, at, text)), VerifierStores);
      && w'.verifier == Stored && w.book <= w'.book && w'.dispatches == w.dispatches && |w'.saved| == |w.saved| + 1
      && w'.saved[..|w.saved|] == w.saved && !w'.saved[|w.saved|].replied && w'.saved[|w.saved|].request == request
  {
    hide FinalReceipt;
  }

  function DeliverySteps(c: Config, registry: CapabilityRegistry, s: Scenario, at: Time): seq<Step>
    requires 1 <= c.permitTtl <= MAX_PERMIT_TTL
  {
    Steps(c, registry, s) + [ExecutorSigns(at, s.text)] + [Finalize(c, registry, s, at)] + [VerifierStores]
  }

  lemma FirstStored(c: Config, registry: CapabilityRegistry, s: Scenario, at: Time)
    requires Completes(c, registry, s)
    ensures var w := Run(c, registry, DeliverySteps(c, registry, s, at));
      && w.verifier == Stored && |w.saved| == 1 && !w.saved[0].replied && w.saved[0].request == s.request
      && OnlyDispatch(w, s)
      && SignatureOf(PermitEnvelope(c, registry, s)) in w.book
      && SignatureOf(ResultEnvelope(c, registry, s, at)) in w.book
  {
    hide Run, Steps, Next, Evaluate, PermitEnvelope, ResultEnvelope, FinalReceipt;
    var steps := Steps(c, registry, s) + [ExecutorSigns(at, s.text)];
    ResultSigned(c, registry, s, at);
    RunsOn(c, registry, steps, Finalize(c, registry, s, at));
    RunsOn(c, registry, steps + [Finalize(c, registry, s, at)], VerifierStores);
    var w := Run(c, registry, steps);
    ReceiptMade(c, registry, s, w.book, w.chain, at);
    ReceiptStored(c, w, s.request, PermitEnvelope(c, registry, s), ResultEnvelope(c, registry, s, at), at, s.text);
  }

  lemma Delivered(c: Config, registry: CapabilityRegistry, s: Scenario, at: Time)
    requires Completes(c, registry, s)
    ensures var w := Run(c, registry, DeliverySteps(c, registry, s, at) + [VerifierReplies]);
      |w.saved| == 1 && w.saved[0].replied && w.saved[0].request == s.request && OnlyDispatch(w, s)
  {
    hide Run, DeliverySteps, Evaluate, PermitEnvelope, ResultEnvelope;
    FirstStored(c, registry, s, at);
    RunsOn(c, registry, DeliverySteps(c, registry, s, at), VerifierReplies);
  }

  /** The receipt tells the outcome and the output that the executor observed for the scenario. */
  predicate TellsScenario(receipt: ActionReceipt, s: Scenario) {
    var b := receipt.body;
    && b.requestId == s.request.requestId && b.gate == ALLOW
    && (b.outcome == SUCCEEDED <==> s.observed.Returned?) && (b.outcome == FAILED <==> s.observed.Raised?)
    && match s.observed case Returned(output) => b.result == output case Raised(error) => b.result == error
  }

  lemma OnlyDispatchTold(c: Config, registry: CapabilityRegistry, steps: seq<Step>, s: Scenario, saved: Saved)
    requires Separated(c) && saved in Run(c, registry, steps).saved && saved.request == s.request
    requires OnlyDispatch(Run(c, registry, steps), s)
    ensures TellsScenario(saved.receipt, s)
  {
    hide Run, HasAuthority, Behind, Evaluate;
    var p, d := ReceiptsAreTruthful(c, registry, steps, saved);
  }

  /** The approved request is dispatched once, and its receipt reaches the client and tells the outcome and the output
      of that dispatch. */
  lemma ApprovedIsDelivered(c: Config, registry: CapabilityRegistry, s: Scenario, at: Time)
    requires Separated(c) && Completes(c, registry, s)
    ensures var w := Run(c, registry, DeliverySteps(c, registry, s, at) + [VerifierReplies]);
      && OnlyDispatch(w, s) && |w.saved| == 1 && w.saved[0].replied && TellsScenario(w.saved[0].receipt, s)
  {
    hide Run, DeliverySteps, Evaluate, TellsScenario, OnlyDispatch;
    Delivered(c, registry, s, at);
    var steps := DeliverySteps(c, registry, s, at) + [VerifierReplies];
    OnlyDispatchTold(c, registry, steps, s, Run(c, registry, steps).saved[0]);
  }

  // ----- A stop before the reply ----------------------------------------------------------------

  /** The verifier stops after it has stored the receipt and before it replies; the client asks again, and gets the
      second receipt. */
  function LossSteps(c: Config, registry: CapabilityRegistry, s: Scenario, at: Time): seq<Step>
    requires 1 <= c.permitTtl <= MAX_PERMIT_TTL
  {
    DeliverySteps(c, registry, s, at) + [VerifierRestarts] + [Finalize(c, registry, s, at)] + [VerifierStores]
    + [VerifierReplies]
  }

  /** The client's chain breaks in that run: it holds the second receipt, which names the hash of the first. */
  lemma LostReplyBreaksChain(c: Config, registry: CapabilityRegistry, s: Scenario, at: Time)
    requires Separated(c) && Completes(c, registry, s) && Trusts(ReceiptPolicy(c), c.verifierSigner)
    ensures var w := Run(c, registry, LossSteps(c, registry, s, at));
      && |w.saved| == 2 && !w.saved[0].replied && w.saved[1].replied
      && !ValidChain(w.book, Replied(w.saved), ReceiptPolicy(c), None)
  {
    SecondDelivered(c, registry, s, at);
    hide Run, LossSteps, ValidChain;
    RepliedChainIff(c, registry, LossSteps(c, registry, s, at));
  }

  lemma SecondDelivered(c: Config, registry: CapabilityRegistry, s: Scenario, at: Time)
    requires Completes(c, registry, s)
    ensures var w := Run(c, registry, LossSteps(c, registry, s, at));
      |w.saved| == 2 && !w.saved[0].replied && w.saved[1].replied
  {
    hide Run, DeliverySteps, Evaluate, PermitEnvelope, ResultEnvelope, VerifierSign, VerifierStore, FinalReceipt;
    var a := DeliverySteps(c, registry, s, at);
    FirstStored(c, registry, s, at);
    RunsOn(c, registry, a, VerifierRestarts);
    var b := a + [VerifierRestarts];
    RunsOn(c, registry, b, Finalize(c, registry, s, at));
    RunsOn(c, registry, b + [Finalize(c, registry, s, at)], VerifierStores);
    RunsOn(c, registry, b + [Finalize(c, registry, s, at)] + [VerifierStores], VerifierReplies);
    var w := Run(c, registry, b);
    ReceiptMade(c, registry, s, w.book, w.chain, at);
    ReceiptStored(c, w, s.request, PermitEnvelope(c, registry, s), ResultEnvelope(c, registry, s, at), at, s.text);
  }
}
