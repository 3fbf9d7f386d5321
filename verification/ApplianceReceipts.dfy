/** Every receipt that anybody can verify is true, whether or not the verifier got to store it. */
module ApplianceReceipts {
  import opened Appliance
  import opened ApplianceInvariant
  import opened ApplianceRun
  import opened ApplianceSteps
  import opened ApplianceTheorems
  import opened Envelopes
  import opened Gate
  import opened Receipts
  import opened Records

  /** The view is of a receipt that tells a dispatch and the decision behind it. */
  ghost predicate ViewOfTruth(permits: seq<PermitIssue>, dispatches: seq<Dispatch>, view: SignatureView) {
    view.payload.ReceiptPayload? && exists request :: Truthful(permits, dispatches, request, view.payload.receipt)
  }

  /** What a service key has signed as a receipt is one. */
  ghost predicate SignedReceiptsOk(c: Config, w: World) {
    forall s :: s in w.book && s.keyId in c.serviceKeys && s.view.payloadType == ActionReceiptType ==>
      ViewOfTruth(w.permits, w.dispatches, s.view)
  }

  lemma TruthStays(permits: seq<PermitIssue>, permits': seq<PermitIssue>, dispatches: seq<Dispatch>,
                   dispatches': seq<Dispatch>, view: SignatureView)
    requires permits <= permits' && dispatches <= dispatches' && ViewOfTruth(permits, dispatches, view)
    ensures ViewOfTruth(permits', dispatches', view)
  {
    var request :| Truthful(permits, dispatches, request, view.payload.receipt);
    TruthfulGrows(permits, permits', dispatches, dispatches', request, view.payload.receipt);
  }

  lemma HistoriesGrow(c: Config, w: World, step: Step)
    ensures w.permits <= Next(c, w, step).permits && w.dispatches <= Next(c, w, step).dispatches
  {
    hide Evaluate, TryLease, RowsAfterTry, FinalReceipt, PermitGranted, RowsAfterPermit, ApproveReview, SignPermit,
         Decide, SignResult, NewPermit;
  }

  /** Where a signature can come from: it was there, with whatever text, nobody's service key made it, it is of a lease,
      permit or result, or the verifier has just made it. */
  ghost predicate Known(c: Config, w: World, w': World, s: Signature) {
    || (exists t :: t in w.book && t.keyId == s.keyId && t.view == s.view)
    || s.keyId !in c.serviceKeys
    || s.view.payloadType != ActionReceiptType
    || (w'.verifier.Signed? && s == SignatureOf(w'.verifier.made.envelope))
  }

  lemma SignaturesKnown(c: Config, w: World, step: Step, s: Signature)
    requires s in Next(c, w, step).book
    ensures Known(c, w, Next(c, w, step), s)
  {
    hide Evaluate, TryLease, RowsAfterTry, FinalReceipt, PermitGranted, RowsAfterPermit, Decide, NewPermit;
    if s in w.book {
      assert s.keyId == s.keyId && s.view == s.view;
    }
  }

  lemma {:induction false} SignedReceiptsAreTrue(c: Config, registry: CapabilityRegistry, steps: seq<Step>)
    requires Separated(c)
    ensures SignedReceiptsOk(c, Run(c, registry, steps))
  {
    if |steps| > 0 {
      var init, last := steps[..|steps| - 1], steps[|steps| - 1];
      SignedReceiptsAreTrue(c, registry, init);
      RunKeeps(c, registry, steps);
      HistoriesGrow(c, Run(c, registry, init), last);
      OneMoreStep(c, Run(c, registry, init), last);
    }
  }

  lemma OneMoreStep(c: Config, w: World, step: Step)
    requires SignedReceiptsOk(c, w)
    requires var w' := Next(c, w, step);
      VerifierOk(c, w'.book, w'.permits, w'.dispatches, w'.chain, w'.verifier)
    requires w.permits <= Next(c, w, step).permits && w.dispatches <= Next(c, w, step).dispatches
    ensures SignedReceiptsOk(c, Next(c, w, step))
  {
    var w' := Next(c, w, step);
    forall s | s in w'.book && s.keyId in c.serviceKeys && s.view.payloadType == ActionReceiptType
      ensures ViewOfTruth(w'.permits, w'.dispatches, s.view)
    {
      SignaturesKnown(c, w, step, s);
      hide Next, Truthful;
      if t :| t in w.book && t.keyId == s.keyId && t.view == s.view {
        TruthStays(w.permits, w'.permits, w.dispatches, w'.dispatches, t.view);
      } else {
        assert SignedReceipt(c, w'.book, w'.verifier.made.receipt, w'.verifier.made.envelope);
        assert Truthful(w'.permits, w'.dispatches, w'.verifier.request, w'.verifier.made.receipt);
      }
    }
  }

  /** Whoever verifies an envelope as a receipt holds the truth: the request was dispatched, with the outcome and output
      told, and the gate had decided it with the reason, grant ids and registry told. */
  lemma VerifiableReceiptsAreTrue(c: Config, registry: CapabilityRegistry, steps: seq<Step>, e: SignedEnvelope)
    returns (request: ActionRequest, p: PermitIssue, d: Dispatch)
    requires Separated(c) && OnlyServiceKeys(c.serviceKeys, c.publicTrust, ReceiptSigner)
    requires Accepted(Run(c, registry, steps).book, e, ReceiptPolicy(c))
    ensures var w := Run(c, registry, steps);
      && d in w.dispatches && Behind(w, p, d) && d.request == request && HasAuthority(c, w, request, p)
      && e.view.payload.ReceiptPayload?
    ensures var receipt := e.view.payload.receipt;
      var b := receipt.body;
      && b.requestId == request.requestId && b.capability == request.capability
      && b.action == request.action && b.resource == request.resource
      && (b.outcome == SUCCEEDED <==> d.observed.Returned?) && (b.outcome == FAILED <==> d.observed.Raised?)
      && (match d.observed case Returned(output) => b.result == output case Raised(error) => b.result == error)
      && b.gate == ALLOW == p.decision.verdict && b.gateReason == p.decision.reason
      && b.matchedGrantIds == p.decision.matchedGrantIds
      && b.registryId == p.registry.registryId && b.registryVersion == p.registry.version
      && receipt.receiptHash == Sha256(ReceiptHashBody(b))
  {
    var w := Run(c, registry, steps);
    RunKeeps(c, registry, steps);
    SignedReceiptsAreTrue(c, registry, steps);
    hide Run, Evaluate, LeasesOk, RedemptionsOk, PermitsOk, GateOk, BookOk, DispatchesOk, ExecutorOk, ResultsOk,
         SavedOk, VerifierOk;
    assert SignatureOf(e) in w.book && ViewOfTruth(w.permits, w.dispatches, e.view);
    request :| Truthful(w.permits, w.dispatches, request, e.view.payload.receipt);
    p, d :| p in w.permits && d in w.dispatches && Tells(request, e.view.payload.receipt, p, d);
    PermitHasAuthority(c, w, p);
  }
}
