/** What the receipts of the runtime tell of the calls they are made for. */
module RuntimeReceipts {
  import opened Envelopes
  import opened Gate
  import opened JsonValues
  import opened Records
  import opened ReviewBroker
  import opened Runtime
  import opened SignedReview

  /** A receipt tells its request, the registry, the decision that followed the lease, and what became of it: nothing
      without authority, the executor's result, or its error. */
  lemma ReceiptTellsCall(setup: Setup, book: Book, s: RuntimeState, call: RunCall)
    ensures var receipt := ReceiptOf(setup, book, s, call);
      var b, base := receipt.body, Evaluate(setup.glob, call.request, setup.registry);
      && b.requestId == call.request.requestId && b.capability == call.request.capability
      && b.action == call.request.action && b.resource == call.request.resource
      && b.registryId == setup.registry.registryId && b.registryVersion == setup.registry.version
      && b.createdAt == call.createdAt && b.previousReceiptHash == s.lastReceipt
      && receipt.receiptHash == Sha256(ReceiptHashBody(b))
      && Follows(setup, book, s, call.request, base, call.offer,
                 GateDecision(b.gate, b.gateReason, b.matchedGrantIds))
    ensures var b, reply := ReceiptOf(setup, book, s, call).body, call.reply;
      && (b.outcome == NOT_EXECUTED <==> b.gate != ALLOW)
      && (b.outcome == SUCCEEDED <==> b.gate == ALLOW && reply.Returned?)
      && (b.outcome == FAILED <==> b.gate == ALLOW && reply.Raised?)
      && b.result == (
           if b.gate != ALLOW then Obj([])
           else
             match reply
             case Returned(result) => result
             case Raised(errorType, reason) => Obj([Member("error", Str(errorType)), Member("reason", Str(reason))]))
  {
    hide Evaluate, SignedReply, RedeemReply;
  }

  /** The signed receipt carries the receipt, in the runtime's own name, and names the signed receipt before it. */
  lemma EnvelopeTellsReceipt(setup: Setup, book: Book, s: RuntimeState, call: RunCall, signedAt: Time, text: string)
    requires setup.signer.Some?
    ensures var e := EnvelopeOf(setup, book, s, call, signedAt, text);
      && e.view.payloadType == ActionReceiptType && e.view.payload == ReceiptPayload(ReceiptOf(setup, book, s, call))
      && e.view.payloadHash == Sha256(PayloadBody(e.view.payload))
      && e.view.signerId == setup.signer.value.subject && e.view.keyId == setup.signer.value.keyId
      && e.view.signedAt == signedAt && e.view.previous == s.lastSigned
      && e.signature == text && e.envelopeHash == Sha256(EnvelopeBody(e.view, text))
  {
    hide ReceiptOf;
  }

  /** A step of a run is what the method does: `Run` and `RunSigned` promise the same state, receipt and envelope, and
      calls of the broker change the broker only. */
  lemma StepIsTheCall(setup: Setup, book: Book, t: Trace, call: RunCall, signedAt: Time, text: string,
                      op: ReviewBroker.Call)
    ensures var u := Next(setup, book, t, Plain(call));
      if call.offer.leaseId.Some? && call.offer.envelope.Some? then u == t
      else
        && u.state == AfterRun(setup, book, t.state, call) && u.envelopes == t.envelopes
        && u.receipts == t.receipts + [ReceiptOf(setup, book, t.state, call)]
        && u.handled == t.handled + [Handled(call.request, TrialIn(setup, book, t.state, call))]
    ensures var u := Next(setup, book, t, Signed(call, signedAt, text));
      if setup.signer.None? || (call.offer.leaseId.Some? && call.offer.envelope.Some?) then u == t
      else
        var e := EnvelopeOf(setup, book, t.state, call, signedAt, text);
        && u.state == AfterRun(setup, book, t.state, call).(lastSigned := Some(e.envelopeHash))
        && u.envelopes == t.envelopes + [e]
        && u.receipts == t.receipts + [ReceiptOf(setup, book, t.state, call)]
        && u.handled == t.handled + [Handled(call.request, TrialIn(setup, book, t.state, call))]
    ensures setup.hasBroker ==>
      Next(setup, book, t, OnBroker(op)) == t.(state := t.state.(broker := ReviewBroker.After(t.state.broker, op)))
  {
    hide AfterRun, ReceiptOf, EnvelopeOf, ReviewBroker.After, TrialIn;
  }

  /** The receipt repeats its request and lists the grants that the gate matched; exactly when a lease released the
      request, one tag of the lease's store comes after them. */
  ghost predicate Told(setup: Setup, h: Handled, b: ReceiptBody) {
    var base := Evaluate(setup.glob, h.request, setup.registry);
    && b.requestId == h.request.requestId && b.capability == h.request.capability
    && b.action == h.request.action && b.resource == h.request.resource
    && b.registryId == setup.registry.registryId && b.registryVersion == setup.registry.version
    && match h.trial
       case TriedSigned(Released(id)) =>
         && base.verdict == REVIEW && b.gate == ALLOW && b.gateReason == SignedLeaseRedeemed
         && b.matchedGrantIds == base.matchedGrantIds + ["signed-review-lease:" + id]
       case TriedBroker(Released(id)) =>
         && base.verdict == REVIEW && b.gate == ALLOW && b.gateReason == LeaseRedeemed
         && b.matchedGrantIds == base.matchedGrantIds + ["review-lease:" + id]
       case _ => b.gate == base.verdict && b.matchedGrantIds == base.matchedGrantIds
  }

  lemma ReceiptTold(setup: Setup, book: Book, s: RuntimeState, call: RunCall)
    ensures Told(setup, Handled(call.request, TrialIn(setup, book, s, call)), ReceiptOf(setup, book, s, call).body)
  {
    hide Evaluate, SignedReply, RedeemReply;
  }

  /** In every run, every receipt tells the request and the lease it was made for. */
  lemma {:induction false} ReceiptsTellCalls(setup: Setup, book: Book, start: RuntimeState, steps: seq<Step>)
    ensures var t := RunSteps(setup, book, start, steps);
      && |t.handled| == |t.receipts|
      && forall i :: 0 <= i < |t.receipts| ==> Told(setup, t.handled[i], t.receipts[i].body)
  {
    hide AfterRun, ReceiptOf, EnvelopeOf, ReviewBroker.After, TrialIn, Told;
    if steps != [] {
      var init, last := steps[..|steps| - 1], steps[|steps| - 1];
      ReceiptsTellCalls(setup, book, start, init);
      if !last.OnBroker? {
        ReceiptTold(setup, book, RunSteps(setup, book, start, init).state, last.call);
      }
    }
  }
}
