/** The two stores of the runtime, broker and ledger, and the lease that is in both. */
module RuntimeStores {
  import opened Envelopes
  import opened Gate
  import opened JsonValues
  import opened Ledgers
  import opened Records
  import opened ReviewBroker
  import opened ReviewLeases
  import opened Runtime
  import opened SignedReview

  lemma RunOneMore(setup: Setup, book: Book, start: RuntimeState, steps: seq<Step>, step: Step)
    ensures RunSteps(setup, book, start, steps + [step]) == Next(setup, book, RunSteps(setup, book, start, steps), step)
  {
    hide Next;
    assert (steps + [step])[..|steps|] == steps;
  }

  lemma NoSteps(setup: Setup, book: Book, start: RuntimeState)
    ensures RunSteps(setup, book, start, []) == Trace(start, [], [], [])
  {
  }

  /** A release through the broker does not disturb the release of a further call through the signed authorizer. */
  lemma StoresCountSeparately(setup: Setup, book: Book, start: RuntimeState, viaBroker: RunCall, viaEnvelope: RunCall)
    requires !BothLeases(viaBroker) && !BothLeases(viaEnvelope)
    requires TrialIn(setup, book, start, viaBroker).TriedBroker? && ReleasedBy(TrialIn(setup, book, start, viaBroker))
    requires TrialIn(setup, book, start, viaEnvelope).TriedSigned?
    requires ReleasedBy(TrialIn(setup, book, start, viaEnvelope))
    ensures var t := RunSteps(setup, book, start, [Plain(viaBroker), Plain(viaEnvelope)]);
      && t.state.executed == start.executed + [viaBroker.request, viaEnvelope.request]
      && t.handled == [Handled(viaBroker.request, TrialIn(setup, book, start, viaBroker)),
                       Handled(viaEnvelope.request, TrialIn(setup, book, start, viaEnvelope))]
  {
    hide Evaluate, SignedReply, RedeemReply, SignedRows, Redeemed, RunSteps;
    var steps := [Plain(viaBroker), Plain(viaEnvelope)];
    RunOneMore(setup, book, start, [], Plain(viaBroker));
    RunOneMore(setup, book, start, [Plain(viaBroker)], Plain(viaEnvelope));
    assert [] + [Plain(viaBroker)] == [Plain(viaBroker)];
    assert [Plain(viaBroker)] + [Plain(viaEnvelope)] == steps;
    NoSteps(setup, book, start);
  }

  /** The lease releases the request under the gate's own decision. */
  predicate InForce(setup: Setup, lease: ReviewLease, request: ActionRequest, at: Time) {
    Releases(lease, request, Evaluate(setup.glob, request, setup.registry), at)
  }

  /** The calls that try the two forms of one lease. */
  function ViaBroker(known: KnownLease, request: ActionRequest, at: Time): RunCall {
    RunCall(request, Offer(Some(known.lease.leaseId), None, at), at, Returned(Null))
  }

  function ViaEnvelope(known: KnownLease, request: ActionRequest, at: Time): RunCall {
    RunCall(request, Offer(None, Some(known.envelope), at), at, Returned(Null))
  }

  /** One lease, known to the broker and honestly signed, unused in both stores and in force for one request: the
      request is executed twice on it. */
  lemma LeaseKnownToBothReleasesTwice(setup: Setup, book: Book, start: RuntimeState, known: KnownLease,
                                      request: ActionRequest, at: Time, later: Time)
    requires setup.hasBroker && setup.trust.Some? && KeyedById(start.broker.leases)
    requires HonestlySigned(book, setup.trust.value, known) && AgreeOn(start.broker, start.rows, known)
    requires Fresh(start.rows, known.lease.leaseId, known.envelope.envelopeHash)
    requires InForce(setup, known.lease, request, at) && InForce(setup, known.lease, request, later)
    ensures var id := known.lease.leaseId;
      var steps := [Plain(ViaBroker(known, request, at)), Plain(ViaEnvelope(known, request, later))];
      var t := RunSteps(setup, book, start, steps);
      && t.handled == [Handled(request, TriedBroker(Released(id))), Handled(request, TriedSigned(Released(id)))]
      && t.state.executed == start.executed + [request, request]
  {
    hide Evaluate, RunSteps;
    var base := Evaluate(setup.glob, request, setup.registry);
    BrokerReleaseIff(start.broker, known.lease.leaseId, request, base, at);
    ReleasedId(start.broker, known.lease.leaseId, request, base, at);
    SignedReleaseIff(book, setup.trust.value, start.rows, known.envelope, request, base, later);
    StoresCountSeparately(setup, book, start, ViaBroker(known, request, at), ViaEnvelope(known, request, later));
  }

  /** The broker has an unspent lease of the id that is in force for some request at some time. */
  ghost predicate BrokerHolds(setup: Setup, s: RuntimeState, id: string) {
    && setup.hasBroker && id in s.broker.leases && id !in s.broker.cancelled && !Spent(s.broker, id)
    && exists request, at :: InForce(setup, s.broker.leases[id], request, at)
  }

  /** A trusted reviewer has signed a lease of the id that the ledger still takes and that is in force. */
  ghost predicate LedgerTakes(setup: Setup, book: Book, s: RuntimeState, id: string) {
    && setup.trust.Some?
    && exists known, request, at ::
         && HonestlySigned(book, setup.trust.value, known) && known.lease.leaseId == id
         && Fresh(s.rows, id, known.envelope.envelopeHash)
         && InForce(setup, known.lease, request, at)
  }

  /** What one release rests on. */
  ghost predicate Held(setup: Setup, book: Book, s: RuntimeState, trial: Trial)
    requires ReleasedBy(trial)
  {
    if trial.TriedBroker? then BrokerHolds(setup, s, trial.reply.leaseId)
    else LedgerTakes(setup, book, s, trial.reply.leaseId)
  }

  lemma ReleaseIsHeld(setup: Setup, book: Book, s: RuntimeState, call: RunCall)
    requires KeyedById(s.broker.leases) && ReleasedBy(TrialIn(setup, book, s, call))
    ensures Held(setup, book, s, TrialIn(setup, book, s, call))
  {
    hide Evaluate;
    var base := Evaluate(setup.glob, call.request, setup.registry);
    match TrialIn(setup, book, s, call) {
      case TriedBroker(_) =>
        var id := call.offer.leaseId.value;
        BrokerReleaseIff(s.broker, id, call.request, base, call.offer.at);
        ReleasedId(s.broker, id, call.request, base, call.offer.at);
        assert InForce(setup, s.broker.leases[id], call.request, call.offer.at);
      case TriedSigned(reply) =>
        var envelope := call.offer.envelope.value;
        SignedReleaseIff(book, setup.trust.value, s.rows, envelope, call.request, base, call.offer.at);
        var known := KnownLease(envelope.view.payload.lease, envelope);
        assert HonestlySigned(book, setup.trust.value, known);
        assert InForce(setup, known.lease, call.request, call.offer.at);
      case _ =>
    }
  }

  /** What calls of the runtime alone lead to: the broker's leases stay, and nothing spent comes back. */
  ghost predicate Later(s: RuntimeState, t: RuntimeState) {
    && t.broker.leases == s.broker.leases && t.broker.cancelled == s.broker.cancelled
    && (forall id :: Spent(s.broker, id) ==> Spent(t.broker, id))
    && (forall id :: id in s.rows ==> id in t.rows && t.rows[id] == s.rows[id])
  }

  lemma HeldEarlier(setup: Setup, book: Book, s: RuntimeState, t: RuntimeState, trial: Trial)
    requires Later(s, t) && ReleasedBy(trial) && Held(setup, book, t, trial)
    ensures Held(setup, book, s, trial)
  {
    hide InForce, HonestlySigned;
    if trial.TriedSigned? {
      var id := trial.reply.leaseId;
      var known, request, at :|
        && HonestlySigned(book, setup.trust.value, known) && known.lease.leaseId == id
        && Fresh(t.rows, id, known.envelope.envelopeHash) && InForce(setup, known.lease, request, at);
      assert Fresh(s.rows, id, known.envelope.envelopeHash);
    }
  }

  lemma RunIsLater(setup: Setup, book: Book, s: RuntimeState, call: RunCall)
    requires KeyedById(s.broker.leases)
    ensures Later(s, AfterRun(setup, book, s, call))
  {
    hide Evaluate, SignedRows, SignedReply, Redeemed, RedeemReply, KeyedById, ReceiptOf, DecisionIn;
    var base := Evaluate(setup.glob, call.request, setup.registry);
    match TrialIn(setup, book, s, call) {
      case TriedSigned(_) =>
        RowsOnlyGrow(book, setup.trust.value, s.rows, call.offer.envelope.value, call.request, base, call.offer.at);
      case TriedBroker(_) =>
        if !BothLeases(call) {
          RedeemEffect(s.broker, call.offer.leaseId.value, call.request, base, call.offer.at);
          RedeemedRecords(s.broker, call.offer.leaseId.value, call.request, base, call.offer.at);
        }
      case _ =>
    }
  }

  lemma RowsOnlyGrow(book: Book, trust: TrustStore, rows: Table, envelope: SignedEnvelope, request: ActionRequest,
                     base: GateDecision, now: Time)
    ensures var rows' := SignedRows(book, trust, rows, envelope, request, base, now);
      forall id :: id in rows ==> id in rows' && rows'[id] == rows[id]
  {
    hide CheckLease;
  }

  predicate RuntimeOnly(steps: seq<Step>) {
    forall step :: step in steps ==> !step.OnBroker?
  }

  /** Whatever a run of the runtime releases was held at its start. */
  lemma {:induction false} ReleasesWereHeld(setup: Setup, book: Book, start: RuntimeState, steps: seq<Step>)
    requires KeyedById(start.broker.leases) && RuntimeOnly(steps)
    ensures var t := RunSteps(setup, book, start, steps);
      && Later(start, t.state)
      && forall i :: 0 <= i < |t.handled| && ReleasedBy(t.handled[i].trial) ==>
           Held(setup, book, start, t.handled[i].trial)
  {
    hide AfterRun, ReceiptOf, EnvelopeOf, TrialIn, KeyedById, Held;
    if steps != [] {
      var init, last := steps[..|steps| - 1], steps[|steps| - 1];
      assert last in steps;
      ReleasesWereHeld(setup, book, start, init);
      var t := RunSteps(setup, book, start, init);
      RunIsLater(setup, book, t.state, last.call);
      var trial := TrialIn(setup, book, t.state, last.call);
      if ReleasedBy(trial) {
        ReleaseIsHeld(setup, book, t.state, last.call);
        HeldEarlier(setup, book, start, t.state, trial);
      }
    }
  }

  /** Two of the calls released the lease id. */
  ghost predicate ReleasedTwice(handled: seq<Handled>, id: string) {
    exists i, j :: 0 <= i < j < |handled| && Frees(handled[i].trial, id) && Frees(handled[j].trial, id)
  }

  predicate Frees(trial: Trial, id: string) {
    ReleasedBy(trial) && trial.reply.leaseId == id
  }

  /** Two calls that release one id have done so through different stores, whatever else ran. */
  lemma TwiceThroughBothStores(setup: Setup, book: Book, start: RuntimeState, steps: seq<Step>, id: string, i: nat,
                               j: nat)
    requires KeyedById(start.broker.leases) && i < j < |RunSteps(setup, book, start, steps).handled|
    requires Frees(RunSteps(setup, book, start, steps).handled[i].trial, id)
    requires Frees(RunSteps(setup, book, start, steps).handled[j].trial, id)
    ensures var handled := RunSteps(setup, book, start, steps).handled;
      handled[i].trial.TriedBroker? <==> handled[j].trial.TriedSigned?
  {
    NoLeaseReleasesTwice(setup, book, start, steps);
    hide RunSteps;
  }

  /** The runtime can release one lease id twice exactly when the broker holds an unspent lease of that id in force and
      the ledger takes another one. */
  lemma ReleasedTwiceIff(setup: Setup, book: Book, start: RuntimeState, id: string)
    requires KeyedById(start.broker.leases)
    ensures (exists steps :: RuntimeOnly(steps) && ReleasedTwice(RunSteps(setup, book, start, steps).handled, id))
      <==> BrokerHolds(setup, start, id) && LedgerTakes(setup, book, start, id)
  {
    if exists steps :: RuntimeOnly(steps) && ReleasedTwice(RunSteps(setup, book, start, steps).handled, id) {
      var steps :| RuntimeOnly(steps) && ReleasedTwice(RunSteps(setup, book, start, steps).handled, id);
      TwiceNeedsBoth(setup, book, start, steps, id);
    }
    if BrokerHolds(setup, start, id) && LedgerTakes(setup, book, start, id) {
      var steps := BothReleaseTwice(setup, book, start, id);
    }
  }

  lemma TwiceNeedsBoth(setup: Setup, book: Book, start: RuntimeState, steps: seq<Step>, id: string)
    requires KeyedById(start.broker.leases) && RuntimeOnly(steps)
    requires ReleasedTwice(RunSteps(setup, book, start, steps).handled, id)
    ensures BrokerHolds(setup, start, id) && LedgerTakes(setup, book, start, id)
  {
    var handled := RunSteps(setup, book, start, steps).handled;
    var i, j :| 0 <= i < j < |handled| && Frees(handled[i].trial, id) && Frees(handled[j].trial, id);
    TwiceThroughBothStores(setup, book, start, steps, id, i, j);
    ReleasesWereHeld(setup, book, start, steps);
    hide RunSteps, BrokerHolds, LedgerTakes;
    assert Held(setup, book, start, handled[i].trial) && Held(setup, book, start, handled[j].trial);
  }

  lemma BothReleaseTwice(setup: Setup, book: Book, start: RuntimeState, id: string) returns (steps: seq<Step>)
    requires KeyedById(start.broker.leases)
    requires BrokerHolds(setup, start, id) && LedgerTakes(setup, book, start, id)
    ensures RuntimeOnly(steps) && ReleasedTwice(RunSteps(setup, book, start, steps).handled, id)
  {
    hide Evaluate, RunSteps, HonestlySigned;
    var lease := start.broker.leases[id];
    var request, at :| InForce(setup, lease, request, at);
    var known, request', at' :|
      && HonestlySigned(book, setup.trust.value, known) && known.lease.leaseId == id
      && Fresh(start.rows, id, known.envelope.envelopeHash) && InForce(setup, known.lease, request', at');
    var viaBroker, viaEnvelope := ViaBroker(known, request, at), ViaEnvelope(known, request', at');
    BrokerReleaseIff(start.broker, id, request, Evaluate(setup.glob, request, setup.registry), at);
    ReleasedId(start.broker, id, request, Evaluate(setup.glob, request, setup.registry), at);
    EnvelopeReleases(setup, book, start, known, request', at');
    StoresCountSeparately(setup, book, start, viaBroker, viaEnvelope);
    steps := [Plain(viaBroker), Plain(viaEnvelope)];
    var handled := RunSteps(setup, book, start, steps).handled;
    assert Frees(handled[0].trial, id) && Frees(handled[1].trial, id);
  }

  lemma EnvelopeReleases(setup: Setup, book: Book, s: RuntimeState, known: KnownLease, request: ActionRequest, at: Time)
    requires setup.trust.Some? && HonestlySigned(book, setup.trust.value, known)
    requires Fresh(s.rows, known.lease.leaseId, known.envelope.envelopeHash) && InForce(setup, known.lease, request, at)
    ensures TrialIn(setup, book, s, ViaEnvelope(known, request, at)) == TriedSigned(Released(known.lease.leaseId))
  {
    hide Evaluate;
    SignedReleaseIff(book, setup.trust.value, s.rows, known.envelope, request,
                     Evaluate(setup.glob, request, setup.registry), at);
  }
}
