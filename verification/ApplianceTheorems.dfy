/** What holds after every run of the appliance, whatever the clients send, wherever services stop and whatever the
    clocks read. */
module ApplianceTheorems {
  import opened Appliance
  import opened ApplianceInvariant
  import opened ApplianceRun
  import opened ApplianceSteps
  import opened Envelopes
  import opened Gate
  import opened Receipts
  import opened Records
  import opened ReviewLeases

  // ----- At most once ---------------------------------------------------------------------------

  /** No permit id is dispatched twice. */
  lemma DispatchedAtMostOnce(c: Config, registry: CapabilityRegistry, steps: seq<Step>)
    requires Separated(c)
    ensures var d := Run(c, registry, steps).dispatches;
      forall i, j :: 0 <= i < j < |d| ==> d[i].permitId != d[j].permitId
  {
    RunKeeps(c, registry, steps);
  }

  // ----- Authority ------------------------------------------------------------------------------

  /** The registries the gate has loaded in the run. */
  ghost predicate Loaded(registry: CapabilityRegistry, steps: seq<Step>, r: CapabilityRegistry) {
    r == registry || exists i :: 0 <= i < |steps| && steps[i] == GateRestarts(r)
  }

  /** The gate evaluated this very request under the registry it had loaded: as ALLOW, which is the decision, or as
      REVIEW with a lease for it, signed by the review signer for this request, carrying the same ordered grant ids, and
      in force when it was consumed.  The decision then lists the reviewed grants, and after them the lease. */
  ghost predicate HasAuthority(c: Config, w: World, request: ActionRequest, p: PermitIssue) {
    var base := Evaluate(c.glob, request, p.registry);
    && p.request == request && p.base == base
    && match p.redemption
       case None => base.verdict == ALLOW && p.decision == base
       case Some(r) =>
         && base.verdict == REVIEW && r.request == request
         && r.lease.reviewGrantIds == base.matchedGrantIds
         && r.lease.issuedAt <= r.at < r.lease.expiresAt
         && SignedFor(w.leases, r.lease, request)
         && p.decision.verdict == ALLOW && p.decision.reason == SignedLeaseRedeemed
         && p.decision.matchedGrantIds == base.matchedGrantIds + ["signed-review-lease:" + r.lease.leaseId]
  }

  lemma PermitHasAuthority(c: Config, w: World, p: PermitIssue)
    requires Inv(c, w) && p in w.permits
    ensures HasAuthority(c, w, p.request, p)
  {
    hide Evaluate, NewPermit, GateOk, BookOk, DispatchesOk, ExecutorOk, ResultsOk, SavedOk, VerifierOk, SignedFor;
    assert PermitIssueOk(c, w.redemptions, p);
    if p.redemption.Some? {
      var j :| 0 <= j < |w.redemptions| && w.redemptions[j] == p.redemption.value;
      assert RedemptionOk(w.reviewRows, w.leases, w.redemptions[j]);
    }
  }

  /** The permit issue that a dispatch rests on. */
  ghost predicate Behind(w: World, p: PermitIssue, d: Dispatch) {
    p in w.permits && p.view == d.permit.view && p.request == d.request
  }

  lemma PermitBehind(c: Config, w: World, d: Dispatch) returns (p: PermitIssue)
    requires Inv(c, w) && d in w.dispatches
    ensures Behind(w, p, d) && PermitIssueOk(c, w.redemptions, p)
    ensures p.permit.permitId == d.permitId && p.permit.issuedAt <= d.acceptedAt < p.permit.expiresAt
  {
    var i :| 0 <= i < |w.dispatches| && w.dispatches[i] == d;
    assert DispatchOk(w.permitRows, w.permits, w.dispatches[i]);
    p :| p in w.permits && p.view == d.permit.view && p.request == d.request;
    assert PermitIssueOk(c, w.redemptions, p);
  }

  lemma {:induction false} RegistriesLoaded(c: Config, registry: CapabilityRegistry, steps: seq<Step>)
    ensures var w := Run(c, registry, steps);
      && Loaded(registry, steps, w.registry)
      && forall p :: p in w.permits ==> Loaded(registry, steps, p.registry)
  {
    if |steps| > 0 {
      var init, last := steps[..|steps| - 1], steps[|steps| - 1];
      RegistriesLoaded(c, registry, init);
      LoadedGrows(registry, steps);
      var w, w' := Run(c, registry, init), Run(c, registry, steps);
      NextPermits(c, w, last);
      if last.GateRestarts? {
        assert steps[|steps| - 1] == GateRestarts(last.registry);
      }
    }
  }

  lemma LoadedGrows(registry: CapabilityRegistry, steps: seq<Step>)
    requires |steps| > 0
    ensures forall r :: Loaded(registry, steps[..|steps| - 1], r) ==> Loaded(registry, steps, r)
  {
    var init := steps[..|steps| - 1];
    forall r | Loaded(registry, init, r)
      ensures Loaded(registry, steps, r)
    {
      if r != registry {
        var i :| 0 <= i < |init| && init[i] == GateRestarts(r);
        assert steps[i] == GateRestarts(r);
      }
    }
  }

  lemma NextPermits(c: Config, w: World, step: Step)
    ensures Next(c, w, step).registry == if step.GateRestarts? then step.registry else w.registry
    ensures forall p :: p in Next(c, w, step).permits ==> p in w.permits || p.registry == w.registry
  {
    hide Evaluate, TryLease, RowsAfterTry, FinalReceipt, PermitGranted, RowsAfterPermit, ApproveReview, SignPermit;
  }

  /** Every dispatch has authority under a registry that the gate had loaded. */
  lemma DispatchHasAuthority(c: Config, registry: CapabilityRegistry, steps: seq<Step>, d: Dispatch)
    returns (p: PermitIssue)
    requires Separated(c) && d in Run(c, registry, steps).dispatches
    ensures var w := Run(c, registry, steps);
      && Behind(w, p, d) && p.permit.permitId == d.permitId
      && HasAuthority(c, w, d.request, p)
      && Loaded(registry, steps, p.registry)
  {
    var w := Run(c, registry, steps);
    RunKeeps(c, registry, steps);
    RegistriesLoaded(c, registry, steps);
    p := PermitBehind(c, w, d);
    PermitHasAuthority(c, w, p);
  }

  /** What every loaded registry denies is never dispatched, whatever base decision the review signer was told. */
  lemma DeniedNeverDispatched(c: Config, registry: CapabilityRegistry, steps: seq<Step>, request: ActionRequest)
    requires Separated(c)
    requires forall r :: Loaded(registry, steps, r) ==> Evaluate(c.glob, request, r).verdict == DENY
    ensures forall d :: d in Run(c, registry, steps).dispatches ==> d.request != request
  {
    forall d | d in Run(c, registry, steps).dispatches
      ensures d.request != request
    {
      if d.request == request {
        var p := DispatchHasAuthority(c, registry, steps, d);
      }
    }
  }

  // ----- Accounting -----------------------------------------------------------------------------

  /** The ids of the leases that were signed for the request. */
  ghost function SignedIds(w: World, request: ActionRequest): set<string> {
    set l | l in w.leases && l.request == request :: l.lease.leaseId
  }

  /** The ids of the leases that the gate consumed for the request. */
  ghost function RedeemedIds(w: World, request: ActionRequest): set<string> {
    set r | r in w.redemptions && r.request == request :: r.lease.leaseId
  }

  /** The ids of the leases that permits for the request rest on. */
  ghost function PermittedIds(w: World, request: ActionRequest): set<string> {
    set p | p in w.permits && p.request == request && p.redemption.Some? :: p.redemption.value.lease.leaseId
  }

  /** The dispatch of the request rests on a permit that the lease released. */
  ghost predicate ReleasedByLease(w: World, request: ActionRequest, d: Dispatch, leaseId: string) {
    && d.request == request
    && exists p :: Behind(w, p, d) && p.redemption.Some? && p.redemption.value.lease.leaseId == leaseId
  }

  ghost predicate Released(w: World, request: ActionRequest, i: int) {
    0 <= i < |w.dispatches| && exists id :: ReleasedByLease(w, request, w.dispatches[i], id)
  }

  /** The positions of the dispatches of the request that leases released. */
  ghost function LeaseDispatches(w: World, request: ActionRequest): set<int> {
    set i | 0 <= i < |w.dispatches| && Released(w, request, i)
  }

  /** A lease is behind one permit only. */
  lemma OneLeaseOnePermit(c: Config, w: World, p: PermitIssue, q: PermitIssue)
    requires Inv(c, w) && p in w.permits && q in w.permits
    requires p.redemption.Some? && q.redemption.Some?
    requires p.redemption.value.lease.leaseId == q.redemption.value.lease.leaseId
    ensures p == q
  {
    hide PermitIssueOk, GateOk, BookOk, DispatchesOk, ExecutorOk, ResultsOk, SavedOk, VerifierOk, RedemptionsOk;
    var i :| 0 <= i < |w.permits| && w.permits[i] == p;
    var j :| 0 <= j < |w.permits| && w.permits[j] == q;
    assert !OtherLease(p.redemption, q.redemption);
  }

  /** A lease releases at most one dispatch. */
  lemma OneLeaseOneDispatch(c: Config, w: World, request: ActionRequest, i: int, j: int, id: string)
    requires Inv(c, w) && 0 <= i < |w.dispatches| && 0 <= j < |w.dispatches|
    requires ReleasedByLease(w, request, w.dispatches[i], id) && ReleasedByLease(w, request, w.dispatches[j], id)
    ensures i == j
  {
    var p :| Behind(w, p, w.dispatches[i]) && p.redemption.Some? && p.redemption.value.lease.leaseId == id;
    var q :| Behind(w, q, w.dispatches[j]) && q.redemption.Some? && q.redemption.value.lease.leaseId == id;
    OneLeaseOnePermit(c, w, p, q);
    assert DispatchOk(w.permitRows, w.permits, w.dispatches[i]);
    assert DispatchOk(w.permitRows, w.permits, w.dispatches[j]);
    assert w.dispatches[i].permitId == w.dispatches[j].permitId;
  }

  lemma PermittedWereRedeemed(c: Config, w: World, request: ActionRequest)
    requires PermitsOk(c, w.redemptions, w.permits)
    ensures PermittedIds(w, request) <= RedeemedIds(w, request)
  {
    hide Evaluate, NewPermit;
    forall id | id in PermittedIds(w, request)
      ensures id in RedeemedIds(w, request)
    {
      var p :| p in w.permits && p.request == request && p.redemption.Some? && p.redemption.value.lease.leaseId == id;
      assert PermitIssueOk(c, w.redemptions, p);
      assert p.redemption.value in w.redemptions;
    }
  }

  lemma RedeemedWereSigned(w: World, request: ActionRequest)
    requires RedemptionsOk(w.reviewRows, w.leases, w.redemptions)
    ensures RedeemedIds(w, request) <= SignedIds(w, request)
  {
    forall id | id in RedeemedIds(w, request)
      ensures id in SignedIds(w, request)
    {
      var r :| r in w.redemptions && r.request == request && r.lease.leaseId == id;
      var j :| 0 <= j < |w.redemptions| && w.redemptions[j] == r;
      assert RedemptionOk(w.reviewRows, w.leases, w.redemptions[j]);
      var l :| l in w.leases && l.lease == r.lease && l.request == request;
    }
  }

  lemma ReleasedIdIsPermitted(w: World, request: ActionRequest, d: Dispatch, id: string)
    requires ReleasedByLease(w, request, d, id)
    ensures id in PermittedIds(w, request)
  {
    var p :| Behind(w, p, d) && p.redemption.Some? && p.redemption.value.lease.leaseId == id;
  }

  lemma Member<T>(s: set<T>) returns (x: T)
    requires s != {}
    ensures x in s
  {
    x :| x in s;
  }

  lemma {:induction false} Counted(c: Config, w: World, request: ActionRequest, at: set<int>, ids: set<string>)
    requires Inv(c, w)
    requires forall i :: i in at ==> Released(w, request, i)
    requires forall i, id :: i in at && 0 <= i < |w.dispatches| && ReleasedByLease(w, request, w.dispatches[i], id) ==>
      id in ids
    ensures |at| <= |ids|
  {
    hide Inv, ReleasedByLease;
    if at != {} {
      var i := Member(at);
      var id :| ReleasedByLease(w, request, w.dispatches[i], id);
      forall j | j in at - {i}
        ensures !ReleasedByLease(w, request, w.dispatches[j], id)
      {
        if ReleasedByLease(w, request, w.dispatches[j], id) {
          OneLeaseOneDispatch(c, w, request, i, j, id);
        }
      }
      Counted(c, w, request, at - {i}, ids - {id});
    }
  }

  /** For every request: dispatches released by leases <= leases behind permits <= leases consumed <= leases signed for
      exactly that request. */
  lemma DispatchesCounted(c: Config, registry: CapabilityRegistry, steps: seq<Step>, request: ActionRequest)
    requires Separated(c)
    ensures var w := Run(c, registry, steps);
      && |LeaseDispatches(w, request)| <= |PermittedIds(w, request)| <= |RedeemedIds(w, request)|
         <= |SignedIds(w, request)|
      && PermittedIds(w, request) <= RedeemedIds(w, request) <= SignedIds(w, request)
  {
    hide PermittedIds, RedeemedIds, SignedIds, ReleasedByLease;
    var w := Run(c, registry, steps);
    RunKeeps(c, registry, steps);
    PermittedWereRedeemed(c, w, request);
    RedeemedWereSigned(w, request);
    SubsetSize(PermittedIds(w, request), RedeemedIds(w, request));
    SubsetSize(RedeemedIds(w, request), SignedIds(w, request));
    forall i, id | i in LeaseDispatches(w, request) && ReleasedByLease(w, request, w.dispatches[i], id)
      ensures id in PermittedIds(w, request)
    {
      ReleasedIdIsPermitted(w, request, w.dispatches[i], id);
    }
    Counted(c, w, request, LeaseDispatches(w, request), PermittedIds(w, request));
  }

  lemma SubsetSize(a: set<string>, b: set<string>)
    requires a <= b
    ensures |a| <= |b|
  {
    assert b == a + (b - a);
  }

  // ----- Time -----------------------------------------------------------------------------------

  lemma LeaseTtl(c: Config, w: World, p: PermitIssue)
    requires LeasesOk(w.leases) && HasAuthority(c, w, p.request, p) && p.redemption.Some?
    ensures var r := p.redemption.value;
      && 0 < r.lease.expiresAt - r.lease.issuedAt <= MAX_LEASE_TTL * SECOND
      && r.lease.issuedAt <= r.at < r.lease.expiresAt
  {
    hide Evaluate;
    var l :| l in w.leases && l.lease == p.redemption.value.lease && l.request == p.request;
    assert LeaseIssueOk(l);
  }

  lemma PermitTtl(c: Config, w: World, p: PermitIssue)
    requires PermitIssueOk(c, w.redemptions, p)
    ensures p.permit.expiresAt == p.permit.issuedAt + c.permitTtl * SECOND && 1 <= c.permitTtl <= MAX_PERMIT_TTL
  {
    hide Evaluate, Authorized;
  }

  /** A dispatch that a lease released was accepted less than lease ttl + permit ttl after the lease was issued, plus
      the time that the gate's clock went on between consuming the lease and stamping the permit; and not before the
      lease was issued, unless that clock went back. */
  lemma TimeComposes(c: Config, registry: CapabilityRegistry, steps: seq<Step>, d: Dispatch, p: PermitIssue)
    requires Separated(c) && d in Run(c, registry, steps).dispatches
    requires Behind(Run(c, registry, steps), p, d) && p.redemption.Some?
    ensures var lease, redeemed, stamped := p.redemption.value.lease, p.redemption.value.at, p.permit.issuedAt;
      && stamped - redeemed <= d.acceptedAt - lease.issuedAt
         < (lease.expiresAt - lease.issuedAt) + c.permitTtl * SECOND + (stamped - redeemed)
      && lease.expiresAt - lease.issuedAt <= MAX_LEASE_TTL * SECOND && c.permitTtl <= MAX_PERMIT_TTL
  {
    var w := Run(c, registry, steps);
    RunKeeps(c, registry, steps);
    hide Run, NewPermit, Evaluate, RedemptionsOk, PermitsOk, GateOk, BookOk, DispatchesOk, ExecutorOk, ResultsOk,
         SavedOk, VerifierOk;
    var q := PermitBehind(c, w, d);
    PermitHasAuthority(c, w, p);
    LeaseTtl(c, w, p);
    PermitIssues(c, w, p);
    PermitTtl(c, w, p);
    PermitTtl(c, w, q);
  }

  lemma PermitIssues(c: Config, w: World, p: PermitIssue)
    requires Inv(c, w) && p in w.permits
    ensures PermitIssueOk(c, w.redemptions, p)
  {
    var i :| 0 <= i < |w.permits| && w.permits[i] == p;
  }

  /** The executor accepts the permit at `t`, if nothing else stands against it. */
  predicate Alive(permit: Permit, t: Time) {
    permit.issuedAt <= t < permit.expiresAt
  }

  /** `t` is not before the lease's issue and less than lease ttl + permit ttl after it. */
  predicate InPlainBound(c: Config, lease: ReviewLease, t: Time) {
    lease.issuedAt <= t < lease.expiresAt + c.permitTtl * SECOND
  }

  /** The plain bound holds of every acceptance time exactly when the permit is stamped between the lease's issue and
      its expiry.  The gate has checked that of its first clock reading only. */
  lemma PlainTimeBoundIff(c: Config, registry: CapabilityRegistry, steps: seq<Step>, p: PermitIssue)
    requires Separated(c) && p in Run(c, registry, steps).permits && p.redemption.Some?
    ensures var lease := p.redemption.value.lease;
      (forall t :: Alive(p.permit, t) ==> InPlainBound(c, lease, t))
      <==> lease.issuedAt <= p.permit.issuedAt <= lease.expiresAt
  {
    var w := Run(c, registry, steps);
    RunKeeps(c, registry, steps);
    hide Inv, Run;
    PermitIssues(c, w, p);
    PermitTtl(c, w, p);
    assert Alive(p.permit, p.permit.issuedAt) && Alive(p.permit, p.permit.expiresAt - 1);
  }

  // ----- Receipts -------------------------------------------------------------------------------

  /** Every receipt whose hash was stored, and so every receipt a client got, is about a request that was really
      dispatched: it tells the outcome and output observed, and the reason, grant ids and registry that the gate decided
      for this very request. */
  lemma ReceiptsAreTruthful(c: Config, registry: CapabilityRegistry, steps: seq<Step>, s: Saved)
    returns (p: PermitIssue, d: Dispatch)
    requires Separated(c) && s in Run(c, registry, steps).saved
    ensures var w := Run(c, registry, steps);
      && d in w.dispatches && Behind(w, p, d) && d.request == s.request
      && HasAuthority(c, w, s.request, p)
    ensures var b := s.receipt.body;
      && b.requestId == s.request.requestId && b.capability == s.request.capability
      && b.action == s.request.action && b.resource == s.request.resource
      && (b.outcome == SUCCEEDED <==> d.observed.Returned?) && (b.outcome == FAILED <==> d.observed.Raised?)
      && (match d.observed case Returned(output) => b.result == output case Raised(error) => b.result == error)
      && b.gate == ALLOW == p.decision.verdict && b.gateReason == p.decision.reason
      && b.matchedGrantIds == p.decision.matchedGrantIds
      && b.registryId == p.registry.registryId && b.registryVersion == p.registry.version
      && s.envelope.view.payload == ReceiptPayload(s.receipt)
  {
    var w := Run(c, registry, steps);
    RunKeeps(c, registry, steps);
    hide Run, Evaluate, LeasesOk, RedemptionsOk, PermitsOk, GateOk, BookOk, DispatchesOk, ExecutorOk, ResultsOk,
         VerifierOk;
    var i :| 0 <= i < |w.saved| && w.saved[i] == s;
    p, d :| p in w.permits && d in w.dispatches && Tells(s.request, s.receipt, p, d);
    PermitHasAuthority(c, w, p);
    assert SignedReceipt(c, w.book, w.saved[i].receipt, w.saved[i].envelope);
  }

  function ReceiptPolicy(c: Config): Policy {
    Policy(c.publicTrust, Some(ReceiptSigner), Some(ActionReceiptType))
  }

  lemma EndsOfSaved(saved: seq<Saved>)
    ensures Ends(saved) == ChainState(LastReceiptHash(None, ReceiptsOf(saved)), EndHash(None, EnvelopesOf(saved)))
  {
  }

  lemma SavedEnvelopesChain(c: Config, w: World)
    requires SavedOk(c, w.book, w.permits, w.dispatches, w.saved) && Trusts(ReceiptPolicy(c), c.verifierSigner)
    ensures ValidChain(w.book, EnvelopesOf(w.saved), ReceiptPolicy(c), None)
  {
    hide Truthful;
    var envelopes := EnvelopesOf(w.saved);
    forall i | 0 <= i < |w.saved|
      ensures Linked(w.book, envelopes, ReceiptPolicy(c), None, i)
    {
      var s := w.saved[i];
      assert SignedReceipt(c, w.book, s.receipt, s.envelope) && Names(s.receipt, s.envelope, Ends(w.saved[..i]));
      EndsOfSaved(w.saved[..i]);
      assert envelopes[..i] == EnvelopesOf(w.saved[..i]);
    }
  }

  lemma TruthfulHash(permits: seq<PermitIssue>, dispatches: seq<Dispatch>, request: ActionRequest,
                     receipt: ActionReceipt)
    requires Truthful(permits, dispatches, request, receipt)
    ensures receipt.receiptHash == Sha256(ReceiptHashBody(receipt.body))
  {
    var p, d :| p in permits && d in dispatches && Tells(request, receipt, p, d);
  }

  lemma SavedReceiptsChain(c: Config, w: World)
    requires SavedOk(c, w.book, w.permits, w.dispatches, w.saved)
    ensures ReceiptChain(ReceiptsOf(w.saved), None)
  {
    hide Truthful, SignedReceipt;
    var receipts := ReceiptsOf(w.saved);
    forall i | 0 <= i < |w.saved|
      ensures receipts[i].receiptHash == Sha256(ReceiptHashBody(receipts[i].body))
      ensures receipts[i].body.previousReceiptHash == LastReceiptHash(None, receipts[..i])
    {
      var s := w.saved[i];
      TruthfulHash(w.permits, w.dispatches, s.request, s.receipt);
      assert Names(s.receipt, s.envelope, Ends(w.saved[..i]));
      EndsOfSaved(w.saved[..i]);
      assert receipts[..i] == ReceiptsOf(w.saved[..i]);
    }
  }

  /** The receipts the verifier has stored form one chain that `verify_envelope_chain` accepts, and the receipt hashes
      inside are linked the same way, one to one. */
  lemma StoredReceiptsChain(c: Config, registry: CapabilityRegistry, steps: seq<Step>)
    requires Separated(c) && Trusts(ReceiptPolicy(c), c.verifierSigner)
    ensures var w := Run(c, registry, steps);
      && ValidChain(w.book, EnvelopesOf(w.saved), ReceiptPolicy(c), None)
      && ReceiptChain(ReceiptsOf(w.saved), None)
      && forall i :: 0 <= i < |w.saved| ==>
           EnvelopesOf(w.saved)[i].view.payload == ReceiptPayload(ReceiptsOf(w.saved)[i])
  {
    var w := Run(c, registry, steps);
    RunKeeps(c, registry, steps);
    hide Run, ValidChain, ReceiptChain, LeasesOk, RedemptionsOk, PermitsOk, GateOk, BookOk, DispatchesOk, ExecutorOk,
         ResultsOk, VerifierOk, Truthful;
    SavedEnvelopesChain(c, w);
    SavedReceiptsChain(c, w);
    forall i | 0 <= i < |w.saved|
      ensures EnvelopesOf(w.saved)[i].view.payload == ReceiptPayload(ReceiptsOf(w.saved)[i])
    {
      assert SignedReceipt(c, w.book, w.saved[i].receipt, w.saved[i].envelope);
    }
  }

  /** The envelopes that reached a client. */
  function Replied(saved: seq<Saved>): seq<SignedEnvelope> {
    if |saved| == 0 then []
    else
      var last := saved[|saved| - 1];
      Replied(saved[..|saved| - 1]) + (if last.replied then [last.envelope] else [])
  }

  /** Only receipts at the end were stored without reaching the client. */
  predicate NoGap(saved: seq<Saved>) {
    forall i, j :: 0 <= i < j < |saved| && saved[j].replied ==> saved[i].replied
  }

  lemma {:induction false} RepliedPrefix(saved: seq<Saved>)
    ensures |Replied(saved)| <= |saved|
    ensures NoGap(saved) ==> Replied(saved) == EnvelopesOf(saved)[..|Replied(saved)|]
    ensures |Replied(saved)| == |saved| <==> forall i :: 0 <= i < |saved| ==> saved[i].replied
  {
    if |saved| > 0 {
      var init := saved[..|saved| - 1];
      RepliedPrefix(init);
      assert EnvelopesOf(init) == EnvelopesOf(saved)[..|saved| - 1];
    }
  }

  /** Shortening to the last receipt that was replied loses nothing. */
  lemma {:induction false} DropUnreplied(saved: seq<Saved>) returns (n: nat)
    ensures n <= |saved| && Replied(saved[..n]) == Replied(saved)
    ensures n == 0 ==> Replied(saved) == []
    ensures n > 0 ==> saved[n - 1].replied
    ensures forall i :: n <= i < |saved| ==> !saved[i].replied
  {
    if |saved| == 0 || saved[|saved| - 1].replied {
      n := |saved|;
      assert saved[..n] == saved;
    } else {
      var init := saved[..|saved| - 1];
      n := DropUnreplied(init);
      assert init[..n] == saved[..n];
    }
  }

  /** The receipts that reached clients form an accepted chain exactly when no stored receipt was lost before one that
      was delivered: a stop between storing the chain state and replying breaks the chain that clients hold, as soon
      as the next receipt is delivered. */
  lemma RepliedChainIff(c: Config, registry: CapabilityRegistry, steps: seq<Step>)
    requires Separated(c) && Trusts(ReceiptPolicy(c), c.verifierSigner)
    ensures var w := Run(c, registry, steps);
      ValidChain(w.book, Replied(w.saved), ReceiptPolicy(c), None) <==> NoGap(w.saved)
  {
    var w := Run(c, registry, steps);
    RunKeeps(c, registry, steps);
    SavedEnvelopesChain(c, w);
    if NoGap(w.saved) {
      RepliedPrefix(w.saved);
      PrefixOfChain(w.book, EnvelopesOf(w.saved), ReceiptPolicy(c), None, |Replied(w.saved)|);
    }
    if ValidChain(w.book, Replied(w.saved), ReceiptPolicy(c), None) {
      NoGapFromChain(c, w);
    }
  }

  lemma NoGapFromChain(c: Config, w: World)
    requires ValidChain(w.book, EnvelopesOf(w.saved), ReceiptPolicy(c), None)
    requires ValidChain(w.book, Replied(w.saved), ReceiptPolicy(c), None)
    ensures NoGap(w.saved)
  {
    var n := DropUnreplied(w.saved);
    var kept := w.saved[..n];
    assert EnvelopesOf(kept) == EnvelopesOf(w.saved)[..n];
    PrefixOfChain(w.book, EnvelopesOf(w.saved), ReceiptPolicy(c), None, n);
    if n > 0 {
      assert Replied(kept)[|Replied(kept)| - 1] == kept[n - 1].envelope;
      EndHashFixesChain(w.book, EnvelopesOf(kept), Replied(kept), ReceiptPolicy(c), ReceiptPolicy(c), None);
      RepliedPrefix(kept);
    }
    assert forall i :: 0 <= i < n ==> kept[i].replied;
  }
}
