/** What every step of the appliance keeps. */
module ApplianceInvariant {
  import opened Appliance
  import opened ApplianceRun
  import opened Envelopes
  import opened Gate
  import opened Ledgers
  import opened Receipts
  import opened Records
  import opened ReviewLeases
  import opened SignedReview

  // ----- Review leases --------------------------------------------------------------------------

  ghost predicate LeaseIssueOk(l: LeaseIssue) {
    && !Blank(l.approvedBy) && 1 <= l.ttl <= MAX_LEASE_TTL
    && l.lease.requestDigest == RequestDigest(l.request)
    && l.lease.expiresAt == l.lease.issuedAt + l.ttl * SECOND
    && l.view.payloadType == ReviewLeaseType && l.view.payload == ReviewLeasePayload(l.lease)
  }

  ghost predicate LeasesOk(leases: set<LeaseIssue>) {
    forall l :: l in leases ==> LeaseIssueOk(l)
  }

  /** The review signer signed the lease for the request, on somebody's approval. */
  ghost predicate SignedFor(leases: set<LeaseIssue>, lease: ReviewLease, request: ActionRequest) {
    exists l :: l in leases && l.lease == lease && l.request == request && !Blank(l.approvedBy)
  }

  // ----- Redemptions ----------------------------------------------------------------------------

  ghost predicate RedemptionOk(rows: Table, leases: set<LeaseIssue>, r: Redemption) {
    && r.base.verdict == REVIEW
    && r.lease.reviewGrantIds == r.base.matchedGrantIds
    && r.lease.issuedAt <= r.at < r.lease.expiresAt
    && r.lease.leaseId in rows
    && SignedFor(leases, r.lease, r.request)
  }

  ghost predicate RedemptionsOk(rows: Table, leases: set<LeaseIssue>, redemptions: seq<Redemption>) {
    && (forall i :: 0 <= i < |redemptions| ==> RedemptionOk(rows, leases, redemptions[i]))
    && (forall i, j :: 0 <= i < j < |redemptions| ==> redemptions[i].lease.leaseId != redemptions[j].lease.leaseId)
  }

  // ----- Permits --------------------------------------------------------------------------------

  /** The decision is the gate's own ALLOW, or a REVIEW released by a lease consumed for this request. */
  ghost predicate Authorized(redemptions: seq<Redemption>, request: ActionRequest, base: GateDecision,
                             decision: GateDecision, redemption: Option<Redemption>)
  {
    match redemption
    case None => base.verdict == ALLOW && decision == base
    case Some(r) =>
      && r in redemptions && r.request == request && r.base == base
      && base.verdict == REVIEW && decision == ReleasedDecision(base, r.lease.leaseId)
  }

  ghost predicate PermitIssueOk(c: Config, redemptions: seq<Redemption>, p: PermitIssue) {
    && p.base == Evaluate(c.glob, p.request, p.registry)
    && Authorized(redemptions, p.request, p.base, p.decision, p.redemption)
    && NewPermit(p.request, p.decision, p.registry, c.permitTtl, p.permit.issuedAt) == Ok(p.permit)
    && p.view.payloadType == ExecutionPermitType && p.view.payload == PermitPayload(p.permit)
  }

  /** The two rest on different leases, or one of them rests on none. */
  predicate OtherLease(r: Option<Redemption>, s: Option<Redemption>) {
    r.Some? && s.Some? ==> r.value.lease.leaseId != s.value.lease.leaseId
  }

  ghost predicate PermitsOk(c: Config, redemptions: seq<Redemption>, permits: seq<PermitIssue>) {
    && (forall i :: 0 <= i < |permits| ==> PermitIssueOk(c, redemptions, permits[i]))
    && (forall i, j :: 0 <= i < j < |permits| ==> OtherLease(permits[i].redemption, permits[j].redemption))
  }

  ghost predicate GateOk(c: Config, registry: CapabilityRegistry, redemptions: seq<Redemption>,
                         permits: seq<PermitIssue>, task: GateTask)
  {
    task.Deciding? ==>
      && task.base == Evaluate(c.glob, task.request, registry)
      && Authorized(redemptions, task.request, task.base, task.decision, task.redemption)
      && forall i :: 0 <= i < |permits| ==> OtherLease(permits[i].redemption, task.redemption)
  }

  // ----- Signatures -----------------------------------------------------------------------------

  ghost predicate PermitView(permits: seq<PermitIssue>, view: SignatureView) {
    exists p :: p in permits && p.view == view
  }

  /** A view signed with a service key and typed as a lease, permit or result is one the service made. */
  ghost predicate ViewOk(leases: set<LeaseIssue>, permits: seq<PermitIssue>, results: set<ResultIssue>,
                         view: SignatureView)
  {
    && (view.payloadType == ReviewLeaseType ==> exists l :: l in leases && l.view == view)
    && (view.payloadType == ExecutionPermitType ==> PermitView(permits, view))
    && (view.payloadType == ExecutionResultType ==> exists r :: r in results && r.view == view)
  }

  ghost predicate BookOk(c: Config, book: Book, leases: set<LeaseIssue>, permits: seq<PermitIssue>,
                         results: set<ResultIssue>)
  {
    forall s :: s in book && s.keyId in c.serviceKeys ==> ViewOk(leases, permits, results, s.view)
  }

  // ----- Dispatches -----------------------------------------------------------------------------

  /** The gate issued this permit for this request, and `at` lies in its lifetime. */
  ghost predicate PermitFor(permits: seq<PermitIssue>, request: ActionRequest, permit: SignedEnvelope, at: Time) {
    && permit.view.payload.PermitPayload?
    && permit.envelopeHash == EnvelopeHash(permit.view, permit.signature)
    && permit.view.payload.permit.issuedAt <= at < permit.view.payload.permit.expiresAt
    && exists p :: p in permits && p.view == permit.view && p.request == request
  }

  ghost predicate DispatchOk(rows: Table, permits: seq<PermitIssue>, d: Dispatch) {
    && PermitFor(permits, d.request, d.permit, d.acceptedAt)
    && d.permitId == d.permit.view.payload.permit.permitId
    && d.permitId in rows
  }

  ghost predicate DispatchesOk(rows: Table, permits: seq<PermitIssue>, dispatches: seq<Dispatch>) {
    && (forall i :: 0 <= i < |dispatches| ==> DispatchOk(rows, permits, dispatches[i]))
    && (forall i, j :: 0 <= i < j < |dispatches| ==> dispatches[i].permitId != dispatches[j].permitId)
  }

  ghost predicate ExecutorOk(rows: Table, permits: seq<PermitIssue>, dispatches: seq<Dispatch>, task: ExecutorTask) {
    match task
    case ExecutorIdle => true
    case Accepting(request, permit, at) =>
      && PermitFor(permits, request, permit, at)
      && permit.view.payload.permit.permitId in rows
      && forall i :: 0 <= i < |dispatches| ==> dispatches[i].permitId != permit.view.payload.permit.permitId
    case Executed(dispatch) => dispatch in dispatches
  }

  ghost predicate ResultIssueOk(dispatches: seq<Dispatch>, r: ResultIssue) {
    && r.dispatch in dispatches
    && r.dispatch.permit.view.payload.PermitPayload?
    && r.result == NewResult(r.dispatch.request, r.dispatch.permit, r.dispatch.observed, r.result.executedAt)
    && r.view.payloadType == ExecutionResultType && r.view.payload == ResultPayload(r.result)
  }

  ghost predicate ResultsOk(dispatches: seq<Dispatch>, results: set<ResultIssue>) {
    forall r :: r in results ==> ResultIssueOk(dispatches, r)
  }

  // ----- Receipts -------------------------------------------------------------------------------

  /** The receipt tells what the gate decided and what the executor observed for this very request. */
  ghost predicate Tells(request: ActionRequest, receipt: ActionReceipt, p: PermitIssue, d: Dispatch) {
    && p.request == request && d.request == request && p.view == d.permit.view
    && receipt == CreateReceipt(request, p.decision, p.registry.registryId, p.registry.version,
                                OutcomeOf(d.observed), ResultOf(d.observed), receipt.body.previousReceiptHash,
                                receipt.body.createdAt)
  }

  ghost predicate Truthful(permits: seq<PermitIssue>, dispatches: seq<Dispatch>, request: ActionRequest,
                           receipt: ActionReceipt)
  {
    exists p, d :: p in permits && d in dispatches && Tells(request, receipt, p, d)
  }

  /** The envelope is the verifier's signature of the receipt. */
  predicate SignedReceipt(c: Config, book: Book, receipt: ActionReceipt, envelope: SignedEnvelope) {
    && envelope == SignReceipt(receipt, c.verifierSigner, envelope.view.signedAt, envelope.view.previous,
                               envelope.signature)
    && SignatureOf(envelope) in book
  }

  function ReceiptsOf(saved: seq<Saved>): (r: seq<ActionReceipt>)
    ensures |r| == |saved|
  {
    seq(|saved|, i requires 0 <= i < |saved| => saved[i].receipt)
  }

  function EnvelopesOf(saved: seq<Saved>): (r: seq<SignedEnvelope>)
    ensures |r| == |saved|
  {
    seq(|saved|, i requires 0 <= i < |saved| => saved[i].envelope)
  }

  /** The two hashes that the next receipt has to name. */
  function Ends(saved: seq<Saved>): ChainState {
    if |saved| == 0 then ChainState(None, None)
    else
      var last := saved[|saved| - 1];
      ChainState(Some(last.receipt.receiptHash), Some(last.envelope.envelopeHash))
  }

  predicate Names(receipt: ActionReceipt, envelope: SignedEnvelope, chain: ChainState) {
    receipt.body.previousReceiptHash == chain.receiptHash && envelope.view.previous == chain.envelopeHash
  }

  ghost predicate SavedOk(c: Config, book: Book, permits: seq<PermitIssue>, dispatches: seq<Dispatch>,
                          saved: seq<Saved>)
  {
    && (forall i :: 0 <= i < |saved| ==> Truthful(permits, dispatches, saved[i].request, saved[i].receipt))
    && (forall i :: 0 <= i < |saved| ==> SignedReceipt(c, book, saved[i].receipt, saved[i].envelope))
    && (forall i :: 0 <= i < |saved| ==> Names(saved[i].receipt, saved[i].envelope, Ends(saved[..i])))
  }

  ghost predicate VerifierOk(c: Config, book: Book, permits: seq<PermitIssue>, dispatches: seq<Dispatch>,
                             chain: ChainState, task: VerifierTask)
  {
    task.Signed? ==>
      && Truthful(permits, dispatches, task.request, task.made.receipt)
      && SignedReceipt(c, book, task.made.receipt, task.made.envelope)
      && Names(task.made.receipt, task.made.envelope, chain)
  }

  ghost predicate Inv(c: Config, w: World) {
    && LeasesOk(w.leases)
    && RedemptionsOk(w.reviewRows, w.leases, w.redemptions)
    && PermitsOk(c, w.redemptions, w.permits)
    && GateOk(c, w.registry, w.redemptions, w.permits, w.gate)
    && BookOk(c, w.book, w.leases, w.permits, w.results)
    && DispatchesOk(w.permitRows, w.permits, w.dispatches)
    && ExecutorOk(w.permitRows, w.permits, w.dispatches, w.executor)
    && ResultsOk(w.dispatches, w.results)
    && SavedOk(c, w.book, w.permits, w.dispatches, w.saved)
    && VerifierOk(c, w.book, w.permits, w.dispatches, w.chain, w.verifier)
    && w.chain == Ends(w.saved)
  }

  // ----- Growth of the parts --------------------------------------------------------------------

  /** A signature under a service key that a release asks for was made by a service. */
  lemma AcceptedIsOurs(c: Config, book: Book, envelope: SignedEnvelope, trust: TrustStore, role: Role,
                       payloadType: PayloadType, leases: set<LeaseIssue>, permits: seq<PermitIssue>,
                       results: set<ResultIssue>)
    requires Accepted(book, envelope, Policy(trust, Some(role), Some(payloadType)))
    requires OnlyServiceKeys(c.serviceKeys, trust, role) && BookOk(c, book, leases, permits, results)
    ensures ViewOk(leases, permits, results, envelope.view) && envelope.view.payloadType == payloadType
    ensures envelope.envelopeHash == EnvelopeHash(envelope.view, envelope.signature)
  {
    assert SignatureOf(envelope) in book;
  }

  lemma TruthfulGrows(permits: seq<PermitIssue>, permits': seq<PermitIssue>, dispatches: seq<Dispatch>,
                      dispatches': seq<Dispatch>, request: ActionRequest, receipt: ActionReceipt)
    requires Truthful(permits, dispatches, request, receipt)
    requires permits <= permits' && dispatches <= dispatches'
    ensures Truthful(permits', dispatches', request, receipt)
  {
    var p, d :| p in permits && d in dispatches && Tells(request, receipt, p, d);
    assert p in permits' && d in dispatches';
  }

  lemma SavedGrows(c: Config, book: Book, book': Book, permits: seq<PermitIssue>, permits': seq<PermitIssue>,
                   dispatches: seq<Dispatch>, dispatches': seq<Dispatch>, saved: seq<Saved>)
    requires SavedOk(c, book, permits, dispatches, saved)
    requires book <= book' && permits <= permits' && dispatches <= dispatches'
    ensures SavedOk(c, book', permits', dispatches', saved)
  {
    forall i | 0 <= i < |saved|
      ensures Truthful(permits', dispatches', saved[i].request, saved[i].receipt)
    {
      TruthfulGrows(permits, permits', dispatches, dispatches', saved[i].request, saved[i].receipt);
    }
  }

  lemma VerifierGrows(c: Config, book: Book, book': Book, permits: seq<PermitIssue>, permits': seq<PermitIssue>,
                      dispatches: seq<Dispatch>, dispatches': seq<Dispatch>, chain: ChainState, task: VerifierTask)
    requires VerifierOk(c, book, permits, dispatches, chain, task)
    requires book <= book' && permits <= permits' && dispatches <= dispatches'
    ensures VerifierOk(c, book', permits', dispatches', chain, task)
  {
    if task.Signed? {
      TruthfulGrows(permits, permits', dispatches, dispatches', task.request, task.made.receipt);
    }
  }

  lemma PermitForGrows(permits: seq<PermitIssue>, more: seq<PermitIssue>, request: ActionRequest,
                       permit: SignedEnvelope, at: Time)
    requires PermitFor(permits, request, permit, at)
    ensures PermitFor(permits + more, request, permit, at)
  {
    var p :| p in permits && p.view == permit.view && p.request == request;
    assert p in permits + more;
  }

  lemma DispatchesGrow(rows: Table, rows': Table, permits: seq<PermitIssue>, more: seq<PermitIssue>,
                       dispatches: seq<Dispatch>)
    requires DispatchesOk(rows, permits, dispatches) && rows.Keys <= rows'.Keys
    ensures DispatchesOk(rows', permits + more, dispatches)
  {
    forall i | 0 <= i < |dispatches|
      ensures DispatchOk(rows', permits + more, dispatches[i])
    {
      assert DispatchOk(rows, permits, dispatches[i]);
      PermitForGrows(permits, more, dispatches[i].request, dispatches[i].permit, dispatches[i].acceptedAt);
    }
  }

  lemma BookGrows(c: Config, book: Book, s: Signature, leases: set<LeaseIssue>, leases': set<LeaseIssue>,
                  permits: seq<PermitIssue>, permits': seq<PermitIssue>, results: set<ResultIssue>,
                  results': set<ResultIssue>)
    requires BookOk(c, book, leases, permits, results)
    requires leases <= leases' && permits <= permits' && results <= results'
    requires s.keyId in c.serviceKeys ==> ViewOk(leases', permits', results', s.view)
    ensures BookOk(c, book + {s}, leases', permits', results')
  {
    forall t | t in book + {s} && t.keyId in c.serviceKeys
      ensures ViewOk(leases', permits', results', t.view)
    {
      if t in book {
        ViewGrows(leases, leases', permits, permits', results, results', t.view);
      }
    }
  }

  lemma ViewGrows(leases: set<LeaseIssue>, leases': set<LeaseIssue>, permits: seq<PermitIssue>,
                  permits': seq<PermitIssue>, results: set<ResultIssue>, results': set<ResultIssue>,
                  view: SignatureView)
    requires ViewOk(leases, permits, results, view)
    requires leases <= leases' && permits <= permits' && results <= results'
    ensures ViewOk(leases', permits', results', view)
  {
    if view.payloadType == ExecutionPermitType {
      var p :| p in permits && p.view == view;
      assert p in permits';
    }
  }
}
