/** Every step of the appliance keeps the invariant. */
module ApplianceSteps {
  import opened Appliance
  import opened ApplianceInvariant
  import opened ApplianceRun
  import opened Envelopes
  import opened Gate
  import opened Ledgers
  import opened Receipts
  import opened Records
  import opened SignedReview

  lemma StartOk(c: Config, registry: CapabilityRegistry)
    ensures Inv(c, Start(registry))
  {
  }

  /** Only the book grew, by a signature that needs no history of its own. */
  lemma BookOnlyKeeps(c: Config, w: World, s: Signature)
    requires Inv(c, w) && (s.keyId in c.serviceKeys ==> ViewOk(w.leases, w.permits, w.results, s.view))
    ensures Inv(c, w.(book := w.book + {s}))
  {
    BookGrows(c, w.book, s, w.leases, w.leases, w.permits, w.permits, w.results, w.results);
    SavedGrows(c, w.book, w.book + {s}, w.permits, w.permits, w.dispatches, w.dispatches, w.saved);
    VerifierGrows(c, w.book, w.book + {s}, w.permits, w.permits, w.dispatches, w.dispatches, w.chain, w.verifier);
  }

  lemma OutsiderKeeps(c: Config, w: World, s: Signature)
    requires Inv(c, w)
    ensures Inv(c, OutsiderSign(c, w, s))
  {
    if s.keyId !in c.serviceKeys {
      BookOnlyKeeps(c, w, s);
    }
  }

  lemma AddTextKeeps(c: Config, w: World, known: Signature, text: string)
    requires Inv(c, w)
    ensures Inv(c, AddText(w, known, text))
  {
    if known in w.book {
      BookOnlyKeeps(c, w, known.(text := text));
    }
  }

  // ----- Review signer --------------------------------------------------------------------------

  lemma RedemptionsGrow(rows: Table, leases: set<LeaseIssue>, leases': set<LeaseIssue>, redemptions: seq<Redemption>)
    requires RedemptionsOk(rows, leases, redemptions) && leases <= leases'
    ensures RedemptionsOk(rows, leases', redemptions)
  {
    forall i | 0 <= i < |redemptions|
      ensures RedemptionOk(rows, leases', redemptions[i])
    {
      assert RedemptionOk(rows, leases, redemptions[i]);
      var l :| l in leases && l.lease == redemptions[i].lease && l.request == redemptions[i].request;
      assert l in leases';
    }
  }

  lemma LeaseAddedKeeps(c: Config, w: World, l: LeaseIssue, s: Signature)
    requires Separated(c) && Inv(c, w) && LeaseIssueOk(l) && s.view == l.view
    ensures Inv(c, w.(book := w.book + {s}, leases := w.leases + {l}))
  {
    var leases' := w.leases + {l};
    assert l in leases';
    BookGrows(c, w.book, s, w.leases, leases', w.permits, w.permits, w.results, w.results);
    RedemptionsGrow(w.reviewRows, w.leases, leases', w.redemptions);
    SavedGrows(c, w.book, w.book + {s}, w.permits, w.permits, w.dispatches, w.dispatches, w.saved);
    VerifierGrows(c, w.book, w.book + {s}, w.permits, w.permits, w.dispatches, w.dispatches, w.chain, w.verifier);
  }

  lemma ApproveKeeps(c: Config, w: World, request: ActionRequest, claimed: GateDecision, approved: bool,
                     approvedBy: string, ttl: int, leaseId: string, at: Time, text: string)
    requires Separated(c) && Inv(c, w)
    ensures Inv(c, ApproveStep(c, w, request, claimed, approved, approvedBy, ttl, leaseId, at, text))
  {
    var made := ApproveReview(request, claimed, approved, approvedBy, ttl, leaseId, c.reviewSigner, at, text);
    if made.Ok? {
      var view := made.value.view;
      var l := LeaseIssue(request, claimed, approvedBy, ttl, view.payload.lease, view);
      assert LeaseIssueOk(l);
      LeaseAddedKeeps(c, w, l, SignatureOf(made.value));
    }
  }

  // ----- Gate -----------------------------------------------------------------------------------

  /** A lease the gate takes was signed by the review signer for this very request. */
  lemma TakenLease(c: Config, w: World, request: ActionRequest, base: GateDecision, envelope: SignedEnvelope, at: Time)
    requires Separated(c) && Inv(c, w)
    requires SignedReply(w.book, c.gateTrust, w.reviewRows, envelope, request, base, at).Released?
    ensures envelope.view.payload.LeasePayload?
    ensures var lease := envelope.view.payload.lease;
      && lease.leaseId !in w.reviewRows
      && SignedRows(w.book, c.gateTrust, w.reviewRows, envelope, request, base, at)
         == w.reviewRows[lease.leaseId := Row(envelope.envelopeHash, at)]
      && base.verdict == REVIEW && lease.reviewGrantIds == base.matchedGrantIds
      && lease.issuedAt <= at < lease.expiresAt
      && SignedFor(w.leases, lease, request)
      && SignedReply(w.book, c.gateTrust, w.reviewRows, envelope, request, base, at).leaseId == lease.leaseId
  {
    SignedReleaseIff(w.book, c.gateTrust, w.reviewRows, envelope, request, base, at);
    SignedEffect(w.book, c.gateTrust, w.reviewRows, envelope, request, base, at);
    AcceptedIsOurs(c, w.book, envelope, c.gateTrust, ReviewIssuer, ReviewLeaseType, w.leases, w.permits, w.results);
    var l :| l in w.leases && l.view == envelope.view;
    assert LeaseIssueOk(l);
    assert l.lease == envelope.view.payload.lease && l.request == request;
  }

  lemma AuthorizedGrows(redemptions: seq<Redemption>, more: seq<Redemption>, request: ActionRequest,
                        base: GateDecision, decision: GateDecision, redemption: Option<Redemption>)
    requires Authorized(redemptions, request, base, decision, redemption)
    ensures Authorized(redemptions + more, request, base, decision, redemption)
  {
  }

  lemma PermitsGrow(c: Config, redemptions: seq<Redemption>, more: seq<Redemption>, permits: seq<PermitIssue>)
    requires PermitsOk(c, redemptions, permits)
    ensures PermitsOk(c, redemptions + more, permits)
  {
    forall i | 0 <= i < |permits|
      ensures PermitIssueOk(c, redemptions + more, permits[i])
    {
      assert PermitIssueOk(c, redemptions, permits[i]);
      AuthorizedGrows(redemptions, more, permits[i].request, permits[i].base, permits[i].decision,
                      permits[i].redemption);
    }
  }

  lemma RedemptionAdded(rows: Table, leases: set<LeaseIssue>, redemptions: seq<Redemption>, r: Redemption, row: Row)
    requires RedemptionsOk(rows, leases, redemptions) && r.lease.leaseId !in rows
    requires RedemptionOk(rows[r.lease.leaseId := row], leases, r)
    ensures RedemptionsOk(rows[r.lease.leaseId := row], leases, redemptions + [r])
  {
    forall i | 0 <= i < |redemptions|
      ensures RedemptionOk(rows[r.lease.leaseId := row], leases, redemptions[i])
      ensures redemptions[i].lease.leaseId != r.lease.leaseId
    {
      assert RedemptionOk(rows, leases, redemptions[i]);
    }
  }

  /** No permit rests on a lease that is not yet in the ledger. */
  lemma NewLeaseIsOther(c: Config, rows: Table, leases: set<LeaseIssue>, redemptions: seq<Redemption>,
                        permits: seq<PermitIssue>, r: Redemption)
    requires RedemptionsOk(rows, leases, redemptions) && PermitsOk(c, redemptions, permits)
    requires r.lease.leaseId !in rows
    ensures forall i :: 0 <= i < |permits| ==> OtherLease(permits[i].redemption, Some(r))
  {
    hide Evaluate, NewPermit;
    forall i | 0 <= i < |permits| && permits[i].redemption.Some?
      ensures permits[i].redemption.value.lease.leaseId != r.lease.leaseId
    {
      assert PermitIssueOk(c, redemptions, permits[i]);
      var j :| 0 <= j < |redemptions| && redemptions[j] == permits[i].redemption.value;
      assert RedemptionOk(rows, leases, redemptions[j]);
    }
  }

  /** The gate consumes a lease. */
  lemma LeaseConsumedKeeps(c: Config, w: World, request: ActionRequest, lease: SignedEnvelope, at: Time)
    requires Separated(c) && Inv(c, w)
    requires var base := Evaluate(c.glob, request, w.registry);
      SignedReply(w.book, c.gateTrust, w.reviewRows, lease, request, base, at).Released?
    requires lease.view.payload.LeasePayload?
    ensures var base := Evaluate(c.glob, request, w.registry);
      var r := Redemption(request, base, lease.view.payload.lease, at);
      Inv(c, w.(reviewRows := SignedRows(w.book, c.gateTrust, w.reviewRows, lease, request, base, at),
                redemptions := w.redemptions + [r],
                gate := Deciding(request, base, ReleasedDecision(base, r.lease.leaseId), Some(r))))
  {
    var base := Evaluate(c.glob, request, w.registry);
    TakenLease(c, w, request, base, lease, at);
    var r := Redemption(request, base, lease.view.payload.lease, at);
    RedemptionAdded(w.reviewRows, w.leases, w.redemptions, r, Row(lease.envelopeHash, at));
    PermitsGrow(c, w.redemptions, [r], w.permits);
    NewLeaseIsOther(c, w.reviewRows, w.leases, w.redemptions, w.permits, r);
    assert (w.redemptions + [r])[|w.redemptions|] == r;
  }

  lemma AllowedKeeps(c: Config, w: World, request: ActionRequest)
    requires Inv(c, w) && Evaluate(c.glob, request, w.registry).verdict == ALLOW
    ensures var base := Evaluate(c.glob, request, w.registry);
      Inv(c, w.(gate := Deciding(request, base, base, None)))
  {
    hide LeasesOk, RedemptionsOk, PermitsOk, BookOk, DispatchesOk, ExecutorOk, ResultsOk, SavedOk, VerifierOk, Evaluate;
  }

  lemma GateDecideKeeps(c: Config, w: World, request: ActionRequest, lease: Option<SignedEnvelope>, at: Time)
    requires Separated(c) && Inv(c, w)
    ensures Inv(c, GateDecide(c, w, request, lease, at))
  {
    hide Inv, Evaluate, SignedReply, SignedRows;
    var w' := GateDecide(c, w, request, lease, at);
    if w' != w {
      var base := Evaluate(c.glob, request, w.registry);
      if base.verdict == REVIEW {
        TakenLease(c, w, request, base, lease.value, at);
        LeaseConsumedKeeps(c, w, request, lease.value, at);
      } else {
        AllowedKeeps(c, w, request);
      }
    }
  }

  lemma PermitAdded(c: Config, redemptions: seq<Redemption>, permits: seq<PermitIssue>, p: PermitIssue)
    requires PermitsOk(c, redemptions, permits) && PermitIssueOk(c, redemptions, p)
    requires forall i :: 0 <= i < |permits| ==> OtherLease(permits[i].redemption, p.redemption)
    ensures PermitsOk(c, redemptions, permits + [p])
  {
  }

  lemma ExecutorGrows(rows: Table, permits: seq<PermitIssue>, more: seq<PermitIssue>, dispatches: seq<Dispatch>,
                      task: ExecutorTask)
    requires ExecutorOk(rows, permits, dispatches, task)
    ensures ExecutorOk(rows, permits + more, dispatches, task)
  {
    if task.Accepting? {
      PermitForGrows(permits, more, task.request, task.permit, task.at);
    }
  }

  lemma PermitSignedKeeps(c: Config, w: World, p: PermitIssue, s: Signature)
    requires Separated(c) && Inv(c, w) && w.gate.Deciding? && PermitIssueOk(c, w.redemptions, p)
    requires p.redemption == w.gate.redemption && s.view == p.view
    ensures Inv(c, w.(gate := GateIdle, book := w.book + {s}, permits := w.permits + [p]))
  {
    var permits' := w.permits + [p];
    assert p in permits';
    PermitAdded(c, w.redemptions, w.permits, p);
    BookGrows(c, w.book, s, w.leases, w.leases, w.permits, permits', w.results, w.results);
    DispatchesGrow(w.permitRows, w.permitRows, w.permits, [p], w.dispatches);
    ExecutorGrows(w.permitRows, w.permits, [p], w.dispatches, w.executor);
    SavedGrows(c, w.book, w.book + {s}, w.permits, permits', w.dispatches, w.dispatches, w.saved);
    VerifierGrows(c, w.book, w.book + {s}, w.permits, permits', w.dispatches, w.dispatches, w.chain, w.verifier);
  }

  lemma GateSignKeeps(c: Config, w: World, at: Time, text: string)
    requires Separated(c) && Inv(c, w)
    ensures Inv(c, GateSign(c, w, at, text))
  {
    if w.gate.Deciding? {
      var permit := NewPermit(w.gate.request, w.gate.decision, w.registry, c.permitTtl, at);
      if permit.Ok? {
        var envelope := SignPermit(permit.value, c.gateSigner, at, text);
        var p := PermitIssue(w.gate.request, w.registry, w.gate.base, w.gate.decision, w.gate.redemption, permit.value,
                             envelope.view);
        assert PermitIssueOk(c, w.redemptions, p);
        PermitSignedKeeps(c, w, p, SignatureOf(envelope));
      }
    }
  }

  // ----- Executor -------------------------------------------------------------------------------

  lemma NewPermitIdIsOther(rows: Table, permits: seq<PermitIssue>, dispatches: seq<Dispatch>, permitId: string)
    requires DispatchesOk(rows, permits, dispatches) && permitId !in rows
    ensures forall i :: 0 <= i < |dispatches| ==> dispatches[i].permitId != permitId
  {
    hide PermitFor;
    forall i | 0 <= i < |dispatches|
      ensures dispatches[i].permitId != permitId
    {
      assert DispatchOk(rows, permits, dispatches[i]);
    }
  }

  /** A permit the executor takes was issued by the gate for this very request. */
  lemma TakenPermit(c: Config, w: World, request: ActionRequest, permit: SignedEnvelope, at: Time)
    requires Separated(c) && PermitsOk(c, w.redemptions, w.permits)
    requires BookOk(c, w.book, w.leases, w.permits, w.results)
    requires PermitGranted(w.book, c.executorTrust, w.permitRows, permit, request, at)
    ensures PermitFor(w.permits, request, permit, at)
    ensures permit.view.payload.permit.permitId !in w.permitRows
    ensures RowsAfterPermit(w.book, c.executorTrust, w.permitRows, permit, request, at)
      == w.permitRows[permit.view.payload.permit.permitId := Row(permit.envelopeHash, at)]
  {
    hide Evaluate, Authorized, RefusePermit;
    PermitReleasesIff(w.book, c.executorTrust, permit, request, at);
    AcceptedIsOurs(c, w.book, permit, c.executorTrust, PermitIssuer, ExecutionPermitType, w.leases, w.permits,
                   w.results);
    var p :| p in w.permits && p.view == permit.view;
    assert PermitIssueOk(c, w.redemptions, p);
    assert p.permit == permit.view.payload.permit && p.request == request;
  }

  lemma ExecutorAcceptKeeps(c: Config, w: World, request: ActionRequest, permit: SignedEnvelope, at: Time)
    requires Separated(c) && Inv(c, w)
    ensures Inv(c, ExecutorAccept(c, w, request, permit, at))
  {
    if w.executor.ExecutorIdle? && ValidRequest(request)
       && PermitGranted(w.book, c.executorTrust, w.permitRows, permit, request, at) {
      TakenPermit(c, w, request, permit, at);
      NewPermitIdIsOther(w.permitRows, w.permits, w.dispatches, permit.view.payload.permit.permitId);
      hide LeasesOk, RedemptionsOk, PermitsOk, GateOk, BookOk, DispatchesOk, ResultsOk, SavedOk, VerifierOk, PermitFor,
           PermitGranted, RowsAfterPermit;
      var rows' := RowsAfterPermit(w.book, c.executorTrust, w.permitRows, permit, request, at);
      DispatchesGrow(w.permitRows, rows', w.permits, [], w.dispatches);
      assert w.permits + [] == w.permits;
    }
  }

  lemma ResultsGrow(dispatches: seq<Dispatch>, more: seq<Dispatch>, results: set<ResultIssue>)
    requires ResultsOk(dispatches, results)
    ensures ResultsOk(dispatches + more, results)
  {
    forall r | r in results
      ensures ResultIssueOk(dispatches + more, r)
    {
      assert ResultIssueOk(dispatches, r);
    }
  }

  lemma DispatchAdded(rows: Table, permits: seq<PermitIssue>, dispatches: seq<Dispatch>, d: Dispatch)
    requires DispatchesOk(rows, permits, dispatches) && DispatchOk(rows, permits, d)
    requires forall i :: 0 <= i < |dispatches| ==> dispatches[i].permitId != d.permitId
    ensures DispatchesOk(rows, permits, dispatches + [d]) && d in dispatches + [d]
  {
    assert (dispatches + [d])[|dispatches|] == d;
  }

  lemma DispatchedKeeps(c: Config, w: World, d: Dispatch)
    requires Inv(c, w) && DispatchOk(w.permitRows, w.permits, d)
    requires forall i :: 0 <= i < |w.dispatches| ==> w.dispatches[i].permitId != d.permitId
    ensures Inv(c, w.(dispatches := w.dispatches + [d], executor := Executed(d)))
  {
    DispatchAdded(w.permitRows, w.permits, w.dispatches, d);
    ResultsGrow(w.dispatches, [d], w.results);
    SavedGrows(c, w.book, w.book, w.permits, w.permits, w.dispatches, w.dispatches + [d], w.saved);
    VerifierGrows(c, w.book, w.book, w.permits, w.permits, w.dispatches, w.dispatches + [d], w.chain, w.verifier);
  }

  lemma ExecutorDispatchKeeps(c: Config, w: World, observed: Observation)
    requires Inv(c, w)
    ensures Inv(c, ExecutorDispatch(w, observed))
  {
    if w.executor.Accepting? {
      var permit := w.executor.permit;
      var d := Dispatch(w.executor.request, permit, permit.view.payload.permit.permitId, w.executor.at, observed);
      DispatchedKeeps(c, w, d);
    }
  }

  lemma ResultSignedKeeps(c: Config, w: World, r: ResultIssue, s: Signature)
    requires Inv(c, w) && ResultIssueOk(w.dispatches, r) && s.view == r.view
    ensures Inv(c, w.(executor := ExecutorIdle, book := w.book + {s}, results := w.results + {r}))
  {
    var results' := w.results + {r};
    assert r in results';
    hide LeasesOk, RedemptionsOk, PermitsOk, GateOk, BookOk, DispatchesOk, SavedOk, VerifierOk, NewResult;
    BookGrows(c, w.book, s, w.leases, w.leases, w.permits, w.permits, w.results, results');
    SavedGrows(c, w.book, w.book + {s}, w.permits, w.permits, w.dispatches, w.dispatches, w.saved);
    VerifierGrows(c, w.book, w.book + {s}, w.permits, w.permits, w.dispatches, w.dispatches, w.chain, w.verifier);
  }

  lemma ExecutorSignKeeps(c: Config, w: World, at: Time, text: string)
    requires Inv(c, w)
    ensures Inv(c, ExecutorSign(c, w, at, text))
  {
    hide LeasesOk, RedemptionsOk, PermitsOk, GateOk, BookOk, DispatchesOk, SavedOk, VerifierOk;
    if w.executor.Executed? {
      var d := w.executor.dispatch;
      if d.permit.view.payload.PermitPayload? {
        var envelope := SignResult(d.request, d.permit, d.observed, c.executorSigner, at, text);
        var r := ResultIssue(d, NewResult(d.request, d.permit, d.observed, at), envelope.view);
        ResultSignedKeeps(c, w, r, SignatureOf(envelope));
      }
    }
  }

  // ----- Verifier -------------------------------------------------------------------------------

  /** What `FinalReceipt` has checked, and the receipt it makes. */
  lemma FinalReceiptChecks(book: Book, trust: TrustStore, request: ActionRequest, permit: SignedEnvelope,
                           result: SignedEnvelope, signer: Signer, chain: ChainState, at: Time, text: string)
    requires FinalReceipt(book, trust, request, permit, result, signer, chain, at, text).Ok?
    ensures Accepted(book, permit, PermitPolicy(trust)) && Accepted(book, result, ResultPolicy(trust))
    ensures permit.view.payload.PermitPayload? && result.view.payload.ResultPayload?
    ensures var p, e := permit.view.payload.permit, result.view.payload.result;
      && e.permitHash == permit.envelopeHash && e.requestDigest == RequestDigest(request)
      && var made := FinalReceipt(book, trust, request, permit, result, signer, chain, at, text).value;
      && made.receipt == CreateReceipt(request, GateDecision(ALLOW, p.gateReason, p.matchedGrantIds), p.registryId,
                                       p.registryVersion, e.outcome, e.result, chain.receiptHash, at)
      && made.envelope == SignReceipt(made.receipt, signer, at, chain.envelopeHash, text)
  {
    VerifiedIffSigned(book, permit, PermitPolicy(trust));
    VerifiedIffSigned(book, result, ResultPolicy(trust));
  }

  lemma ResultOfDispatch(rows: Table, permits: seq<PermitIssue>, dispatches: seq<Dispatch>, r: ResultIssue)
    requires DispatchesOk(rows, permits, dispatches) && ResultIssueOk(dispatches, r)
    ensures DispatchOk(rows, permits, r.dispatch)
  {
  }

  lemma TakenResult(c: Config, w: World, result: SignedEnvelope) returns (r: ResultIssue)
    requires Separated(c) && BookOk(c, w.book, w.leases, w.permits, w.results) && ResultsOk(w.dispatches, w.results)
    requires Accepted(w.book, result, ResultPolicy(c.verifierTrust))
    ensures r in w.results && r.view == result.view && ResultIssueOk(w.dispatches, r)
  {
    AcceptedIsOurs(c, w.book, result, c.verifierTrust, ResultSigner, ExecutionResultType, w.leases, w.permits,
                   w.results);
    r :| r in w.results && r.view == result.view;
  }

  lemma TakenPermitView(c: Config, w: World, permit: SignedEnvelope) returns (p: PermitIssue)
    requires Separated(c) && Inv(c, w) && Accepted(w.book, permit, PermitPolicy(c.verifierTrust))
    ensures p in w.permits && p.view == permit.view && PermitIssueOk(c, w.redemptions, p)
    ensures permit.envelopeHash == EnvelopeHash(permit.view, permit.signature)
  {
    AcceptedIsOurs(c, w.book, permit, c.verifierTrust, PermitIssuer, ExecutionPermitType, w.leases, w.permits,
                   w.results);
    p :| p in w.permits && p.view == permit.view;
  }

  /** An accepted permit whose hash is that of a dispatch's permit was issued for the dispatched request. */
  lemma PermitOfDispatch(c: Config, w: World, d: Dispatch, q: PermitIssue, permit: SignedEnvelope)
    returns (p: PermitIssue)
    requires PermitsOk(c, w.redemptions, w.permits) && PermitFor(w.permits, d.request, d.permit, d.acceptedAt)
    requires q in w.permits && q.view == permit.view
    requires permit.envelopeHash == EnvelopeHash(permit.view, permit.signature) == d.permit.envelopeHash
    ensures p in w.permits && p.request == d.request && p.view == d.permit.view && PermitIssueOk(c, w.redemptions, p)
    ensures permit.view.payload == PermitPayload(p.permit)
  {
    hide Evaluate, Authorized, NewPermit;
    p :| p in w.permits && p.view == d.permit.view && p.request == d.request;
    var i :| 0 <= i < |w.permits| && w.permits[i] == p;
    assert PermitIssueOk(c, w.redemptions, p);
  }

  /** The permit and result that the verifier takes belong to one dispatch of the request, although the verifier
      compares only the result with the request. */
  lemma TakenEvidence(c: Config, w: World, request: ActionRequest, permit: SignedEnvelope, result: SignedEnvelope)
    returns (p: PermitIssue, d: Dispatch)
    requires Separated(c) && Inv(c, w)
    requires Accepted(w.book, permit, PermitPolicy(c.verifierTrust))
    requires Accepted(w.book, result, ResultPolicy(c.verifierTrust))
    requires result.view.payload.ResultPayload?
    requires result.view.payload.result.permitHash == permit.envelopeHash
    requires result.view.payload.result.requestDigest == RequestDigest(request)
    ensures p in w.permits && d in w.dispatches && p.request == d.request == request && p.view == d.permit.view
    ensures PermitIssueOk(c, w.redemptions, p) && permit.view.payload == PermitPayload(p.permit)
    ensures result.view.payload.result.outcome == OutcomeOf(d.observed)
    ensures result.view.payload.result.result == ResultOf(d.observed)
  {
    var r := TakenResult(c, w, result);
    var q := TakenPermitView(c, w, permit);
    ResultOfDispatch(w.permitRows, w.permits, w.dispatches, r);
    d := r.dispatch;
    hide LeasesOk, RedemptionsOk, PermitsOk, GateOk, BookOk, DispatchesOk, ExecutorOk, ResultsOk, SavedOk, VerifierOk,
         PermitFor, PermitIssueOk, Accepted;
    p := PermitOfDispatch(c, w, d, q, permit);
  }

  lemma EvidenceTells(c: Config, w: World, request: ActionRequest, receipt: ActionReceipt, permit: SignedEnvelope,
                      result: SignedEnvelope, p: PermitIssue, d: Dispatch)
    requires p in w.permits && d in w.dispatches && p.request == d.request == request && p.view == d.permit.view
    requires PermitIssueOk(c, w.redemptions, p) && permit.view.payload == PermitPayload(p.permit)
    requires result.view.payload.ResultPayload?
    requires var p, e := permit.view.payload.permit, result.view.payload.result;
      && e.outcome == OutcomeOf(d.observed) && e.result == ResultOf(d.observed)
      && receipt == CreateReceipt(request, GateDecision(ALLOW, p.gateReason, p.matchedGrantIds), p.registryId,
                                  p.registryVersion, e.outcome, e.result, receipt.body.previousReceiptHash,
                                  receipt.body.createdAt)
    ensures Truthful(w.permits, w.dispatches, request, receipt)
  {
    hide Evaluate, Authorized;
    assert Tells(request, receipt, p, d);
  }

  lemma VerifierSignKeeps(c: Config, w: World, request: ActionRequest, permit: SignedEnvelope, result: SignedEnvelope,
                          at: Time, text: string)
    requires Separated(c) && Inv(c, w)
    ensures Inv(c, VerifierSign(c, w, request, permit, result, at, text))
  {
    hide LeasesOk, RedemptionsOk, PermitsOk, GateOk, BookOk, DispatchesOk, ExecutorOk, ResultsOk, SavedOk, FinalReceipt;
    var final := FinalReceipt(w.book, c.verifierTrust, request, permit, result, c.verifierSigner, w.chain, at, text);
    if w.verifier.VerifierIdle? && ValidRequest(request) && final.Ok? {
      FinalReceiptChecks(w.book, c.verifierTrust, request, permit, result, c.verifierSigner, w.chain, at, text);
      var p, d := TakenEvidence(c, w, request, permit, result);
      EvidenceTells(c, w, request, final.value.receipt, permit, result, p, d);
      BookOnlyKeeps(c, w, SignatureOf(final.value.envelope));
    }
  }

  lemma SavedAppend(c: Config, book: Book, permits: seq<PermitIssue>, dispatches: seq<Dispatch>, saved: seq<Saved>,
                    s: Saved)
    requires SavedOk(c, book, permits, dispatches, saved)
    requires Truthful(permits, dispatches, s.request, s.receipt) && SignedReceipt(c, book, s.receipt, s.envelope)
    requires Names(s.receipt, s.envelope, Ends(saved))
    ensures SavedOk(c, book, permits, dispatches, saved + [s])
  {
    var longer := saved + [s];
    forall i | 0 <= i < |longer|
      ensures Names(longer[i].receipt, longer[i].envelope, Ends(longer[..i]))
    {
      assert longer[..i] == if i < |saved| then saved[..i] else saved;
    }
  }

  lemma VerifierStoreKeeps(c: Config, w: World)
    requires Inv(c, w)
    ensures Inv(c, VerifierStore(w))
  {
    if w.verifier.Signed? {
      SavedAppend(c, w.book, w.permits, w.dispatches, w.saved,
                  Saved(w.verifier.request, w.verifier.made.receipt, w.verifier.made.envelope, false));
    }
  }

  lemma RepliedOk(c: Config, book: Book, permits: seq<PermitIssue>, dispatches: seq<Dispatch>, saved: seq<Saved>)
    requires SavedOk(c, book, permits, dispatches, saved) && |saved| > 0
    ensures var n := |saved| - 1;
      var saved' := saved[n := saved[n].(replied := true)];
      SavedOk(c, book, permits, dispatches, saved') && Ends(saved') == Ends(saved)
  {
    hide Truthful, SignedReceipt;
    var n := |saved| - 1;
    var saved' := saved[n := saved[n].(replied := true)];
    forall i | 0 <= i < |saved|
      ensures Names(saved'[i].receipt, saved'[i].envelope, Ends(saved'[..i]))
    {
      assert saved'[..i] == saved[..i];
    }
  }

  lemma VerifierReplyKeeps(c: Config, w: World)
    requires Inv(c, w)
    ensures Inv(c, VerifierReply(w))
  {
    if w.verifier.Stored? && |w.saved| > 0 {
      RepliedOk(c, w.book, w.permits, w.dispatches, w.saved);
    }
  }

  // ----- All steps ------------------------------------------------------------------------------

  lemma RestartsKeep(c: Config, w: World, registry: CapabilityRegistry)
    requires Inv(c, w)
    ensures Inv(c, w.(gate := GateIdle, registry := registry))
    ensures Inv(c, w.(executor := ExecutorIdle)) && Inv(c, w.(verifier := VerifierIdle))
  {
  }

  predicate AtGateOrBefore(step: Step) {
    || step.OutsiderSigns? || step.AnotherSignatureText? || step.Approve? || step.GateDecides? || step.GateSigns?
    || step.GateRestarts?
  }

  lemma EarlyStepKeeps(c: Config, w: World, step: Step)
    requires Separated(c) && Inv(c, w) && AtGateOrBefore(step)
    ensures Inv(c, Next(c, w, step))
  {
    match step
    case OutsiderSigns(signature) => OutsiderKeeps(c, w, signature);
    case AnotherSignatureText(known, text) => AddTextKeeps(c, w, known, text);
    case Approve(request, claimed, approved, approvedBy, ttl, leaseId, at, text) =>
      ApproveKeeps(c, w, request, claimed, approved, approvedBy, ttl, leaseId, at, text);
    case GateDecides(request, lease, at) => GateDecideKeeps(c, w, request, lease, at);
    case GateSigns(at, text) => GateSignKeeps(c, w, at, text);
    case GateRestarts(registry) => RestartsKeep(c, w, registry);
  }

  lemma LateStepKeeps(c: Config, w: World, step: Step)
    requires Separated(c) && Inv(c, w) && !AtGateOrBefore(step)
    ensures Inv(c, Next(c, w, step))
  {
    match step
    case ExecutorAccepts(request, permit, at) => ExecutorAcceptKeeps(c, w, request, permit, at);
    case ExecutorDispatches(observed) => ExecutorDispatchKeeps(c, w, observed);
    case ExecutorSigns(at, text) => ExecutorSignKeeps(c, w, at, text);
    case ExecutorRestarts => RestartsKeep(c, w, w.registry);
    case VerifierSigns(request, permit, result, at, text) => VerifierSignKeeps(c, w, request, permit, result, at, text);
    case VerifierStores => VerifierStoreKeeps(c, w);
    case VerifierReplies => VerifierReplyKeeps(c, w);
    case VerifierRestarts => RestartsKeep(c, w, w.registry);
  }

  lemma NextKeeps(c: Config, w: World, step: Step)
    requires Separated(c) && Inv(c, w)
    ensures Inv(c, Next(c, w, step))
  {
    if AtGateOrBefore(step) { EarlyStepKeeps(c, w, step); } else { LateStepKeeps(c, w, step); }
  }

  /** The invariant holds after every run. */
  lemma {:induction false} RunKeeps(c: Config, registry: CapabilityRegistry, steps: seq<Step>)
    requires Separated(c)
    ensures Inv(c, Run(c, registry, steps))
  {
    if |steps| == 0 {
      StartOk(c, registry);
    } else {
      RunKeeps(c, registry, steps[..|steps| - 1]);
      NextKeeps(c, Run(c, registry, steps[..|steps| - 1]), steps[|steps| - 1]);
    }
  }
}
