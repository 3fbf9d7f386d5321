/** Runs of the whole appliance.

    A run is any sequence of steps.  A client sends any message at any time; every step reads a clock value of its own;
    a service may stop between any two steps of a handler and starts again with what it had stored.  Each service
    handles one message at a time. */
module ApplianceRun {
  import opened Appliance
  import opened Envelopes
  import opened Gate
  import opened Ledgers
  import opened Records

  /** The deployment: signing identities, trust stores and the permit lifetime.  `serviceKeys` are the keys that only
      the services hold. */
  datatype Config = Config(
    glob: Glob, serviceKeys: set<string>, reviewSigner: Signer, gateSigner: Signer, executorSigner: Signer,
    verifierSigner: Signer, gateTrust: TrustStore, executorTrust: TrustStore, verifierTrust: TrustStore,
    publicTrust: TrustStore, permitTtl: int)

  predicate OnlyServiceKeys(serviceKeys: set<string>, trust: TrustStore, role: Role) {
    forall k :: k in trust && trust[k].active && role in trust[k].roles ==> k in serviceKeys
  }

  /** Service keys sign for services only, and a role that releases anything is given to service keys only. */
  predicate Separated(c: Config) {
    && {c.reviewSigner.keyId, c.gateSigner.keyId, c.executorSigner.keyId, c.verifierSigner.keyId} <= c.serviceKeys
    && OnlyServiceKeys(c.serviceKeys, c.gateTrust, ReviewIssuer)
    && OnlyServiceKeys(c.serviceKeys, c.executorTrust, PermitIssuer)
    && OnlyServiceKeys(c.serviceKeys, c.verifierTrust, PermitIssuer)
    && OnlyServiceKeys(c.serviceKeys, c.verifierTrust, ResultSigner)
  }

  // ----- What happened --------------------------------------------------------------------------

  /** A lease the review signer signed; `claimed` is the base decision the client sent. */
  datatype LeaseIssue = LeaseIssue(
    request: ActionRequest, claimed: GateDecision, approvedBy: string, ttl: int, lease: ReviewLease,
    view: SignatureView)

  /** A lease the gate consumed. */
  datatype Redemption = Redemption(request: ActionRequest, base: GateDecision, lease: ReviewLease, at: Time)

  /** A permit the gate signed, with the registry it had loaded and the lease it had consumed, if any. */
  datatype PermitIssue = PermitIssue(
    request: ActionRequest, registry: CapabilityRegistry, base: GateDecision, decision: GateDecision,
    redemption: Option<Redemption>, permit: Permit, view: SignatureView)

  /** A request handed to the adapters, with the permit accepted for it. */
  datatype Dispatch = Dispatch(
    request: ActionRequest, permit: SignedEnvelope, permitId: string, acceptedAt: Time, observed: Observation)

  datatype ResultIssue = ResultIssue(dispatch: Dispatch, result: ExecutionResult, view: SignatureView)

  /** A receipt whose hash went into the state file; `replied` once the client got it. */
  datatype Saved = Saved(request: ActionRequest, receipt: ActionReceipt, envelope: SignedEnvelope, replied: bool)

  // ----- What the services are in the middle of -------------------------------------------------

  datatype GateTask =
    | GateIdle
    | Deciding(request: ActionRequest, base: GateDecision, decision: GateDecision, redemption: Option<Redemption>)

  datatype ExecutorTask =
    | ExecutorIdle
    | Accepting(request: ActionRequest, permit: SignedEnvelope, at: Time)
    | Executed(dispatch: Dispatch)

  datatype VerifierTask =
    | VerifierIdle
    | Signed(request: ActionRequest, made: Finalized)
    | Stored

  datatype World = World(
    registry: CapabilityRegistry, book: Book,
    reviewRows: Table, permitRows: Table, chain: ChainState,
    gate: GateTask, executor: ExecutorTask, verifier: VerifierTask,
    leases: set<LeaseIssue>, redemptions: seq<Redemption>, permits: seq<PermitIssue>, dispatches: seq<Dispatch>,
    results: set<ResultIssue>, saved: seq<Saved>)

  function Start(registry: CapabilityRegistry): World {
    World(registry, {}, map[], map[], ChainState(None, None), GateIdle, ExecutorIdle, VerifierIdle,
          {}, [], [], [], {}, [])
  }

  // ----- Steps ----------------------------------------------------------------------------------

  datatype Step =
    | OutsiderSigns(signature: Signature)
    | AnotherSignatureText(known: Signature, text: string)
    | Approve(request: ActionRequest, claimed: GateDecision, approved: bool, approvedBy: string, ttl: int,
              leaseId: string, at: Time, text: string)
    | GateDecides(request: ActionRequest, lease: Option<SignedEnvelope>, at: Time)
    | GateSigns(at: Time, text: string)
    | GateRestarts(registry: CapabilityRegistry)
    | ExecutorAccepts(request: ActionRequest, permit: SignedEnvelope, at: Time)
    | ExecutorDispatches(observed: Observation)
    | ExecutorSigns(at: Time, text: string)
    | ExecutorRestarts
    | VerifierSigns(request: ActionRequest, permit: SignedEnvelope, result: SignedEnvelope, at: Time, text: string)
    | VerifierStores
    | VerifierReplies
    | VerifierRestarts

  /** Whoever is not a service signs what it likes with its own keys. */
  function OutsiderSign(c: Config, w: World, signature: Signature): World {
    if signature.keyId in c.serviceKeys then w else w.(book := w.book + {signature})
  }

  /** A signed view may have further texts that verify. */
  function AddText(w: World, known: Signature, text: string): World {
    if known in w.book then w.(book := w.book + {known.(text := text)}) else w
  }

  function ApproveStep(c: Config, w: World, request: ActionRequest, claimed: GateDecision, approved: bool,
                       approvedBy: string, ttl: int, leaseId: string, at: Time, text: string): World
  {
    match ApproveReview(request, claimed, approved, approvedBy, ttl, leaseId, c.reviewSigner, at, text)
    case Error(_) => w
    case Ok(envelope) =>
      if envelope.view.payload.LeasePayload? then
        w.(book := w.book + {SignatureOf(envelope)},
           leases := w.leases
             + {LeaseIssue(request, claimed, approvedBy, ttl, envelope.view.payload.lease, envelope.view)})
      else w
  }

  /** Evaluate the request and try the lease: a lease that is accepted is consumed here. */
  function GateDecide(c: Config, w: World, request: ActionRequest, lease: Option<SignedEnvelope>, at: Time): World {
    if !w.gate.GateIdle? || !ValidRequest(request) then w
    else
      var base := Evaluate(c.glob, request, w.registry);
      if base.verdict == ALLOW then w.(gate := Deciding(request, base, base, None))
      else
        var reply := TryLease(w.book, c.gateTrust, w.reviewRows, request, base, lease, at);
        var decision := Decide(base, reply);
        if decision.verdict != ALLOW || lease.None? || !lease.value.view.payload.LeasePayload? then w
        else
          var redemption := Redemption(request, base, lease.value.view.payload.lease, at);
          w.(reviewRows := RowsAfterTry(w.book, c.gateTrust, w.reviewRows, request, base, lease, at),
             redemptions := w.redemptions + [redemption],
             gate := Deciding(request, base, decision, Some(redemption)))
  }

  /** Sign the permit, stamped with another reading of the clock. */
  function GateSign(c: Config, w: World, at: Time, text: string): World {
    if !w.gate.Deciding? then w
    else
      match NewPermit(w.gate.request, w.gate.decision, w.registry, c.permitTtl, at)
      case Error(_) => w.(gate := GateIdle)
      case Ok(permit) =>
        var envelope := SignPermit(permit, c.gateSigner, at, text);
        var issue := PermitIssue(w.gate.request, w.registry, w.gate.base, w.gate.decision, w.gate.redemption, permit,
                                 envelope.view);
        w.(gate := GateIdle, book := w.book + {SignatureOf(envelope)}, permits := w.permits + [issue])
  }

  function ExecutorAccept(c: Config, w: World, request: ActionRequest, permit: SignedEnvelope, at: Time): World {
    if !w.executor.ExecutorIdle? || !ValidRequest(request)
       || !PermitGranted(w.book, c.executorTrust, w.permitRows, permit, request, at) then w
    else
      w.(permitRows := RowsAfterPermit(w.book, c.executorTrust, w.permitRows, permit, request, at),
         executor := Accepting(request, permit, at))
  }

  function ExecutorDispatch(w: World, observed: Observation): World {
    if !w.executor.Accepting? || !w.executor.permit.view.payload.PermitPayload? then w
    else
      var dispatch := Dispatch(w.executor.request, w.executor.permit, w.executor.permit.view.payload.permit.permitId,
                               w.executor.at, observed);
      w.(dispatches := w.dispatches + [dispatch], executor := Executed(dispatch))
  }

  function ExecutorSign(c: Config, w: World, at: Time, text: string): World {
    if !w.executor.Executed? || !w.executor.dispatch.permit.view.payload.PermitPayload? then w
    else
      var d := w.executor.dispatch;
      var envelope := SignResult(d.request, d.permit, d.observed, c.executorSigner, at, text);
      w.(executor := ExecutorIdle, book := w.book + {SignatureOf(envelope)},
         results := w.results + {ResultIssue(d, NewResult(d.request, d.permit, d.observed, at), envelope.view)})
  }

  function VerifierSign(c: Config, w: World, request: ActionRequest, permit: SignedEnvelope, result: SignedEnvelope,
                        at: Time, text: string): World
  {
    if !w.verifier.VerifierIdle? || !ValidRequest(request) then w
    else
      match FinalReceipt(w.book, c.verifierTrust, request, permit, result, c.verifierSigner, w.chain, at, text)
      case Error(_) => w
      case Ok(made) => w.(verifier := Signed(request, made), book := w.book + {SignatureOf(made.envelope)})
  }

  function VerifierStore(w: World): World {
    if !w.verifier.Signed? then w
    else
      var made := w.verifier.made;
      w.(chain := ChainState(Some(made.receipt.receiptHash), Some(made.envelope.envelopeHash)), verifier := Stored,
         saved := w.saved + [Saved(w.verifier.request, made.receipt, made.envelope, false)])
  }

  function VerifierReply(w: World): World {
    if !w.verifier.Stored? || |w.saved| == 0 then w
    else
      var n := |w.saved| - 1;
      w.(verifier := VerifierIdle, saved := w.saved[n := w.saved[n].(replied := true)])
  }

  function Next(c: Config, w: World, step: Step): World {
    match step
    case OutsiderSigns(signature) => OutsiderSign(c, w, signature)
    case AnotherSignatureText(known, text) => AddText(w, known, text)
    case Approve(request, claimed, approved, approvedBy, ttl, leaseId, at, text) =>
      ApproveStep(c, w, request, claimed, approved, approvedBy, ttl, leaseId, at, text)
    case GateDecides(request, lease, at) => GateDecide(c, w, request, lease, at)
    case GateSigns(at, text) => GateSign(c, w, at, text)
    case GateRestarts(registry) => w.(gate := GateIdle, registry := registry)
    case ExecutorAccepts(request, permit, at) => ExecutorAccept(c, w, request, permit, at)
    case ExecutorDispatches(observed) => ExecutorDispatch(w, observed)
    case ExecutorSigns(at, text) => ExecutorSign(c, w, at, text)
    case ExecutorRestarts => w.(executor := ExecutorIdle)
    case VerifierSigns(request, permit, result, at, text) => VerifierSign(c, w, request, permit, result, at, text)
    case VerifierStores => VerifierStore(w)
    case VerifierReplies => VerifierReply(w)
    case VerifierRestarts => w.(verifier := VerifierIdle)
  }

  function Run(c: Config, registry: CapabilityRegistry, steps: seq<Step>): World {
    if |steps| == 0 then Start(registry) else Next(c, Run(c, registry, steps[..|steps| - 1]), steps[|steps| - 1])
  }
}
