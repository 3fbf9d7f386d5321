/** The services of the appliance: what the review signer, gate, executor and verifier compute, and the handlers that
    keep their persistent state. */
module Appliance {
  import opened Decimals
  import opened Envelopes
  import opened Gate
  import opened JsonValues
  import opened Ledgers
  import opened Receipts
  import opened Records
  import opened ReviewLeases
  import opened SignedReview

  const APPLIANCE_VERSION := "0.9"
  const MAX_PERMIT_TTL := 300

  // ----- Review signer --------------------------------------------------------------------------

  /** `review_signer_handler`: a lease for whatever base decision the client sends, given an explicit approval. */
  function ApproveReview(request: ActionRequest, base: GateDecision, approved: bool, approvedBy: string, ttl: int,
                         leaseId: string, signer: Signer, now: Time, text: string): Result<SignedEnvelope>
  {
    if !approved || Blank(approvedBy) then Error(ApprovalRequired)
    else if !ValidRequest(request) then Error(InvalidRequest)
    else IssueSignedLease(request, base, signer, ttl, leaseId, now, None, text)
  }

  // ----- Gate -----------------------------------------------------------------------------------

  /** The entry that marks a lease among the matched grant ids. */
  function LeaseTag(leaseId: string): string {
    "signed-review-lease:" + leaseId
  }

  function ReleasedDecision(base: GateDecision, leaseId: string): GateDecision {
    GateDecision(ALLOW, SignedLeaseRedeemed, base.matchedGrantIds + [LeaseTag(leaseId)])
  }

  /** The decision after a lease, if one came along, has been tried. */
  function Decide(base: GateDecision, reply: Option<ReviewAuthorization>): GateDecision {
    if base.verdict != REVIEW then base
    else
      match reply
      case None => base
      case Some(Released(leaseId)) => ReleasedDecision(base, leaseId)
      case Some(Refused(why, _)) => GateDecision(REVIEW, SignedLeaseRejected(why), base.matchedGrantIds)
  }

  function TryLease(book: Book, trust: TrustStore, rows: Table, request: ActionRequest, base: GateDecision,
                    lease: Option<SignedEnvelope>, now: Time): Option<ReviewAuthorization>
  {
    if base.verdict == REVIEW && lease.Some? then
      Some(SignedReply(book, trust, rows, lease.value, request, base, now))
    else None
  }

  function RowsAfterTry(book: Book, trust: TrustStore, rows: Table, request: ActionRequest, base: GateDecision,
                        lease: Option<SignedEnvelope>, now: Time): Table
  {
    if base.verdict == REVIEW && lease.Some? then
      SignedRows(book, trust, rows, lease.value, request, base, now)
    else rows
  }

  function PermitId(request: ActionRequest, now: Time): string {
    "permit-" + request.requestId + "-" + Decimal(now / SECOND)
  }

  function NewPermit(request: ActionRequest, decision: GateDecision, registry: CapabilityRegistry, ttl: int, now: Time)
    : Result<Permit>
  {
    if ttl < 1 || ttl > MAX_PERMIT_TTL then Error(TtlOutOfRange)
    else if decision.verdict != ALLOW then Error(NotAllowed)
    else
      Ok(Permit(APPLIANCE_VERSION, PermitId(request, now), RequestDigest(request),
                request.requestId, request.capability, request.action, request.resource, request.actor,
                decision.verdict, decision.reason, decision.matchedGrantIds, registry.registryId, registry.version,
                now, now + ttl * SECOND, 1, ExecutionOnce))
  }

  function SignPermit(permit: Permit, signer: Signer, now: Time, text: string): SignedEnvelope {
    SignPayload(ExecutionPermitType, PermitPayload(permit), signer, now, None, text)
  }

  datatype GateResponse = GateResponse(base: GateDecision, decision: GateDecision, permit: Option<SignedEnvelope>)

  class GateService {
    const glob: Glob
    const registry: CapabilityRegistry
    const signer: Signer
    const permitTtl: int
    const authorizer: SignedReviewAuthorizer

    constructor (glob: Glob, registry: CapabilityRegistry, signer: Signer, permitTtl: int,
                 authorizer: SignedReviewAuthorizer)
      ensures this.glob == glob && this.registry == registry && this.signer == signer
      ensures this.permitTtl == permitTtl && this.authorizer == authorizer
    {
      this.glob, this.registry, this.signer := glob, registry, signer;
      this.permitTtl, this.authorizer := permitTtl, authorizer;
    }

    /** `gate_handler`.  The lease and the permit are stamped from two readings of the clock. */
    method Authorize(book: Book, request: ActionRequest, lease: Option<SignedEnvelope>, redeemAt: Time, permitAt: Time,
                     text: string) returns (r: Result<GateResponse>)
      modifies authorizer.ledger
      ensures var trust, rows := authorizer.trust, old(authorizer.ledger.rows);
        var base := Evaluate(glob, request, registry);
        var decision := Decide(base, TryLease(book, trust, rows, request, base, lease, redeemAt));
        if !ValidRequest(request) then r == Error(InvalidRequest) && authorizer.ledger.rows == rows
        else
          && authorizer.ledger.rows == RowsAfterTry(book, trust, rows, request, base, lease, redeemAt)
          && if decision.verdict != ALLOW then r == Ok(GateResponse(base, decision, None))
             else
               match NewPermit(request, decision, registry, permitTtl, permitAt)
               case Error(fault) => r == Error(fault)
               case Ok(permit) =>
                 r == Ok(GateResponse(base, decision, Some(SignPermit(permit, signer, permitAt, text))))
      ensures r.Ok? ==>
        var base, decision := Evaluate(glob, request, registry), r.value.decision;
        && r.value.base == base && (r.value.permit.Some? <==> decision.verdict == ALLOW)
        && if base.verdict != REVIEW || lease.None? then decision == base
           else
             match SignedReply(book, authorizer.trust, old(authorizer.ledger.rows), lease.value, request, base,
                               redeemAt)
             case Released(id) =>
               && decision.verdict == ALLOW && decision.reason == SignedLeaseRedeemed
               && decision.matchedGrantIds == base.matchedGrantIds + ["signed-review-lease:" + id]
             case Refused(why, _) =>
               && decision.verdict == REVIEW && decision.reason == SignedLeaseRejected(why)
               && decision.matchedGrantIds == base.matchedGrantIds
    {
      if !ValidRequest(request) {
        return Error(InvalidRequest);
      }
      var base := Evaluate(glob, request, registry);
      var decision := base;
      if base.verdict == REVIEW && lease.Some? {
        var authorization := authorizer.Redeem(book, lease.value, request, base, redeemAt);
        if authorization.Released? {
          decision := GateDecision(ALLOW, SignedLeaseRedeemed,
                                   base.matchedGrantIds + [LeaseTag(authorization.leaseId)]);
        } else {
          decision := GateDecision(REVIEW, SignedLeaseRejected(authorization.why), base.matchedGrantIds);
        }
      }
      if decision.verdict != ALLOW {
        return Ok(GateResponse(base, decision, None));
      }
      var permit := NewPermit(request, decision, registry, permitTtl, permitAt);
      if permit.Error? {
        return Error(permit.fault);
      }
      return Ok(GateResponse(base, decision, Some(SignPermit(permit.value, signer, permitAt, text))));
    }
  }

  // ----- Executor -------------------------------------------------------------------------------

  datatype PermitAuthorization =
    | PermitRedeemed(permitId: string, decision: GateDecision, registryId: string, registryVersion: string)
    | PermitRefused(why: PermitRefusal)

  function PermitPolicy(trust: TrustStore): Policy {
    Policy(trust, Some(PermitIssuer), Some(ExecutionPermitType))
  }

  /** The first field of the permit that differs from the request. */
  function FieldMismatch(permit: Permit, request: ActionRequest): Option<RequestField> {
    if permit.requestId != request.requestId then Some(RequestIdField)
    else if permit.capability != request.capability then Some(CapabilityField)
    else if permit.action != request.action then Some(ActionField)
    else if permit.resource != request.resource then Some(ResourceField)
    else if permit.actor != request.actor then Some(ActorField)
    else None
  }

  /** The checks before the ledger: why the permit does not release the request, or None. */
  function RefusePermit(book: Book, trust: TrustStore, envelope: SignedEnvelope, request: ActionRequest, now: Time)
    : Option<PermitRefusal>
  {
    var verified := VerifyEnvelope(book, envelope, PermitPolicy(trust));
    if verified.reason.Some? then Some(PermitEnvelopeRejected(verified.reason.value))
    else if !envelope.view.payload.PermitPayload? then Some(PermitFieldsMismatch)
    else
      var permit := envelope.view.payload.permit;
      if permit.permitVersion != APPLIANCE_VERSION then Some(PermitVersionMismatch)
      else if permit.authorityEffect != ExecutionOnce || permit.maxUses != 1 then Some(PermitAuthorityInvalid)
      else if permit.gateVerdict != ALLOW then Some(PermitGateNotAllow)
      else if now < permit.issuedAt then Some(PermitNotYetValid)
      else if now >= permit.expiresAt then Some(PermitExpired)
      else if RequestDigest(request) != permit.requestDigest then Some(PermitDigestMismatch)
      else
        match FieldMismatch(permit, request)
        case Some(field) => Some(PermitFieldDiffers(field))
        case None => None
  }

  /** The permit releases the request at `now`, ledger aside. */
  predicate PermitReleases(book: Book, trust: TrustStore, envelope: SignedEnvelope, request: ActionRequest, now: Time) {
    && Accepted(book, envelope, PermitPolicy(trust))
    && envelope.view.payload.PermitPayload?
    && var permit := envelope.view.payload.permit;
    && permit.permitVersion == APPLIANCE_VERSION && permit.authorityEffect == ExecutionOnce && permit.maxUses == 1
    && permit.gateVerdict == ALLOW
    && permit.issuedAt <= now < permit.expiresAt
    && permit.requestDigest == RequestDigest(request)
    && permit.requestId == request.requestId && permit.capability == request.capability
    && permit.action == request.action && permit.resource == request.resource && permit.actor == request.actor
  }

  lemma PermitReleasesIff(book: Book, trust: TrustStore, envelope: SignedEnvelope, request: ActionRequest, now: Time)
    ensures RefusePermit(book, trust, envelope, request, now).None?
      <==> PermitReleases(book, trust, envelope, request, now)
  {
    VerifiedIffSigned(book, envelope, PermitPolicy(trust));
  }

  /** The permit is accepted and its row goes into the ledger. */
  predicate PermitGranted(book: Book, trust: TrustStore, rows: Table, envelope: SignedEnvelope, request: ActionRequest,
                          now: Time)
  {
    && RefusePermit(book, trust, envelope, request, now).None?
    && envelope.view.payload.PermitPayload?
    && Fresh(rows, envelope.view.payload.permit.permitId, envelope.envelopeHash)
  }

  function RowsAfterPermit(book: Book, trust: TrustStore, rows: Table, envelope: SignedEnvelope, request: ActionRequest,
                           now: Time): Table
  {
    if PermitGranted(book, trust, rows, envelope, request, now) then
      rows[envelope.view.payload.permit.permitId := Row(envelope.envelopeHash, now)]
    else rows
  }

  method VerifyAndConsume(book: Book, trust: TrustStore, ledger: OneShotLedger, envelope: SignedEnvelope,
                          request: ActionRequest, now: Time) returns (r: PermitAuthorization)
    modifies ledger
    ensures r.PermitRedeemed? == PermitGranted(book, trust, old(ledger.rows), envelope, request, now)
    ensures ledger.rows == RowsAfterPermit(book, trust, old(ledger.rows), envelope, request, now)
    ensures r.PermitRedeemed? ==>
      var permit := envelope.view.payload.permit;
      r == PermitRedeemed(permit.permitId, GateDecision(ALLOW, permit.gateReason, permit.matchedGrantIds),
                          permit.registryId, permit.registryVersion)
    ensures r.PermitRefused? ==>
      Some(r.why) == match RefusePermit(book, trust, envelope, request, now)
                     case Some(why) => Some(why)
                     case None => Some(PermitAlreadyUsed)
  {
    var refusal := RefusePermit(book, trust, envelope, request, now);
    if refusal.Some? {
      return PermitRefused(refusal.value);
    }
    PermitReleasesIff(book, trust, envelope, request, now);
    var permit := envelope.view.payload.permit;
    var consumed := ledger.Consume(permit.permitId, envelope.envelopeHash, now);
    if !consumed {
      return PermitRefused(PermitAlreadyUsed);
    }
    return PermitRedeemed(permit.permitId, GateDecision(ALLOW, permit.gateReason, permit.matchedGrantIds),
                          permit.registryId, permit.registryVersion);
  }

  /** What the adapter did: its output, or the error it raised. */
  datatype Observation = Returned(output: Json) | Raised(error: Json)

  function OutcomeOf(observed: Observation): Outcome {
    if observed.Returned? then SUCCEEDED else FAILED
  }

  function ResultOf(observed: Observation): Json {
    match observed
    case Returned(output) => output
    case Raised(error) => error
  }

  function ResultId(request: ActionRequest, now: Time): string {
    "result-" + request.requestId + "-" + Decimal(now)
  }

  function NewResult(request: ActionRequest, permit: SignedEnvelope, observed: Observation, now: Time): ExecutionResult
    requires permit.view.payload.PermitPayload?
  {
    ExecutionResult(APPLIANCE_VERSION, ResultId(request, now),
                    permit.view.payload.permit.permitId, permit.envelopeHash, RequestDigest(request),
                    request.requestId, request.capability, request.action, request.resource, OutcomeOf(observed),
                    ResultOf(observed), now, EvidenceOnly)
  }

  function SignResult(request: ActionRequest, permit: SignedEnvelope, observed: Observation, signer: Signer, now: Time,
                      text: string): SignedEnvelope
    requires permit.view.payload.PermitPayload?
  {
    SignPayload(ExecutionResultType, ResultPayload(NewResult(request, permit, observed, now)), signer, now, None, text)
  }

  class ExecutorService {
    const trust: TrustStore
    const signer: Signer
    const ledger: OneShotLedger
    /** The requests handed to the adapters, in order. */
    var dispatched: seq<ActionRequest>

    constructor (trust: TrustStore, signer: Signer, ledger: OneShotLedger)
      ensures this.trust == trust && this.signer == signer && this.ledger == ledger && dispatched == []
    {
      this.trust, this.signer, this.ledger, dispatched := trust, signer, ledger, [];
    }

    /** `executor_handler`: consume the permit, dispatch once, sign what came out. */
    method Execute(book: Book, request: ActionRequest, permit: SignedEnvelope, observed: Observation, acceptAt: Time,
                   signAt: Time, text: string) returns (r: Option<SignedEnvelope>)
      modifies this`dispatched, ledger
      ensures var rows := old(ledger.rows);
        var granted := ValidRequest(request) && PermitGranted(book, trust, rows, permit, request, acceptAt);
        if granted then
          && ledger.rows == rows[permit.view.payload.permit.permitId := Row(permit.envelopeHash, acceptAt)]
          && dispatched == old(dispatched) + [request]
          && r == Some(SignResult(request, permit, observed, signer, signAt, text))
        else ledger.rows == rows && dispatched == old(dispatched) && r == None
      ensures r.Some? ==>
        && r.value.view.payload.ResultPayload?
        && var result := r.value.view.payload.result;
        && (result.outcome == SUCCEEDED <==> observed.Returned?) && (result.outcome == FAILED <==> observed.Raised?)
        && match observed
           case Returned(output) => result.result == output
           case Raised(error) => result.result == error
    {
      if !ValidRequest(request) {
        return None;
      }
      var authorization := VerifyAndConsume(book, trust, ledger, permit, request, acceptAt);
      if authorization.PermitRefused? {
        return None;
      }
      dispatched := dispatched + [request];
      return Some(SignResult(request, permit, observed, signer, signAt, text));
    }
  }

  // ----- Verifier -------------------------------------------------------------------------------

  function ResultPolicy(trust: TrustStore): Policy {
    Policy(trust, Some(ResultSigner), Some(ExecutionResultType))
  }

  /** `verify_execution_result`: why the result is not evidence for the request under the permit, or None. */
  function RefuseResult(book: Book, trust: TrustStore, envelope: SignedEnvelope, permit: SignedEnvelope,
                        request: ActionRequest): Option<ResultRefusal>
  {
    var verified := VerifyEnvelope(book, envelope, ResultPolicy(trust));
    if verified.reason.Some? then Some(ResultEnvelopeRejected(verified.reason.value))
    else if !envelope.view.payload.ResultPayload? || envelope.view.payload.result.authorityEffect != EvidenceOnly then
      Some(ResultAuthorityInvalid)
    else
      var result := envelope.view.payload.result;
      if result.permitHash != permit.envelopeHash then Some(ResultPermitHashMismatch)
      else if !permit.view.payload.PermitPayload? || result.permitId != permit.view.payload.permit.permitId then
        Some(ResultPermitIdMismatch)
      else if result.requestDigest != RequestDigest(request) then Some(ResultDigestMismatch)
      else if result.requestId != request.requestId then Some(ResultFieldDiffers(RequestIdField))
      else if result.capability != request.capability then Some(ResultFieldDiffers(CapabilityField))
      else if result.action != request.action then Some(ResultFieldDiffers(ActionField))
      else if result.resource != request.resource then Some(ResultFieldDiffers(ResourceField))
      else if result.outcome != SUCCEEDED && result.outcome != FAILED then Some(ResultOutcomeInvalid)
      else None
  }

  /** The two hashes that the verifier keeps in its state file. */
  datatype ChainState = ChainState(receiptHash: Option<Digest>, envelopeHash: Option<Digest>)

  datatype Finalized = Finalized(receipt: ActionReceipt, envelope: SignedEnvelope)

  /** `final_receipt_from_appliance`.  The permit is not compared with the request here. */
  function FinalReceipt(book: Book, trust: TrustStore, request: ActionRequest, permit: SignedEnvelope,
                        result: SignedEnvelope, signer: Signer, chain: ChainState, now: Time, text: string)
    : Result<Finalized>
  {
    var permitCheck := VerifyEnvelope(book, permit, PermitPolicy(trust));
    if permitCheck.reason.Some? then Error(PermitRejected(permitCheck.reason.value))
    else
      match RefuseResult(book, trust, result, permit, request)
      case Some(refusal) => Error(ResultRejected(refusal))
      case None =>
        if !permit.view.payload.PermitPayload? || !result.view.payload.ResultPayload? then Error(MissingField)
        else
          var p, e := permit.view.payload.permit, result.view.payload.result;
          var receipt := CreateReceipt(request, GateDecision(ALLOW, p.gateReason, p.matchedGrantIds), p.registryId,
                                       p.registryVersion, e.outcome, e.result, chain.receiptHash, now);
          Ok(Finalized(receipt, SignReceipt(receipt, signer, now, chain.envelopeHash, text)))
  }

  class VerifierService {
    const trust: TrustStore
    const signer: Signer
    var chain: ChainState

    /** Starts on the state file, or without one. */
    constructor (trust: TrustStore, signer: Signer, persisted: Option<ChainState>)
      ensures this.trust == trust && this.signer == signer
      ensures chain == if persisted.Some? then persisted.value else ChainState(None, None)
    {
      this.trust, this.signer := trust, signer;
      chain := if persisted.Some? then persisted.value else ChainState(None, None);
    }

    /** `verifier_handler`. */
    method Finalize(book: Book, request: ActionRequest, permit: SignedEnvelope, result: SignedEnvelope, now: Time,
                    text: string) returns (r: Result<Finalized>)
      modifies this
      ensures var made := FinalReceipt(book, trust, request, permit, result, signer, old(chain), now, text);
        && r == (if ValidRequest(request) then made else Error(InvalidRequest))
        && chain == if r.Error? then old(chain)
                    else ChainState(Some(r.value.receipt.receiptHash), Some(r.value.envelope.envelopeHash))
    {
      if !ValidRequest(request) {
        return Error(InvalidRequest);
      }
      r := FinalReceipt(book, trust, request, permit, result, signer, chain, now, text);
      if r.Ok? {
        chain := ChainState(Some(r.value.receipt.receiptHash), Some(r.value.envelope.envelopeHash));
      }
    }
  }
}
