/** What the answers and the records of the appliance's services tell. */
module ApplianceAnswers {
  import opened Appliance
  import opened Decimals
  import opened Envelopes
  import opened Records
  import opened ReviewLeases

  /** The envelope is the signer's, about its payload, with these particulars. */
  ghost predicate SignedBy(envelope: SignedEnvelope, signer: Signer, payloadType: PayloadType, at: Time,
                           previous: Option<Digest>, text: string)
  {
    var view := envelope.view;
    && view.payloadType == payloadType && view.payloadHash == Sha256(PayloadBody(view.payload))
    && view.signerId == signer.subject && view.keyId == signer.keyId && view.signedAt == at
    && view.previous == previous
    && envelope.signature == text && envelope.envelopeHash == Sha256(EnvelopeBody(view, text))
  }

  // ----- Review signer --------------------------------------------------------------------------

  /** What the review signer's answer tells: only an explicit approval by somebody leads to a lease, and the lease is
      signed in the signer's own name. */
  lemma ApproveAnswers(request: ActionRequest, base: GateDecision, approved: bool, approvedBy: string, ttl: int,
                       leaseId: string, signer: Signer, now: Time, text: string)
    ensures var willing := approved && !Blank(approvedBy);
      var lease := NewLease("signed-lease-", request, base, signer.subject, ttl, leaseId, now);
      match ApproveReview(request, base, approved, approvedBy, ttl, leaseId, signer, now, text)
      case Error(ApprovalRequired) => !willing
      case Error(InvalidRequest) => willing && !ValidRequest(request)
      case Error(fault) => willing && ValidRequest(request) && lease == Error(fault)
      case Ok(envelope) =>
        && willing && ValidRequest(request) && lease.Ok?
        && SignedBy(envelope, signer, ReviewLeaseType, now, None, text)
        && envelope.view.payload == LeasePayload(lease.value, OneShotReviewOnly)
  {
  }

  // ----- Permits --------------------------------------------------------------------------------

  /** Permit ids coincide only for one request id within one second. */
  lemma PermitIdsDiffer(request: ActionRequest, now: Time, request': ActionRequest, now': Time)
    ensures PermitId(request, now) == PermitId(request', now') <==>
      request.requestId == request'.requestId && now / 1_000_000 == now' / 1_000_000
  {
    hide Decimal;
    NumberedTextsDiffer("permit-" + request.requestId, now / SECOND, "permit-" + request'.requestId, now' / SECOND);
    assert request.requestId == ("permit-" + request.requestId)[7..];
    assert request'.requestId == ("permit-" + request'.requestId)[7..];
  }

  /** A permit is made for an allowed request only; it names the decision and the registry. */
  lemma NewPermitAnswers(request: ActionRequest, decision: GateDecision, registry: CapabilityRegistry, ttl: int,
                         now: Time)
    ensures var inRange := 1 <= ttl <= 300;
      match NewPermit(request, decision, registry, ttl, now)
      case Error(TtlOutOfRange) => !inRange
      case Error(NotAllowed) => inRange && decision.verdict != ALLOW
      case Error(_) => false
      case Ok(permit) =>
        && inRange && decision.verdict == ALLOW
        && permit.permitId == "permit-" + request.requestId + "-" + Decimal(now / 1_000_000)
        && permit.gateReason == decision.reason && permit.matchedGrantIds == decision.matchedGrantIds
        && permit.registryId == registry.registryId && permit.registryVersion == registry.version
  {
    hide Decimal;
  }

  /** The gate signs the permit under its own name, and nothing comes before it. */
  lemma PermitIsSigned(permit: Permit, signer: Signer, now: Time, text: string)
    ensures var envelope := SignPermit(permit, signer, now, text);
      SignedBy(envelope, signer, ExecutionPermitType, now, None, text) && envelope.view.payload == PermitPayload(permit)
  {
  }

  /** A new permit releases exactly the request it was made for, for the time it was given, wherever its signer is
      trusted. */
  lemma NewPermitReleases(book: Book, trust: TrustStore, request: ActionRequest, decision: GateDecision,
                          registry: CapabilityRegistry, ttl: int, issuedAt: Time, signer: Signer, text: string,
                          request': ActionRequest, now: Time)
    requires NewPermit(request, decision, registry, ttl, issuedAt).Ok?
    ensures var envelope :=
        SignPermit(NewPermit(request, decision, registry, ttl, issuedAt).value, signer, issuedAt, text);
      RefusePermit(book, trust, envelope, request', now).None? <==>
        && Trusts(Policy(trust, Some(PermitIssuer), Some(ExecutionPermitType)), signer)
        && Signature(signer.keyId, envelope.view, text) in book
        && request' == request && issuedAt <= now < issuedAt + ttl * 1_000_000
  {
    hide PermitId, RefusePermit, VerifyEnvelope;
    var envelope := SignPermit(NewPermit(request, decision, registry, ttl, issuedAt).value, signer, issuedAt, text);
    PermitReleasesIff(book, trust, envelope, request', now);
  }

  /** What the executor's answer to a permit tells: the checks before the one it names have passed, and that one has
      not. */
  lemma PermitAnswers(book: Book, trust: TrustStore, envelope: SignedEnvelope, request: ActionRequest, now: Time)
    ensures var policy := Policy(trust, Some(PermitIssuer), Some(ExecutionPermitType));
      var refusal, payload := RefusePermit(book, trust, envelope, request, now), envelope.view.payload;
      var signed := Accepted(book, envelope, policy);
      var ours := signed && payload.PermitPayload?;
      var known := ours && payload.permit.permitVersion == "0.9";
      var oneShot := known && payload.permit.authorityEffect == ExecutionOnce && payload.permit.maxUses == 1;
      var allowed := oneShot && payload.permit.gateVerdict == ALLOW;
      var begun := allowed && payload.permit.issuedAt <= now;
      var current := begun && now < payload.permit.expiresAt;
      var sameRequest := current && payload.permit.requestDigest == Sha256(RequestBody(request));
      var sameId := sameRequest && payload.permit.requestId == request.requestId;
      var sameCapability := sameId && payload.permit.capability == request.capability;
      var sameAction := sameCapability && payload.permit.action == request.action;
      var sameResource := sameAction && payload.permit.resource == request.resource;
      match refusal
      case Some(PermitEnvelopeRejected(failure)) => VerifyEnvelope(book, envelope, policy).reason == Some(failure)
      case Some(PermitFieldsMismatch) => signed && !ours
      case Some(PermitVersionMismatch) => ours && !known
      case Some(PermitAuthorityInvalid) => known && !oneShot
      case Some(PermitGateNotAllow) => oneShot && !allowed
      case Some(PermitNotYetValid) => allowed && !begun
      case Some(PermitExpired) => begun && !current
      case Some(PermitDigestMismatch) => current && !sameRequest
      case Some(PermitFieldDiffers(field)) =>
        if field == RequestIdField then sameRequest && !sameId
        else if field == CapabilityField then sameId && !sameCapability
        else if field == ActionField then sameCapability && !sameAction
        else if field == ResourceField then sameAction && !sameResource
        else sameResource && payload.permit.actor != request.actor
      case Some(PermitAlreadyUsed) => false
      case None => sameResource && payload.permit.actor == request.actor
  {
    hide VerifyEnvelope, Accepted;
    VerifiedIffSigned(book, envelope, PermitPolicy(trust));
  }

  // ----- Results --------------------------------------------------------------------------------

  /** Result ids coincide only for one request id at one instant. */
  lemma ResultIdsDiffer(request: ActionRequest, now: Time, request': ActionRequest, now': Time)
    ensures ResultId(request, now) == ResultId(request', now') <==>
      request.requestId == request'.requestId && now == now'
  {
    hide Decimal;
    NumberedTextsDiffer("result-" + request.requestId, now, "result-" + request'.requestId, now');
    assert request.requestId == ("result-" + request.requestId)[7..];
    assert request'.requestId == ("result-" + request'.requestId)[7..];
  }

  /** A result names its request and the permit that released it, tells what was observed, and is evidence only. */
  lemma NewResultTells(request: ActionRequest, permit: SignedEnvelope, observed: Observation, signer: Signer,
                       now: Time, text: string)
    requires permit.view.payload.PermitPayload?
    ensures var envelope := SignResult(request, permit, observed, signer, now, text);
      && SignedBy(envelope, signer, ExecutionResultType, now, None, text)
      && envelope.view.payload.ResultPayload?
      && var r := envelope.view.payload.result;
      && r.resultVersion == "0.9" && r.resultId == "result-" + request.requestId + "-" + Decimal(now)
      && r.permitId == permit.view.payload.permit.permitId && r.permitHash == permit.envelopeHash
      && r.requestDigest == Sha256(RequestBody(request)) && r.requestId == request.requestId
      && r.capability == request.capability && r.action == request.action && r.resource == request.resource
      && (r.outcome == SUCCEEDED <==> observed.Returned?) && (r.outcome == FAILED <==> observed.Raised?)
      && (match observed case Returned(output) => r.result == output case Raised(error) => r.result == error)
      && r.executedAt == now && r.authorityEffect == EvidenceOnly
  {
    hide Decimal;
  }

  /** What the verifier's answer to a result tells: the checks before the one it names have passed, and that one has
      not. */
  lemma ResultAnswers(book: Book, trust: TrustStore, envelope: SignedEnvelope, permit: SignedEnvelope,
                      request: ActionRequest)
    ensures var policy := Policy(trust, Some(ResultSigner), Some(ExecutionResultType));
      var refusal, payload := RefuseResult(book, trust, envelope, permit, request), envelope.view.payload;
      var signed := Accepted(book, envelope, policy);
      var evidence := signed && payload.ResultPayload? && payload.result.authorityEffect == EvidenceOnly;
      var samePermit := evidence && payload.result.permitHash == permit.envelopeHash;
      var samePermitId := samePermit && permit.view.payload.PermitPayload?
        && payload.result.permitId == permit.view.payload.permit.permitId;
      var sameRequest := samePermitId && payload.result.requestDigest == Sha256(RequestBody(request));
      var sameId := sameRequest && payload.result.requestId == request.requestId;
      var sameCapability := sameId && payload.result.capability == request.capability;
      var sameAction := sameCapability && payload.result.action == request.action;
      var sameResource := sameAction && payload.result.resource == request.resource;
      match refusal
      case Some(ResultEnvelopeRejected(failure)) => VerifyEnvelope(book, envelope, policy).reason == Some(failure)
      case Some(ResultAuthorityInvalid) => signed && !evidence
      case Some(ResultPermitHashMismatch) => evidence && !samePermit
      case Some(ResultPermitIdMismatch) => samePermit && !samePermitId
      case Some(ResultDigestMismatch) => samePermitId && !sameRequest
      case Some(ResultFieldDiffers(field)) =>
        if field == RequestIdField then sameRequest && !sameId
        else if field == CapabilityField then sameId && !sameCapability
        else if field == ActionField then sameCapability && !sameAction
        else field == ResourceField && sameAction && !sameResource
      case Some(ResultOutcomeInvalid) => sameResource && payload.result.outcome == NOT_EXECUTED
      case None => sameResource && (payload.result.outcome == SUCCEEDED || payload.result.outcome == FAILED)
  {
    hide VerifyEnvelope, Accepted;
    VerifiedIffSigned(book, envelope, ResultPolicy(trust));
  }

  // ----- Receipts -------------------------------------------------------------------------------

  /** What the verifier's answer tells: the receipt repeats the permit and the result, is stamped with the time of
      signing, and links to both hashes stored. */
  lemma FinalAnswers(book: Book, trust: TrustStore, request: ActionRequest, permit: SignedEnvelope,
                     result: SignedEnvelope, signer: Signer, chain: ChainState, now: Time, text: string)
    ensures var policy := Policy(trust, Some(PermitIssuer), Some(ExecutionPermitType));
      var refusal := RefuseResult(book, trust, result, permit, request);
      match FinalReceipt(book, trust, request, permit, result, signer, chain, now, text)
      case Error(PermitRejected(failure)) => VerifyEnvelope(book, permit, policy).reason == Some(failure)
      case Error(ResultRejected(why)) => Accepted(book, permit, policy) && refusal == Some(why)
      case Error(_) => false
      case Ok(made) =>
        && Accepted(book, permit, policy) && refusal == None
        && permit.view.payload.PermitPayload? && result.view.payload.ResultPayload?
        && var granted, e, b := permit.view.payload.permit, result.view.payload.result, made.receipt.body;
        && b.requestId == request.requestId && b.capability == request.capability && b.action == request.action
        && b.resource == request.resource
        && b.gate == ALLOW && b.gateReason == granted.gateReason && b.matchedGrantIds == granted.matchedGrantIds
        && b.outcome == e.outcome && b.result == e.result
        && b.registryId == granted.registryId && b.registryVersion == granted.registryVersion
        && b.createdAt == now && b.previousReceiptHash == chain.receiptHash
        && made.receipt.receiptHash == Sha256(ReceiptHashBody(b))
        && SignedBy(made.envelope, signer, ActionReceiptType, now, chain.envelopeHash, text)
        && made.envelope.view.payload == ReceiptPayload(made.receipt)
  {
    hide VerifyEnvelope, Accepted, RefuseResult;
    VerifiedIffSigned(book, permit, PermitPolicy(trust));
    ResultAnswers(book, trust, result, permit, request);
  }
}
