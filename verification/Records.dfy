/** The values the services exchange, hash and sign.

    A SHA-256 digest is a term that wraps the record it was computed from, so equal digests come from
    equal records and no digest is part of its own record.  `DigestRendering` shows that the
    characters really hashed keep these terms apart. */
module Records {
  import opened JsonValues

  datatype Option<+T> = None | Some(value: T)

  datatype Result<+T> = Ok(value: T) | Error(fault: Fault)

  /** The exceptions of the operations modelled. */
  datatype Fault =
    | InvalidRequest | NotForReview | TtlOutOfRange | InvalidLease | DuplicateLease | UnknownLease | AlreadyCancelled
    | ApprovalRequired | NotAllowed | MissingField | PermitRejected(failure: EnvelopeFailure)
    | ResultRejected(refusal: ResultRefusal) | BothLeasesGiven | NoReceiptSigner

  /** Microseconds since the epoch: the resolution of the timestamps in the records. */
  type Time = nat

  const SECOND: nat := 1_000_000

  datatype Verdict = ALLOW | REVIEW | DENY | OtherVerdict(text: string)

  datatype Effect = AllowEffect | ReviewEffect | DenyEffect

  /** Why `verify_envelope` fails, in the order of its checks. */
  datatype EnvelopeFailure =
    | PayloadHashMismatch | EnvelopeHashMismatch | UntrustedSigner | SignerRevoked | SubjectMismatch | RoleNotAllowed
    | PayloadTypeMismatch | SignatureInvalid

  /** Why a review lease is not redeemed. */
  datatype LeaseRefusal =
    | LeaseNotFound | BaseGateIsNotReview | LeaseIsCancelled | LeaseAlreadyUsed | LeaseNotYetValid | LeaseExpired
    | RequestDigestMismatch | LeaseScopeMismatch | ReviewPolicyChanged
    | LeaseEnvelopeRejected(failure: EnvelopeFailure) | LeasePayloadInvalid | LeaseIssuerMismatch

  datatype RequestField = RequestIdField | CapabilityField | ActionField | ResourceField | ActorField

  /** Why an execution permit is not accepted. */
  datatype PermitRefusal =
    | PermitEnvelopeRejected(failure: EnvelopeFailure) | PermitFieldsMismatch | PermitVersionMismatch
    | PermitAuthorityInvalid | PermitGateNotAllow | PermitNotYetValid | PermitExpired | PermitDigestMismatch
    | PermitFieldDiffers(field: RequestField) | PermitAlreadyUsed

  /** Why an execution result is not evidence. */
  datatype ResultRefusal =
    | ResultEnvelopeRejected(failure: EnvelopeFailure) | ResultAuthorityInvalid | ResultPermitHashMismatch
    | ResultPermitIdMismatch | ResultDigestMismatch | ResultFieldDiffers(field: RequestField) | ResultOutcomeInvalid

  /** The reason in a gate decision. */
  datatype Reason =
    | ControlPlaneNotAddressable | NoMatchingGrant | ExplicitDenyPrecedence | HumanReviewRequired | ExplicitGrant
    | NoEffectiveGrant | SignedLeaseRedeemed | LeaseRedeemed | SignedLeaseRejected(why: LeaseRefusal)
    | LeaseRejected(why: LeaseRefusal) | AuthorizerUnavailable | BrokerUnavailable | OtherReason(text: string)

  datatype PayloadType =
    | ReviewLeaseType | ExecutionPermitType | ExecutionResultType | ActionReceiptType | RegistryType | EvidenceType
    | OtherType(name: string)

  datatype Role =
    | ReviewIssuer | PermitIssuer | ResultSigner | ReceiptSigner | CapabilityAuthority | PromotionIssuer
    | OtherRole(name: string)

  datatype AuthorityEffect =
    | OneShotReviewOnly | ExecutionOnce | EvidenceOnly | AttestsExactSnapshot | OtherAuthority(name: string)

  datatype IssuerType = Human | OtherIssuer(name: string)

  datatype Outcome = SUCCEEDED | FAILED | NOT_EXECUTED

  datatype ActionRequest = ActionRequest(
    requestId: string, capability: string, action: string, resource: string, payload: Json, actor: string)

  datatype CapabilityGrant = CapabilityGrant(
    grantId: string, capability: string, effect: Effect, actions: seq<string>, resources: seq<string>,
    issuedBy: string, note: string)

  datatype CapabilityRegistry = CapabilityRegistry(registryId: string, version: string, grants: seq<CapabilityGrant>)

  datatype GateDecision = GateDecision(verdict: Verdict, reason: Reason, matchedGrantIds: seq<string>)

  datatype ReviewLease = ReviewLease(
    leaseId: string, requestDigest: Digest, capability: string, action: string, resource: string,
    reviewGrantIds: seq<string>, issuedBy: string, issuedAt: Time, expiresAt: Time, maxUses: int,
    issuerType: IssuerType)

  datatype Permit = Permit(
    permitVersion: string, permitId: string, requestDigest: Digest, requestId: string, capability: string,
    action: string, resource: string, actor: string, gateVerdict: Verdict, gateReason: Reason,
    matchedGrantIds: seq<string>, registryId: string, registryVersion: string, issuedAt: Time, expiresAt: Time,
    maxUses: int, authorityEffect: AuthorityEffect)

  datatype ExecutionResult = ExecutionResult(
    resultVersion: string, resultId: string, permitId: string, permitHash: Digest, requestDigest: Digest,
    requestId: string, capability: string, action: string, resource: string, outcome: Outcome, result: Json,
    executedAt: Time, authorityEffect: AuthorityEffect)

  datatype ReceiptBody = ReceiptBody(
    requestId: string, capability: string, action: string, resource: string, gate: Verdict, gateReason: Reason,
    matchedGrantIds: seq<string>, outcome: Outcome, result: Json, registryId: string, registryVersion: string,
    createdAt: Time, previousReceiptHash: Option<Digest>)

  datatype ActionReceipt = ActionReceipt(body: ReceiptBody, receiptHash: Digest)

  /** The reason in an event: what happened, or the words of whoever cancelled. */
  datatype EventReason = LeaseRegistered | LeaseUsed | LeaseRefused(why: LeaseRefusal) | Given(text: string)

  datatype EventKind = ISSUED | CANCELLED | REDEEMED | REJECTED

  datatype EventBody = EventBody(
    event: EventKind, leaseId: string, requestId: Option<string>, requestDigest: Digest, reason: EventReason,
    actor: string, createdAt: Time, previousEventHash: Option<Digest>)

  /** One scenario of a simulation, with its status as it was written. */
  datatype ScenarioResult = ScenarioResult(
    scenarioId: string, domain: string, status: string, reason: string, severity: string,
    evidenceRequired: seq<string>)

  datatype SimulationReceipt = SimulationReceipt(
    receiptVersion: string, runId: string, generatedAt: string, appId: string, appStage: string, overallGate: string,
    summary: Json, results: seq<ScenarioResult>)

  datatype CapabilityDelta = CapabilityDelta(
    added: seq<string>, removed: seq<string>, changed: seq<string>, digest: Digest)

  datatype PromotionRequest = PromotionRequest(
    promotionId: string, appId: string, baselineDigest: Digest, proposedDigest: Digest, delta: CapabilityDelta,
    requiredDomains: seq<string>, requestedBy: string, targetStage: string)

  /** The payloads the signers produce.  `OtherPayload` is every mapping with another set of fields. */
  datatype Payload =
    | LeasePayload(lease: ReviewLease, leaseEffect: AuthorityEffect)
    | PermitPayload(permit: Permit)
    | ResultPayload(result: ExecutionResult)
    | ReceiptPayload(receipt: ActionReceipt)
    | RegistryPayload(registry: CapabilityRegistry, registryEffect: AuthorityEffect)
    | EvidencePayload(requestDigest: Digest, promotionId: string, appId: string, prsp: SimulationReceipt,
                      evidenceEffect: AuthorityEffect)
    | OtherPayload(json: Json)

  /** What a signer signs: the envelope without its signature and its own hash. */
  datatype SignatureView = SignatureView(
    payloadType: PayloadType, payload: Payload, payloadHash: Digest, signerId: string, keyId: string, signedAt: Time,
    previous: Option<Digest>)

  datatype SignedEnvelope = SignedEnvelope(view: SignatureView, signature: string, envelopeHash: Digest)

  /** Everything a hash is taken of. */
  datatype Hashed =
    | RequestBody(request: ActionRequest)
    | PayloadBody(payload: Payload)
    | EnvelopeBody(view: SignatureView, signature: string)
    | ReceiptHashBody(receipt: ReceiptBody)
    | EventHashBody(event: EventBody)
    | RegistryBody(registry: CapabilityRegistry)
    | DeltaBody(baseline: Digest, proposed: Digest, added: seq<string>, removed: seq<string>, changed: seq<string>)
    | PromotionBody(promotion: PromotionRequest)

  /** A digest field: the hash of a record, or some other text that a sender put there. */
  datatype Digest = Sha256(of: Hashed) | Text(raw: string)

  function RequestDigest(request: ActionRequest): Digest {
    Sha256(RequestBody(request))
  }

  predicate IsSpace(c: char) {
    || '\t' <= c <= '\r' || '\U{1c}' <= c <= ' ' || c == '\U{85}' || c == '\U{a0}' || c == '\U{1680}'
    || '\U{2000}' <= c <= '\U{200a}' || c == '\U{2028}' || c == '\U{2029}' || c == '\U{202f}' || c == '\U{205f}'
    || c == '\U{3000}'
  }

  /** `not text.strip()` */
  predicate Blank(text: string) {
    forall i :: 0 <= i < |text| ==> IsSpace(text[i])
  }

  predicate ValidRequest(request: ActionRequest) {
    && !Blank(request.requestId) && !Blank(request.capability) && !Blank(request.action) && !Blank(request.resource)
  }

  /** The characters that `strip` takes off, by code point. */
  lemma SpacesAre(c: char)
    ensures IsSpace(c) <==>
      || 9 <= c as int <= 13 || 28 <= c as int <= 32 || 8192 <= c as int <= 8202
      || c as int in {133, 160, 5760, 8232, 8233, 8239, 8287, 12288}
  {
  }

  /** A request is well formed when its id, capability, action and resource each have a character that is no space; its
      actor and its payload do not matter. */
  lemma ValidRequestIff(request: ActionRequest)
    ensures ValidRequest(request) <==>
      && (exists c :: c in request.requestId && !IsSpace(c)) && (exists c :: c in request.capability && !IsSpace(c))
      && (exists c :: c in request.action && !IsSpace(c)) && (exists c :: c in request.resource && !IsSpace(c))
  {
    hide IsSpace;
    BlankIff(request.requestId);
    BlankIff(request.capability);
    BlankIff(request.action);
    BlankIff(request.resource);
    hide Blank;
  }

  lemma BlankIff(text: string)
    ensures Blank(text) <==> forall c :: c in text ==> IsSpace(c)
  {
    hide IsSpace;
    if forall c :: c in text ==> IsSpace(c) {
      assert forall i :: 0 <= i < |text| ==> text[i] in text;
    }
  }

  predicate ValidLease(lease: ReviewLease) {
    && !Blank(lease.leaseId) && lease.issuerType == Human && !Blank(lease.issuedBy) && lease.maxUses == 1
    && lease.issuedAt < lease.expiresAt
  }
}
