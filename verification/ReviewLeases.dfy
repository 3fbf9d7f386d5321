/** What the in-memory broker and the signed authorizer share: making a lease and what it releases. */
module ReviewLeases {
  import opened Decimals
  import opened Records

  datatype ReviewAuthorization =
    | Released(leaseId: string)
    | Refused(why: LeaseRefusal, about: Option<string>)

  const MAX_LEASE_TTL := 3600

  function DefaultLeaseId(prefix: string, request: ActionRequest, now: Time): string {
    prefix + request.requestId + "-" + Decimal(now / SECOND)
  }

  /** The common body of `issue_for_review` and `issue_signed_review_lease`. */
  function NewLease(prefix: string, request: ActionRequest, base: GateDecision, issuedBy: string, ttl: int,
                    leaseId: string, now: Time): Result<ReviewLease>
  {
    if base.verdict != REVIEW then Error(NotForReview)
    else if ttl < 1 || ttl > MAX_LEASE_TTL then Error(TtlOutOfRange)
    else
      var id := if leaseId == "" then DefaultLeaseId(prefix, request, now) else leaseId;
      var lease := ReviewLease(id, RequestDigest(request), request.capability, request.action, request.resource,
                               base.matchedGrantIds, issuedBy, now, now + ttl * SECOND, 1, Human);
      if ValidLease(lease) then Ok(lease) else Error(InvalidLease)
  }

  predicate InScope(lease: ReviewLease, request: ActionRequest) {
    && request.capability == lease.capability && request.action == lease.action
    && request.resource == lease.resource
  }

  /** The lease is in force at `now` for this very request under the gate decision that was reviewed. */
  predicate Releases(lease: ReviewLease, request: ActionRequest, base: GateDecision, now: Time) {
    && base.verdict == REVIEW
    && lease.issuedAt <= now < lease.expiresAt
    && RequestDigest(request) == lease.requestDigest
    && InScope(lease, request)
    && base.matchedGrantIds == lease.reviewGrantIds
  }

  /** A new lease releases exactly the request and the grant ids it was made for, for the time it was given. */
  lemma NewLeaseReleases(prefix: string, request: ActionRequest, base: GateDecision, issuedBy: string, ttl: int,
                         leaseId: string, issuedAt: Time, request': ActionRequest, base': GateDecision, now: Time)
    requires NewLease(prefix, request, base, issuedBy, ttl, leaseId, issuedAt).Ok?
    ensures Releases(NewLease(prefix, request, base, issuedBy, ttl, leaseId, issuedAt).value, request', base', now)
      <==> request' == request && base'.verdict == REVIEW && base'.matchedGrantIds == base.matchedGrantIds
           && issuedAt <= now < issuedAt + ttl * SECOND
  {
  }
}
