/** What the broker's answers mean, and what its log tells of the calls. */
module BrokerAnswers {
  import opened Decimals
  import opened Records
  import opened ReviewBroker
  import opened ReviewLeases

  // ----- Answers --------------------------------------------------------------------------------

  /** What each answer to a redemption tells: the checks before the one it names have passed, and that one has not. */
  lemma RedeemAnswers(s: BrokerState, leaseId: string, request: ActionRequest, base: GateDecision, now: Time)
    ensures var reply := RedeemReply(s, leaseId, request, base, now);
      if leaseId !in s.leases then reply == Refused(LeaseNotFound, Some(leaseId))
      else
        var lease := s.leases[leaseId];
        var reviewed := base.verdict == REVIEW;
        var standing := reviewed && leaseId !in s.cancelled;
        var unused := standing && (if leaseId in s.uses then s.uses[leaseId] else 0) < lease.maxUses;
        var begun := unused && lease.issuedAt <= now;
        var current := begun && now < lease.expiresAt;
        var sameRequest := current && lease.requestDigest == Sha256(RequestBody(request));
        var inScope := sameRequest && lease.capability == request.capability && lease.action == request.action
          && lease.resource == request.resource;
        && (reply.Refused? ==> reply.about == Some(lease.leaseId))
        && match reply
           case Refused(BaseGateIsNotReview, _) => !reviewed
           case Refused(LeaseIsCancelled, _) => reviewed && !standing
           case Refused(LeaseAlreadyUsed, _) => standing && !unused
           case Refused(LeaseNotYetValid, _) => unused && !begun
           case Refused(LeaseExpired, _) => begun && !current
           case Refused(RequestDigestMismatch, _) => current && !sameRequest
           case Refused(LeaseScopeMismatch, _) => sameRequest && !inScope
           case Refused(ReviewPolicyChanged, _) => inScope && lease.reviewGrantIds != base.matchedGrantIds
           case Refused(_, _) => false
           case Released(id) => id == leaseId && inScope && lease.reviewGrantIds == base.matchedGrantIds
  {
  }

  /** What making a lease tells: a lease bears the id given, or one made of the request's id and the second, and is
      given by one human for one use. */
  lemma NewLeaseAnswers(prefix: string, request: ActionRequest, base: GateDecision, issuedBy: string, ttl: int,
                        leaseId: string, now: Time)
    ensures var made := NewLease(prefix, request, base, issuedBy, ttl, leaseId, now);
      var id := if leaseId != "" then leaseId else prefix + request.requestId + "-" + Decimal(now / 1_000_000);
      var reviewed := base.verdict == REVIEW;
      var inRange := reviewed && 1 <= ttl <= 3600;
      match made
      case Error(NotForReview) => !reviewed
      case Error(TtlOutOfRange) => reviewed && !inRange
      case Error(InvalidLease) => inRange && (Blank(id) || Blank(issuedBy))
      case Error(_) => false
      case Ok(lease) =>
        && inRange && !Blank(id) && !Blank(issuedBy)
        && lease.leaseId == id && lease.issuedBy == issuedBy && lease.maxUses == 1 && lease.issuerType == Human
  {
    hide Decimal, Blank;
  }

  /** Generated ids coincide only for one request id within one second. */
  lemma DefaultIdsDiffer(prefix: string, request: ActionRequest, now: Time, request': ActionRequest, now': Time)
    ensures DefaultLeaseId(prefix, request, now) == DefaultLeaseId(prefix, request', now') <==>
      request.requestId == request'.requestId && now / 1_000_000 == now' / 1_000_000
  {
    hide Decimal;
    NumberedTextsDiffer(prefix + request.requestId, now / SECOND, prefix + request'.requestId, now' / SECOND);
    assert request.requestId == (prefix + request.requestId)[|prefix|..];
    assert request'.requestId == (prefix + request'.requestId)[|prefix|..];
  }

  // ----- Events ---------------------------------------------------------------------------------

  /** The log has one more event, with this content, the hash of the event before it and its own. */
  ghost predicate Logs(s: BrokerState, s': BrokerState, kind: EventKind, lease: ReviewLease, requestId: Option<string>,
                       reason: EventReason, actor: string, at: Time)
  {
    && |s'.events| == |s.events| + 1 && s'.events[..|s.events|] == s.events
    && var e := s'.events[|s.events|];
    && e.body.event == kind && e.body.leaseId == lease.leaseId && e.body.requestId == requestId
    && e.body.requestDigest == lease.requestDigest && e.body.reason == reason && e.body.actor == actor
    && e.body.createdAt == at
    && e.body.previousEventHash == (if s.events == [] then None else Some(s.events[|s.events| - 1].eventHash))
    && e.eventHash == Sha256(EventHashBody(e.body))
  }

  /** A lease is logged as issued by its issuer at its own time of issue. */
  lemma RegisterIsLogged(s: BrokerState, lease: ReviewLease)
    ensures var s' := Registered(s, lease);
      if lease.leaseId in s.leases then s' == s
      else
        && Logs(s, s', ISSUED, lease, None, LeaseRegistered, lease.issuedBy, lease.issuedAt)
        && s'.leases == s.leases[lease.leaseId := lease]
  {
  }

  /** A cancellation is logged under the name of whoever cancels, in that person's words. */
  lemma CancelIsLogged(s: BrokerState, leaseId: string, actor: string, reason: string, now: Time)
    ensures var s' := Cancelled(s, leaseId, actor, reason, now);
      if leaseId !in s.leases || leaseId in s.cancelled then s' == s
      else Logs(s, s', CANCELLED, s.leases[leaseId], None, Given(reason), actor, now) && s'.leases == s.leases
  {
  }

  /** A redemption is logged under the name of the lease's issuer when it succeeds, and of the requester when it is
      refused, with the reason that the caller got; for an unknown lease nothing is logged. */
  lemma RedeemIsLogged(s: BrokerState, leaseId: string, request: ActionRequest, base: GateDecision, now: Time)
    ensures var reply := RedeemReply(s, leaseId, request, base, now);
      var s' := Redeemed(s, leaseId, request, base, now);
      if leaseId !in s.leases then s' == s
      else
        var lease, id := s.leases[leaseId], Some(request.requestId);
        && s'.leases == s.leases
        && match reply
           case Released(_) => Logs(s, s', REDEEMED, lease, id, LeaseUsed, lease.issuedBy, now)
           case Refused(why, _) => Logs(s, s', REJECTED, lease, id, LeaseRefused(why), request.actor, now)
  {
    hide Refusal;
  }

  /** A step of a run is what the method does. */
  lemma CallIsTheMethod(s: BrokerState, lease: ReviewLease, request: ActionRequest, base: GateDecision, name: string,
                        ttl: int, id: string, reason: string, at: Time)
    ensures ValidLease(lease) ==> After(s, CallRegister(lease)) == Registered(s, lease)
    ensures var made := NewLease("lease-", request, base, name, ttl, id, at);
      After(s, CallIssue(request, base, name, ttl, id, at)) == if made.Ok? then Registered(s, made.value) else s
    ensures After(s, CallCancel(id, name, reason, at)) == Cancelled(s, id, name, reason, at)
    ensures After(s, CallRedeem(id, request, base, at)) == Redeemed(s, id, request, base, at)
  {
  }

  // ----- Refusals in the log --------------------------------------------------------------------

  /** A refusal that names a cancelled or used lease comes after the event that cancelled or used it; one that names a
      later check comes after neither. */
  ghost predicate Explained(events: seq<Event>, i: nat)
    requires i < |events|
  {
    var e := events[i].body;
    e.event == REJECTED ==>
      && e.reason.LeaseRefused?
      && var cancelled := Logged(events[..i], CANCELLED, e.leaseId);
      var used := Logged(events[..i], REDEEMED, e.leaseId);
      match e.reason.why
      case BaseGateIsNotReview => true
      case LeaseIsCancelled => cancelled
      case LeaseAlreadyUsed => used && !cancelled
      case _ => !used && !cancelled
  }

  lemma {:induction false} ReplayCountsUses(events: seq<Event>, id: string)
    requires id in Replay(events).uses && Replay(events).uses[id] > 0
    ensures Logged(events, REDEEMED, id)
  {
    hide Logged;
    var init, last := events[..|events| - 1], events[|events| - 1];
    assert events == init + [last];
    LoggedAppend(init, last, REDEEMED, id);
    if !Is(last, REDEEMED, id) {
      ReplayCountsUses(init, id);
    }
  }

  /** The broker counts a lease as cancelled or used exactly when its log says so. */
  lemma LogTellsState(s: BrokerState, id: string)
    requires Consistent(s)
    ensures id in s.cancelled <==> Logged(s.events, CANCELLED, id)
    ensures id in s.uses && s.uses[id] > 0 <==> Logged(s.events, REDEEMED, id)
  {
    hide Logged, Lifecycles, HashChained;
    ReplayTells(s.events, id);
    if Logged(s.events, REDEEMED, id) {
      ReplayTellsUse(s.events, id);
    }
    if id in s.uses && s.uses[id] > 0 {
      ReplayCountsUses(s.events, id);
    }
  }

  /** The event that a call adds, if any, is explained. */
  lemma NextExplained(s: BrokerState, call: Call)
    requires Consistent(s)
    ensures var events := After(s, call).events;
      events == s.events || (|events| == |s.events| + 1 && events[..|s.events|] == s.events
                             && Explained(events, |s.events|))
  {
    hide Lifecycles, HashChained, Replay, Logged, Refusal;
    match call {
      case CallRegister(lease) => RegisterIsLogged(s, lease);
      case CallIssue(request, base, issuedBy, ttl, leaseId, at) =>
        var made := NewLease("lease-", request, base, issuedBy, ttl, leaseId, at);
        if made.Ok? { RegisterIsLogged(s, made.value); }
      case CallCancel(id, actor, reason, at) => CancelIsLogged(s, id, actor, reason, at);
      case CallRedeem(id, request, base, at) =>
        RedeemIsLogged(s, id, request, base, at);
        if id in s.leases { RefusalExplained(s, id, request, base, at); }
    }
  }

  lemma RefusalExplained(s: BrokerState, leaseId: string, request: ActionRequest, base: GateDecision, now: Time)
    requires Consistent(s) && leaseId in s.leases
    ensures var cancelled, used := Logged(s.events, CANCELLED, leaseId), Logged(s.events, REDEEMED, leaseId);
      match RedeemReply(s, leaseId, request, base, now)
      case Released(_) => true
      case Refused(BaseGateIsNotReview, _) => true
      case Refused(LeaseIsCancelled, _) => cancelled
      case Refused(LeaseAlreadyUsed, _) => used && !cancelled
      case Refused(_, _) => !used && !cancelled
  {
    LogTellsState(s, leaseId);
    hide Logged, Lifecycles, HashChained, Replay;
  }

  ghost predicate AllExplained(events: seq<Event>) {
    forall i :: 0 <= i < |events| ==> Explained(events, i)
  }

  lemma ExplainedAppend(events: seq<Event>, events': seq<Event>)
    requires AllExplained(events) && |events'| == |events| + 1 && events'[..|events|] == events
    requires Explained(events', |events|)
    ensures AllExplained(events')
  {
    forall i | 0 <= i < |events|
      ensures Explained(events', i)
    {
      assert Explained(events, i);
      assert events'[..i] == events[..i];
    }
  }

  /** In every run, a refusal as cancelled follows a cancellation of that lease, a refusal as used follows a use of it
      and no cancellation, and every other refusal of a reviewed request follows neither. */
  lemma {:induction false} RefusalsAreExplained(calls: seq<Call>)
    ensures AllExplained(Run(calls).events)
  {
    if calls != [] {
      hide After, Explained, Consistent;
      var n := |calls| - 1;
      RefusalsAreExplained(calls[..n]);
      RunIsConsistent(calls[..n]);
      NextExplained(Run(calls[..n]), calls[n]);
      if Run(calls).events != Run(calls[..n]).events {
        ExplainedAppend(Run(calls[..n]).events, Run(calls).events);
      }
    }
  }
}
