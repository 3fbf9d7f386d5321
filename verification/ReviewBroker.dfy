/** The in-memory review broker: one-shot leases with cancellation and a hash-chained event log. */
module ReviewBroker {
  import opened Records
  import opened ReviewLeases

  datatype Event = Event(body: EventBody, eventHash: Digest)

  datatype BrokerState = BrokerState(
    leases: map<string, ReviewLease>, uses: map<string, nat>, cancelled: map<string, string>, events: seq<Event>)

  const EMPTY := BrokerState(map[], map[], map[], [])

  // ----- What the operations do -----------------------------------------------------------------

  function LastHash(events: seq<Event>): Option<Digest> {
    if |events| == 0 then None else Some(events[|events| - 1].eventHash)
  }

  function NewEvent(events: seq<Event>, event: EventKind, lease: ReviewLease, requestId: Option<string>,
                    reason: EventReason, actor: string, createdAt: Time): Event
  {
    var body := EventBody(event, lease.leaseId, requestId, lease.requestDigest, reason, actor, createdAt,
                          LastHash(events));
    Event(body, Sha256(EventHashBody(body)))
  }

  function Registered(s: BrokerState, lease: ReviewLease): BrokerState {
    if lease.leaseId in s.leases then s
    else
      BrokerState(s.leases[lease.leaseId := lease], s.uses[lease.leaseId := 0], s.cancelled,
        s.events + [NewEvent(s.events, ISSUED, lease, None, LeaseRegistered, lease.issuedBy,
                             lease.issuedAt)])
  }

  function Cancelled(s: BrokerState, leaseId: string, actor: string, reason: string, now: Time): BrokerState {
    if leaseId !in s.leases || leaseId in s.cancelled then s
    else
      s.(cancelled := s.cancelled[leaseId := reason],
         events := s.events + [NewEvent(s.events, CANCELLED, s.leases[leaseId], None, Given(reason), actor, now)])
  }

  /** Why a known lease does not release the request, or None when it does. */
  function Refusal(s: BrokerState, leaseId: string, request: ActionRequest, base: GateDecision, now: Time)
    : Option<LeaseRefusal>
    requires leaseId in s.leases
  {
    var lease := s.leases[leaseId];
    if base.verdict != REVIEW then Some(BaseGateIsNotReview)
    else if leaseId in s.cancelled then Some(LeaseIsCancelled)
    else if (if leaseId in s.uses then s.uses[leaseId] else 0) >= lease.maxUses then Some(LeaseAlreadyUsed)
    else if now < lease.issuedAt then Some(LeaseNotYetValid)
    else if now >= lease.expiresAt then Some(LeaseExpired)
    else if RequestDigest(request) != lease.requestDigest then Some(RequestDigestMismatch)
    else if !InScope(lease, request) then Some(LeaseScopeMismatch)
    else if base.matchedGrantIds != lease.reviewGrantIds then Some(ReviewPolicyChanged)
    else None
  }

  function RedeemReply(s: BrokerState, leaseId: string, request: ActionRequest, base: GateDecision, now: Time)
    : ReviewAuthorization
  {
    if leaseId !in s.leases then Refused(LeaseNotFound, Some(leaseId))
    else
      match Refusal(s, leaseId, request, base, now)
      case Some(why) => Refused(why, Some(s.leases[leaseId].leaseId))
      case None => Released(leaseId)
  }

  function Redeemed(s: BrokerState, leaseId: string, request: ActionRequest, base: GateDecision, now: Time)
    : BrokerState
  {
    if leaseId !in s.leases then s
    else
      var lease := s.leases[leaseId];
      match Refusal(s, leaseId, request, base, now)
      case Some(why) =>
        s.(events := s.events
             + [NewEvent(s.events, REJECTED, lease, Some(request.requestId), LeaseRefused(why), request.actor, now)])
      case None =>
        s.(uses := s.uses[leaseId := (if leaseId in s.uses then s.uses[leaseId] else 0) + 1],
           events := s.events + [NewEvent(s.events, REDEEMED, lease, Some(request.requestId),
                                          LeaseUsed, lease.issuedBy, now)])
  }

  // ----- The broker object ----------------------------------------------------------------------

  class Broker {
    var leases: map<string, ReviewLease>
    var uses: map<string, nat>
    var cancelled: map<string, string>
    var events: seq<Event>

    function State(): BrokerState
      reads this
    {
      BrokerState(leases, uses, cancelled, events)
    }

    constructor ()
      ensures State() == EMPTY
    {
      leases, uses, cancelled, events := map[], map[], map[], [];
    }

    method AppendEvent(event: EventKind, lease: ReviewLease, requestId: Option<string>, reason: EventReason,
                       actor: string, createdAt: Time) returns (receipt: Event)
      modifies this`events
      ensures receipt == NewEvent(old(events), event, lease, requestId, reason, actor, createdAt)
      ensures events == old(events) + [receipt]
    {
      var previous := if |events| > 0 then Some(events[|events| - 1].eventHash) else None;
      var body := EventBody(event, lease.leaseId, requestId, lease.requestDigest, reason, actor, createdAt, previous);
      receipt := Event(body, Sha256(EventHashBody(body)));
      events := events + [receipt];
    }

    method Register(lease: ReviewLease) returns (r: Result<()>)
      modifies this
      ensures r == if lease.leaseId in old(leases) then Error(DuplicateLease) else Ok(())
      ensures State() == Registered(old(State()), lease)
    {
      if lease.leaseId in leases {
        return Error(DuplicateLease);
      }
      leases := leases[lease.leaseId := lease];
      uses := uses[lease.leaseId := 0];
      var _ := AppendEvent(ISSUED, lease, None, LeaseRegistered, lease.issuedBy, lease.issuedAt);
      return Ok(());
    }

    method IssueForReview(request: ActionRequest, base: GateDecision, issuedBy: string, ttl: int, leaseId: string,
                          now: Time) returns (r: Result<ReviewLease>)
      modifies this
      ensures var made := NewLease("lease-", request, base, issuedBy, ttl, leaseId, now);
        if made.Error? then r == made && State() == old(State())
        else if made.value.leaseId in old(leases) then r == Error(DuplicateLease) && State() == old(State())
        else r == made && State() == Registered(old(State()), made.value)
    {
      r := NewLease("lease-", request, base, issuedBy, ttl, leaseId, now);
      if r.Ok? {
        var registered := Register(r.value);
        if registered.Error? {
          r := Error(registered.fault);
        }
      }
    }

    method Cancel(leaseId: string, cancelledBy: string, reason: string, now: Time) returns (r: Result<Event>)
      modifies this
      ensures State() == Cancelled(old(State()), leaseId, cancelledBy, reason, now)
      ensures leaseId !in old(leases) ==> r == Error(UnknownLease)
      ensures leaseId in old(leases) && leaseId in old(cancelled) ==> r == Error(AlreadyCancelled)
      ensures leaseId in old(leases) && leaseId !in old(cancelled) ==> r.Ok? && events == old(events) + [r.value]
    {
      if leaseId !in leases {
        return Error(UnknownLease);
      }
      if leaseId in cancelled {
        return Error(AlreadyCancelled);
      }
      cancelled := cancelled[leaseId := reason];
      var receipt := AppendEvent(CANCELLED, leases[leaseId], None, Given(reason), cancelledBy, now);
      return Ok(receipt);
    }

    method Reject(lease: ReviewLease, request: ActionRequest, why: LeaseRefusal, now: Time)
      returns (r: ReviewAuthorization)
      modifies this`events
      ensures r == Refused(why, Some(lease.leaseId))
      ensures events == old(events)
        + [NewEvent(old(events), REJECTED, lease, Some(request.requestId), LeaseRefused(why), request.actor, now)]
    {
      var _ := AppendEvent(REJECTED, lease, Some(request.requestId), LeaseRefused(why), request.actor, now);
      return Refused(why, Some(lease.leaseId));
    }

    method Redeem(leaseId: string, request: ActionRequest, base: GateDecision, now: Time)
      returns (r: ReviewAuthorization)
      modifies this
      ensures r == old(RedeemReply(State(), leaseId, request, base, now))
      ensures State() == old(Redeemed(State(), leaseId, request, base, now))
    {
      if leaseId !in leases {
        return Refused(LeaseNotFound, Some(leaseId));
      }
      var lease := leases[leaseId];
      var used := if leaseId in uses then uses[leaseId] else 0;
      if base.verdict != REVIEW {
        r := Reject(lease, request, BaseGateIsNotReview, now);
      } else if leaseId in cancelled {
        r := Reject(lease, request, LeaseIsCancelled, now);
      } else if used >= lease.maxUses {
        r := Reject(lease, request, LeaseAlreadyUsed, now);
      } else if now < lease.issuedAt {
        r := Reject(lease, request, LeaseNotYetValid, now);
      } else if now >= lease.expiresAt {
        r := Reject(lease, request, LeaseExpired, now);
      } else if RequestDigest(request) != lease.requestDigest {
        r := Reject(lease, request, RequestDigestMismatch, now);
      } else if request.capability != lease.capability || request.action != lease.action
                || request.resource != lease.resource {
        r := Reject(lease, request, LeaseScopeMismatch, now);
      } else if base.matchedGrantIds != lease.reviewGrantIds {
        r := Reject(lease, request, ReviewPolicyChanged, now);
      } else {
        uses := uses[leaseId := used + 1];
        var _ := AppendEvent(REDEEMED, lease, Some(request.requestId), LeaseUsed,
                             lease.issuedBy, now);
        r := Released(leaseId);
      }
    }
  }

  // ----- Runs -----------------------------------------------------------------------------------

  datatype Call =
    | CallRegister(lease: ReviewLease)
    | CallIssue(request: ActionRequest, base: GateDecision, issuedBy: string, ttl: int, leaseId: string, at: Time)
    | CallCancel(cancelId: string, actor: string, reason: string, cancelAt: Time)
    | CallRedeem(redeemId: string, request: ActionRequest, base: GateDecision, redeemAt: Time)

  /** One call.  A lease that breaks the rules of `ReviewLease` cannot be built, so nothing happens. */
  function After(s: BrokerState, call: Call): BrokerState {
    match call
    case CallRegister(lease) => if ValidLease(lease) then Registered(s, lease) else s
    case CallIssue(request, base, issuedBy, ttl, leaseId, at) =>
      var made := NewLease("lease-", request, base, issuedBy, ttl, leaseId, at);
      if made.Ok? then Registered(s, made.value) else s
    case CallCancel(id, actor, reason, at) => Cancelled(s, id, actor, reason, at)
    case CallRedeem(id, request, base, at) => Redeemed(s, id, request, base, at)
  }

  function Run(calls: seq<Call>): BrokerState {
    if |calls| == 0 then EMPTY else After(Run(calls[..|calls| - 1]), calls[|calls| - 1])
  }

  // ----- The log --------------------------------------------------------------------------------

  /** What an ISSUED event records of its lease. */
  datatype Issue = Issue(requestDigest: Digest, issuedBy: string, issuedAt: Time)

  datatype Summary = Summary(issued: map<string, Issue>, uses: map<string, nat>, cancelled: map<string, string>)

  function ReplayStep(s: Summary, e: EventBody): Summary {
    match e.event
    case ISSUED =>
      s.(issued := s.issued[e.leaseId := Issue(e.requestDigest, e.actor, e.createdAt)], uses := s.uses[e.leaseId := 0])
    case CANCELLED =>
      s.(cancelled := s.cancelled[e.leaseId := if e.reason.Given? then e.reason.text else ""])
    case REDEEMED => s.(uses := s.uses[e.leaseId := (if e.leaseId in s.uses then s.uses[e.leaseId] else 0) + 1])
    case REJECTED => s
  }

  /** The state that the log alone tells. */
  function Replay(events: seq<Event>): Summary {
    if |events| == 0 then Summary(map[], map[], map[])
    else ReplayStep(Replay(events[..|events| - 1]), events[|events| - 1].body)
  }

  function Summarized(s: BrokerState): Summary {
    Summary(map id | id in s.leases :: Issue(s.leases[id].requestDigest, s.leases[id].issuedBy, s.leases[id].issuedAt),
            s.uses, s.cancelled)
  }

  ghost predicate HashChained(events: seq<Event>) {
    forall i :: 0 <= i < |events| ==>
      && events[i].eventHash == Sha256(EventHashBody(events[i].body))
      && events[i].body.previousEventHash == LastHash(events[..i])
  }

  predicate Is(event: Event, kind: EventKind, leaseId: string) {
    event.body.event == kind && event.body.leaseId == leaseId
  }

  ghost predicate Logged(events: seq<Event>, kind: EventKind, leaseId: string) {
    exists i :: 0 <= i < |events| && Is(events[i], kind, leaseId)
  }

  /** No event of a kind comes after one that rules it out. */
  predicate Excludes(earlier: EventKind, later: EventKind) {
    match (earlier, later)
    case (ISSUED, ISSUED) => true
    case (REDEEMED, REDEEMED) => true
    case (CANCELLED, CANCELLED) => true
    case (CANCELLED, REDEEMED) => true
    case _ => false
  }

  /** Each lease's events start with its only ISSUED; there is at most one REDEEMED and at most one CANCELLED, and
      no REDEEMED follows a CANCELLED. */
  ghost predicate Lifecycles(events: seq<Event>) {
    && (forall j :: 0 <= j < |events| && events[j].body.event != ISSUED ==>
          Logged(events[..j], ISSUED, events[j].body.leaseId))
    && (forall i, j :: 0 <= i < j < |events| && events[i].body.leaseId == events[j].body.leaseId ==>
          !Excludes(events[i].body.event, events[j].body.event))
  }

  ghost predicate Consistent(s: BrokerState) {
    && Summarized(s) == Replay(s.events)
    && HashChained(s.events)
    && Lifecycles(s.events)
    && KeyedById(s.leases)
  }

  ghost predicate KeyedById(leases: map<string, ReviewLease>) {
    forall id :: id in leases ==> leases[id].leaseId == id && ValidLease(leases[id])
  }

  lemma LoggedAppend(events: seq<Event>, event: Event, kind: EventKind, id: string)
    ensures Logged(events + [event], kind, id) <==> Logged(events, kind, id) || Is(event, kind, id)
  {
    var longer := events + [event];
    if Logged(events, kind, id) {
      var i :| 0 <= i < |events| && Is(events[i], kind, id);
      assert Is(longer[i], kind, id);
    }
    if Is(event, kind, id) {
      assert Is(longer[|events|], kind, id);
    }
  }

  lemma {:induction false} ReplayTells(events: seq<Event>, id: string)
    ensures id in Replay(events).issued <==> Logged(events, ISSUED, id)
    ensures id in Replay(events).cancelled <==> Logged(events, CANCELLED, id)
  {
    if |events| > 0 {
      var init, last := events[..|events| - 1], events[|events| - 1];
      ReplayTells(init, id);
      assert events == init + [last];
      LoggedAppend(init, last, ISSUED, id);
      LoggedAppend(init, last, CANCELLED, id);
    }
  }

  /** No lease is issued again after a use. */
  lemma UsedThenNotIssued(events: seq<Event>, id: string)
    requires |events| > 0 && Lifecycles(events) && Logged(events[..|events| - 1], REDEEMED, id)
    ensures !Is(events[|events| - 1], ISSUED, id)
  {
    var n := |events| - 1;
    var i :| 0 <= i < n && Is(events[..n][i], REDEEMED, id);
    var k :| 0 <= k < |events[..i]| && Is(events[..i][k], ISSUED, id);
    assert Excludes(events[k].body.event, ISSUED);
  }

  lemma UseCounts(s: Summary, e: EventBody, id: string)
    requires (e.leaseId == id && e.event == REDEEMED)
      || (!(e.leaseId == id && e.event == ISSUED) && id in s.uses && s.uses[id] > 0)
    ensures id in ReplayStep(s, e).uses && ReplayStep(s, e).uses[id] > 0
  {
  }

  lemma {:induction false} ReplayTellsUse(events: seq<Event>, id: string)
    requires Lifecycles(events) && Logged(events, REDEEMED, id)
    ensures id in Replay(events).uses && Replay(events).uses[id] > 0
  {
    if |events| > 0 {
      hide Lifecycles, Logged, ReplayStep;
      var init, last := events[..|events| - 1], events[|events| - 1];
      assert events == init + [last];
      LoggedAppend(init, last, REDEEMED, id);
      if !Is(last, REDEEMED, id) {
        LifecyclesPrefix(events);
        ReplayTellsUse(init, id);
        UsedThenNotIssued(events, id);
      }
      UseCounts(Replay(init), last.body, id);
    }
  }

  lemma LifecyclesPrefix(events: seq<Event>)
    requires |events| > 0 && Lifecycles(events)
    ensures Lifecycles(events[..|events| - 1])
  {
    var init := events[..|events| - 1];
    forall j | 0 <= j < |init| && init[j].body.event != ISSUED
      ensures Logged(init[..j], ISSUED, init[j].body.leaseId)
    {
      assert init[..j] == events[..j];
    }
  }

  lemma ChainedAppend(events: seq<Event>, event: Event)
    requires HashChained(events)
    requires event.eventHash == Sha256(EventHashBody(event.body)) && event.body.previousEventHash == LastHash(events)
    ensures HashChained(events + [event])
  {
    var longer := events + [event];
    forall i | 0 <= i < |longer|
      ensures longer[i].eventHash == Sha256(EventHashBody(longer[i].body))
      ensures longer[i].body.previousEventHash == LastHash(longer[..i])
    {
      assert longer[..i] == events[..i];
      if i == |events| { assert events[..i] == events; }
    }
  }

  lemma LifecyclesAppend(events: seq<Event>, event: Event)
    requires Lifecycles(events)
    requires event.body.event != ISSUED ==> Logged(events, ISSUED, event.body.leaseId)
    requires forall k :: Excludes(k, event.body.event) ==> !Logged(events, k, event.body.leaseId)
    ensures Lifecycles(events + [event])
  {
    var longer := events + [event];
    forall j | 0 <= j < |longer| && longer[j].body.event != ISSUED
      ensures Logged(longer[..j], ISSUED, longer[j].body.leaseId)
    {
      if j < |events| { assert longer[..j] == events[..j]; } else { assert longer[..j] == events; }
    }
    forall i, j | 0 <= i < j < |longer| && longer[i].body.leaseId == longer[j].body.leaseId
      ensures !Excludes(longer[i].body.event, longer[j].body.event)
    {
      if j == |events| {
        assert Is(events[i], events[i].body.event, event.body.leaseId);
        assert Logged(events, events[i].body.event, event.body.leaseId);
      }
    }
  }

  /** A step that logs an event the lifecycle allows, and changes the state as that event tells, keeps the broker
      consistent. */
  lemma LoggedStepKeeps(s: BrokerState, s': BrokerState, event: Event)
    requires Consistent(s) && KeyedById(s'.leases)
    requires s'.events == s.events + [event]
    requires event.eventHash == Sha256(EventHashBody(event.body)) && event.body.previousEventHash == LastHash(s.events)
    requires event.body.event == ISSUED <==> event.body.leaseId !in s.leases
    requires event.body.event == CANCELLED ==> event.body.leaseId !in s.cancelled
    requires event.body.event == REDEEMED ==>
      event.body.leaseId !in s.cancelled && !(event.body.leaseId in s.uses && s.uses[event.body.leaseId] > 0)
    requires Summarized(s') == ReplayStep(Summarized(s), event.body)
    ensures Consistent(s')
  {
    var id := event.body.leaseId;
    ReplayTells(s.events, id);
    if Logged(s.events, REDEEMED, id) {
      ReplayTellsUse(s.events, id);
    }
    assert id in Summarized(s).issued <==> id in s.leases;
    ChainedAppend(s.events, event);
    LifecyclesAppend(s.events, event);
    assert s'.events[..|s.events|] == s.events;
  }

  lemma RegisterKeeps(s: BrokerState, lease: ReviewLease)
    requires Consistent(s) && ValidLease(lease) && lease.leaseId !in s.leases
    ensures Consistent(Registered(s, lease))
  {
    hide HashChained, Lifecycles, Replay, ValidLease;
    var s' := Registered(s, lease);
    var event := NewEvent(s.events, ISSUED, lease, None, LeaseRegistered, lease.issuedBy, lease.issuedAt);
    assert Summarized(s').issued == ReplayStep(Summarized(s), event.body).issued;
    LoggedStepKeeps(s, s', event);
  }

  lemma CancelKeeps(s: BrokerState, leaseId: string, actor: string, reason: string, now: Time)
    requires Consistent(s)
    ensures Consistent(Cancelled(s, leaseId, actor, reason, now))
  {
    if leaseId in s.leases && leaseId !in s.cancelled {
      LoggedStepKeeps(s, Cancelled(s, leaseId, actor, reason, now),
                      NewEvent(s.events, CANCELLED, s.leases[leaseId], None, Given(reason), actor, now));
    }
  }

  lemma RejectKeeps(s: BrokerState, leaseId: string, request: ActionRequest, why: LeaseRefusal, now: Time)
    requires Consistent(s) && leaseId in s.leases
    ensures var event := NewEvent(s.events, REJECTED, s.leases[leaseId], Some(request.requestId),
                                  LeaseRefused(why), request.actor, now);
      Consistent(s.(events := s.events + [event]))
  {
    var event := NewEvent(s.events, REJECTED, s.leases[leaseId], Some(request.requestId), LeaseRefused(why),
                          request.actor, now);
    LoggedStepKeeps(s, s.(events := s.events + [event]), event);
  }

  lemma UseKeeps(s: BrokerState, leaseId: string, request: ActionRequest, base: GateDecision, now: Time)
    requires Consistent(s) && leaseId in s.leases && Refusal(s, leaseId, request, base, now).None?
    ensures Consistent(Redeemed(s, leaseId, request, base, now))
  {
    var event := NewEvent(s.events, REDEEMED, s.leases[leaseId], Some(request.requestId),
                          LeaseUsed, s.leases[leaseId].issuedBy, now);
    LoggedStepKeeps(s, Redeemed(s, leaseId, request, base, now), event);
  }

  lemma RedeemKeeps(s: BrokerState, leaseId: string, request: ActionRequest, base: GateDecision, now: Time)
    requires Consistent(s)
    ensures Consistent(Redeemed(s, leaseId, request, base, now))
  {
    if leaseId in s.leases {
      match Refusal(s, leaseId, request, base, now)
      case Some(why) => RejectKeeps(s, leaseId, request, why, now);
      case None => UseKeeps(s, leaseId, request, base, now);
    }
  }

  /** After any sequence of calls the broker's leases, uses and cancellations are what its log replays to, the log is
      a hash chain, and every lease has gone through a legal life. */
  lemma {:induction false} RunIsConsistent(calls: seq<Call>)
    ensures Consistent(Run(calls))
  {
    if |calls| == 0 {
      assert Summarized(EMPTY) == Replay([]);
    } else {
      var s := Run(calls[..|calls| - 1]);
      RunIsConsistent(calls[..|calls| - 1]);
      match calls[|calls| - 1]
      case CallRegister(lease) => if ValidLease(lease) && lease.leaseId !in s.leases { RegisterKeeps(s, lease); }
      case CallIssue(request, base, issuedBy, ttl, leaseId, at) =>
        var made := NewLease("lease-", request, base, issuedBy, ttl, leaseId, at);
        if made.Ok? && made.value.leaseId !in s.leases { RegisterKeeps(s, made.value); }
      case CallCancel(id, actor, reason, at) => CancelKeeps(s, id, actor, reason, at);
      case CallRedeem(id, request, base, at) => RedeemKeeps(s, id, request, base, at);
    }
  }

  /** The log does not tell a lease's scope or expiry: different leases leave the same log. */
  lemma LogOmitsScope(lease: ReviewLease, other: ReviewLease)
    requires ValidLease(lease) && ValidLease(other)
    requires lease.leaseId == other.leaseId && lease.requestDigest == other.requestDigest
    requires lease.issuedBy == other.issuedBy && lease.issuedAt == other.issuedAt
    ensures Run([CallRegister(lease)]).events == Run([CallRegister(other)]).events
    ensures Run([CallRegister(lease)]).leases == Run([CallRegister(other)]).leases <==> lease == other
  {
    assert [CallRegister(lease)][..0] == [] && [CallRegister(other)][..0] == [];
    assert Run([CallRegister(lease)]).leases[lease.leaseId] == lease;
    assert Run([CallRegister(other)]).leases[lease.leaseId] == other;
  }
}
