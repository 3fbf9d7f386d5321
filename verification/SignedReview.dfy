/** Review leases signed by a separate process, and the runtime side that redeems them once. */
module SignedReview {
  import opened Envelopes
  import opened Ledgers
  import opened Records
  import opened ReviewBroker
  import opened ReviewLeases

  function ReviewLeasePayload(lease: ReviewLease): Payload {
    LeasePayload(lease, OneShotReviewOnly)
  }

  function LeaseFromPayload(payload: Payload): Option<ReviewLease> {
    if payload.LeasePayload? && payload.leaseEffect == OneShotReviewOnly && ValidLease(payload.lease) then
      Some(payload.lease)
    else None
  }

  /** A lease survives its payload, and only a lease's own payload is read back as that lease. */
  lemma LeaseCodec(lease: ReviewLease, payload: Payload)
    requires ValidLease(lease)
    ensures LeaseFromPayload(payload) == Some(lease) <==> payload == ReviewLeasePayload(lease)
  {
  }

  function IssueSignedLease(request: ActionRequest, base: GateDecision, signer: Signer, ttl: int, leaseId: string,
                            now: Time, previous: Option<Digest>, text: string): Result<SignedEnvelope>
  {
    match NewLease("signed-lease-", request, base, signer.subject, ttl, leaseId, now)
    case Error(fault) => Error(fault)
    case Ok(lease) => Ok(SignPayload(ReviewLeaseType, ReviewLeasePayload(lease), signer, now, previous, text))
  }

  // ----- Redemption -----------------------------------------------------------------------------

  function LeasePolicy(trust: TrustStore): Policy {
    Policy(trust, Some(ReviewIssuer), Some(ReviewLeaseType))
  }

  /** The checks before the ledger. */
  function CheckLease(book: Book, trust: TrustStore, envelope: SignedEnvelope, request: ActionRequest,
                      base: GateDecision, now: Time): (r: ReviewAuthorization)
    ensures r.Released? ==> envelope.view.payload.LeasePayload? && r.leaseId == envelope.view.payload.lease.leaseId
  {
    var verification := VerifyEnvelope(book, envelope, LeasePolicy(trust));
    if base.verdict != REVIEW then Refused(BaseGateIsNotReview, None)
    else if verification.reason.Some? then Refused(LeaseEnvelopeRejected(verification.reason.value), None)
    else
      match LeaseFromPayload(envelope.view.payload)
      case None => Refused(LeasePayloadInvalid, None)
      case Some(lease) =>
        var id := Some(lease.leaseId);
        if lease.issuedBy != envelope.view.signerId then Refused(LeaseIssuerMismatch, id)
        else if now < lease.issuedAt then Refused(LeaseNotYetValid, id)
        else if now >= lease.expiresAt then Refused(LeaseExpired, id)
        else if RequestDigest(request) != lease.requestDigest then Refused(RequestDigestMismatch, id)
        else if !InScope(lease, request) then Refused(LeaseScopeMismatch, id)
        else if base.matchedGrantIds != lease.reviewGrantIds then Refused(ReviewPolicyChanged, id)
        else Released(lease.leaseId)
  }

  function SignedReply(book: Book, trust: TrustStore, rows: Table, envelope: SignedEnvelope, request: ActionRequest,
                       base: GateDecision, now: Time): ReviewAuthorization
  {
    match CheckLease(book, trust, envelope, request, base, now)
    case Refused(why, about) => Refused(why, about)
    case Released(id) =>
      if Fresh(rows, id, envelope.envelopeHash) then Released(id) else Refused(LeaseAlreadyUsed, Some(id))
  }

  function SignedRows(book: Book, trust: TrustStore, rows: Table, envelope: SignedEnvelope, request: ActionRequest,
                      base: GateDecision, now: Time): Table
  {
    match CheckLease(book, trust, envelope, request, base, now)
    case Refused(_, _) => rows
    case Released(id) => Consumed(rows, id, envelope.envelopeHash, now)
  }

  class SignedReviewAuthorizer {
    const trust: TrustStore
    const ledger: OneShotLedger

    constructor (trust: TrustStore, ledger: OneShotLedger)
      ensures this.trust == trust && this.ledger == ledger
    {
      this.trust := trust;
      this.ledger := ledger;
    }

    /** `book` stands for the Ed25519 check. */
    method Redeem(book: Book, envelope: SignedEnvelope, request: ActionRequest, base: GateDecision, now: Time)
      returns (r: ReviewAuthorization)
      modifies ledger
      ensures r == SignedReply(book, trust, old(ledger.rows), envelope, request, base, now)
      ensures ledger.rows == SignedRows(book, trust, old(ledger.rows), envelope, request, base, now)
    {
      r := CheckLease(book, trust, envelope, request, base, now);
      if r.Released? {
        var consumed := ledger.Consume(r.leaseId, envelope.envelopeHash, now);
        if !consumed {
          r := Refused(LeaseAlreadyUsed, Some(r.leaseId));
        }
      }
    }
  }

  // ----- When each of the two releases a request --------------------------------------------------

  /** The signed authorizer releases a request exactly for an unconsumed lease that a trusted reviewer signed in its
      own name and that is in force for the request. */
  lemma SignedReleaseIff(book: Book, trust: TrustStore, rows: Table, envelope: SignedEnvelope, request: ActionRequest,
                         base: GateDecision, now: Time)
    ensures SignedReply(book, trust, rows, envelope, request, base, now).Released? <==>
      && Accepted(book, envelope, LeasePolicy(trust))
      && envelope.view.payload.LeasePayload?
      && var lease := envelope.view.payload.lease;
      && envelope.view.payload == ReviewLeasePayload(lease) && ValidLease(lease)
      && lease.issuedBy == envelope.view.signerId
      && Releases(lease, request, base, now)
      && Fresh(rows, lease.leaseId, envelope.envelopeHash)
  {
    VerifiedIffSigned(book, envelope, LeasePolicy(trust));
  }

  /** What each answer tells: the checks before the one it names have passed, and that one has not. */
  lemma SignedAnswers(book: Book, trust: TrustStore, rows: Table, envelope: SignedEnvelope, request: ActionRequest,
                      base: GateDecision, now: Time)
    ensures var reply := SignedReply(book, trust, rows, envelope, request, base, now);
      var policy := Policy(trust, Some(ReviewIssuer), Some(ReviewLeaseType));
      var reviewed := base.verdict == REVIEW;
      var signed := reviewed && Accepted(book, envelope, policy);
      var payload := envelope.view.payload;
      var read := signed && payload.LeasePayload? && payload.leaseEffect == OneShotReviewOnly
        && ValidLease(payload.lease);
      match reply
      case Refused(BaseGateIsNotReview, about) => !reviewed && about == None
      case Refused(LeaseEnvelopeRejected(failure), about) =>
        reviewed && VerifyEnvelope(book, envelope, policy).reason == Some(failure) && about == None
      case Refused(LeasePayloadInvalid, about) => signed && !read && about == None
      case _ =>
        && read
        && var lease := payload.lease;
        var own := lease.issuedBy == envelope.view.signerId;
        var begun := own && lease.issuedAt <= now;
        var current := begun && now < lease.expiresAt;
        var sameRequest := current && lease.requestDigest == Sha256(RequestBody(request));
        var inScope := sameRequest && lease.capability == request.capability && lease.action == request.action
          && lease.resource == request.resource;
        var sameGrants := inScope && lease.reviewGrantIds == base.matchedGrantIds;
        var unused := lease.leaseId !in rows && forall id :: id in rows ==>
          rows[id].envelopeHash != envelope.envelopeHash;
        && (reply.Refused? ==> reply.about == Some(lease.leaseId))
        && match reply
           case Refused(LeaseIssuerMismatch, _) => !own
           case Refused(LeaseNotYetValid, _) => own && !begun
           case Refused(LeaseExpired, _) => begun && !current
           case Refused(RequestDigestMismatch, _) => current && !sameRequest
           case Refused(LeaseScopeMismatch, _) => sameRequest && !inScope
           case Refused(ReviewPolicyChanged, _) => inScope && !sameGrants
           case Refused(LeaseAlreadyUsed, _) => sameGrants && !unused
           case Refused(_, _) => false
           case Released(id) => id == lease.leaseId && sameGrants && unused
  {
    hide VerifyEnvelope, Accepted, ValidLease;
    VerifiedIffSigned(book, envelope, LeasePolicy(trust));
  }

  /** The broker releases a request exactly for a registered lease in force that is neither cancelled nor used. */
  lemma BrokerReleaseIff(s: BrokerState, leaseId: string, request: ActionRequest, base: GateDecision, now: Time)
    requires KeyedById(s.leases)
    ensures RedeemReply(s, leaseId, request, base, now).Released? <==>
      && leaseId in s.leases
      && leaseId !in s.cancelled
      && !(leaseId in s.uses && s.uses[leaseId] > 0)
      && Releases(s.leases[leaseId], request, base, now)
  {
  }

  // ----- The two agree --------------------------------------------------------------------------

  /** A lease known to both, with the envelope its issuer signed for it. */
  datatype KnownLease = KnownLease(lease: ReviewLease, envelope: SignedEnvelope)

  ghost predicate HonestlySigned(book: Book, trust: TrustStore, known: KnownLease) {
    && ValidLease(known.lease)
    && Accepted(book, known.envelope, LeasePolicy(trust))
    && known.envelope.view.payload == ReviewLeasePayload(known.lease)
    && known.envelope.view.signerId == known.lease.issuedBy
  }

  ghost predicate HonestAndDistinct(book: Book, trust: TrustStore, known: seq<KnownLease>) {
    && (forall k :: 0 <= k < |known| ==> HonestlySigned(book, trust, known[k]))
    && (forall j, k :: 0 <= j < k < |known| ==> known[j].lease.leaseId != known[k].lease.leaseId)
  }

  /** The broker knows the lease, has not cancelled it, and counts it used exactly when the ledger has its row. */
  ghost predicate AgreeOn(s: BrokerState, rows: Table, known: KnownLease) {
    var id := known.lease.leaseId;
    && id in s.leases && s.leases[id] == known.lease && id !in s.cancelled
    && (id in s.uses && s.uses[id] > 0 <==> id in rows)
    && (id in rows ==> rows[id].envelopeHash == known.envelope.envelopeHash)
  }

  ghost predicate Agree(s: BrokerState, rows: Table, known: seq<KnownLease>) {
    && KeyedById(s.leases)
    && (forall k :: 0 <= k < |known| ==> AgreeOn(s, rows, known[k]))
    && (forall id :: id in rows ==> exists k :: 0 <= k < |known| && known[k].lease.leaseId == id)
  }

  datatype RedeemTry = RedeemTry(k: nat, request: ActionRequest, base: GateDecision, now: Time)

  function BrokerRun(s: BrokerState, known: seq<KnownLease>, tries: seq<RedeemTry>): BrokerState
    requires forall t :: t in tries ==> t.k < |known|
  {
    if |tries| == 0 then s
    else
      var t := tries[|tries| - 1];
      Redeemed(BrokerRun(s, known, tries[..|tries| - 1]), known[t.k].lease.leaseId, t.request, t.base, t.now)
  }

  function LedgerRun(book: Book, trust: TrustStore, rows: Table, known: seq<KnownLease>, tries: seq<RedeemTry>): Table
    requires forall t :: t in tries ==> t.k < |known|
  {
    if |tries| == 0 then rows
    else
      var t := tries[|tries| - 1];
      SignedRows(book, trust, LedgerRun(book, trust, rows, known, tries[..|tries| - 1]), known[t.k].envelope,
                 t.request, t.base, t.now)
  }

  /** No other known lease has the envelope hash. */
  lemma HashesDistinct(book: Book, trust: TrustStore, s: BrokerState, rows: Table, known: seq<KnownLease>, k: nat)
    requires HonestAndDistinct(book, trust, known) && Agree(s, rows, known) && k < |known|
    ensures Fresh(rows, known[k].lease.leaseId, known[k].envelope.envelopeHash) <==> known[k].lease.leaseId !in rows
  {
    var id := known[k].lease.leaseId;
    if id !in rows {
      forall other | other in rows
        ensures rows[other].envelopeHash != known[k].envelope.envelopeHash
      {
        var j :| 0 <= j < |known| && known[j].lease.leaseId == other;
        assert AgreeOn(s, rows, known[j]);
        HashFixesEnvelope(book, known[j].envelope, known[k].envelope, LeasePolicy(trust), LeasePolicy(trust));
      }
    }
  }

  lemma SameVerdict(book: Book, trust: TrustStore, s: BrokerState, rows: Table, known: seq<KnownLease>, t: RedeemTry)
    requires HonestAndDistinct(book, trust, known) && Agree(s, rows, known) && t.k < |known|
    ensures RedeemReply(s, known[t.k].lease.leaseId, t.request, t.base, t.now).Released?
      == SignedReply(book, trust, rows, known[t.k].envelope, t.request, t.base, t.now).Released?
  {
    var n := known[t.k];
    assert AgreeOn(s, rows, n) && HonestlySigned(book, trust, n);
    BrokerReleaseIff(s, n.lease.leaseId, t.request, t.base, t.now);
    SignedReleaseIff(book, trust, rows, n.envelope, t.request, t.base, t.now);
    HashesDistinct(book, trust, s, rows, known, t.k);
  }

  /** What a redemption does to the broker's state, besides the log. */
  lemma RedeemEffect(s: BrokerState, id: string, request: ActionRequest, base: GateDecision, now: Time)
    ensures var s' := Redeemed(s, id, request, base, now);
      && s'.leases == s.leases && s'.cancelled == s.cancelled
      && s'.uses == if RedeemReply(s, id, request, base, now).Released? then
                      s.uses[id := (if id in s.uses then s.uses[id] else 0) + 1]
                    else s.uses
  {
  }

  lemma SignedEffect(book: Book, trust: TrustStore, rows: Table, envelope: SignedEnvelope, request: ActionRequest,
                     base: GateDecision, now: Time)
    ensures SignedRows(book, trust, rows, envelope, request, base, now)
      == if SignedReply(book, trust, rows, envelope, request, base, now).Released?
            && envelope.view.payload.LeasePayload?
         then rows[envelope.view.payload.lease.leaseId := Row(envelope.envelopeHash, now)]
         else rows
  {
    SignedReleaseIff(book, trust, rows, envelope, request, base, now);
  }

  lemma AgreeStep(s: BrokerState, s': BrokerState, rows: Table, rows': Table, book: Book, trust: TrustStore,
                  known: seq<KnownLease>, k: nat, now: Time)
    requires HonestAndDistinct(book, trust, known) && Agree(s, rows, known) && k < |known|
    requires s'.leases == s.leases && s'.cancelled == s.cancelled
    requires var id := known[k].lease.leaseId;
      || (s'.uses == s.uses && rows' == rows)
      || (s'.uses == s.uses[id := (if id in s.uses then s.uses[id] else 0) + 1]
          && rows' == rows[id := Row(known[k].envelope.envelopeHash, now)])
    ensures Agree(s', rows', known)
  {
    hide HonestlySigned, ValidLease;
    forall j | 0 <= j < |known|
      ensures AgreeOn(s', rows', known[j])
    {
      assert AgreeOn(s, rows, known[j]);
    }
  }

  lemma AgreementKept(book: Book, trust: TrustStore, s: BrokerState, rows: Table, known: seq<KnownLease>, t: RedeemTry)
    requires HonestAndDistinct(book, trust, known) && Agree(s, rows, known) && t.k < |known|
    ensures Agree(Redeemed(s, known[t.k].lease.leaseId, t.request, t.base, t.now),
                  SignedRows(book, trust, rows, known[t.k].envelope, t.request, t.base, t.now), known)
  {
    var n := known[t.k];
    SameVerdict(book, trust, s, rows, known, t);
    RedeemEffect(s, n.lease.leaseId, t.request, t.base, t.now);
    SignedEffect(book, trust, rows, n.envelope, t.request, t.base, t.now);
    assert HonestlySigned(book, trust, n);
    AgreeStep(s, Redeemed(s, n.lease.leaseId, t.request, t.base, t.now), rows,
              SignedRows(book, trust, rows, n.envelope, t.request, t.base, t.now), book, trust, known, t.k, t.now);
  }

  /** Both answer the attempt alike. */
  ghost predicate SameAnswer(book: Book, trust: TrustStore, s: BrokerState, rows: Table, known: seq<KnownLease>,
                             t: RedeemTry)
    requires t.k < |known|
  {
    RedeemReply(s, known[t.k].lease.leaseId, t.request, t.base, t.now).Released?
    == SignedReply(book, trust, rows, known[t.k].envelope, t.request, t.base, t.now).Released?
  }

  lemma {:induction false} AgreementRuns(book: Book, trust: TrustStore, s: BrokerState, rows: Table,
                                         known: seq<KnownLease>, tries: seq<RedeemTry>)
    requires HonestAndDistinct(book, trust, known) && Agree(s, rows, known)
    requires forall t :: t in tries ==> t.k < |known|
    ensures Agree(BrokerRun(s, known, tries), LedgerRun(book, trust, rows, known, tries), known)
  {
    if |tries| > 0 {
      var init, t := tries[..|tries| - 1], tries[|tries| - 1];
      AgreementRuns(book, trust, s, rows, known, init);
      AgreementKept(book, trust, BrokerRun(s, known, init), LedgerRun(book, trust, rows, known, init), known, t);
    }
  }

  /** Any sequence of redemption attempts on leases that both know gets the same answer from both, at every step. */
  lemma SignedSimulatesBroker(book: Book, trust: TrustStore, s: BrokerState, rows: Table, known: seq<KnownLease>,
                              tries: seq<RedeemTry>)
    requires HonestAndDistinct(book, trust, known) && Agree(s, rows, known)
    requires forall t :: t in tries ==> t.k < |known|
    ensures forall i :: 0 <= i < |tries| ==>
      SameAnswer(book, trust, BrokerRun(s, known, tries[..i]), LedgerRun(book, trust, rows, known, tries[..i]), known,
                 tries[i])
  {
    forall i | 0 <= i < |tries|
      ensures SameAnswer(book, trust, BrokerRun(s, known, tries[..i]),
                         LedgerRun(book, trust, rows, known, tries[..i]), known, tries[i])
    {
      AgreementRuns(book, trust, s, rows, known, tries[..i]);
      SameVerdict(book, trust, BrokerRun(s, known, tries[..i]), LedgerRun(book, trust, rows, known, tries[..i]),
                  known, tries[i]);
    }
  }

  function RegisterAll(known: seq<KnownLease>): BrokerState {
    if |known| == 0 then EMPTY else Registered(RegisterAll(known[..|known| - 1]), known[|known| - 1].lease)
  }

  ghost predicate RegistersOnly(s: BrokerState, known: seq<KnownLease>) {
    && s.cancelled == map[]
    && forall id :: id in s.leases ==> exists k :: 0 <= k < |known| && known[k].lease.leaseId == id
  }

  lemma RegisterAgrees(s: BrokerState, known: seq<KnownLease>, n: KnownLease)
    requires Agree(s, map[], known) && RegistersOnly(s, known) && ValidLease(n.lease)
    requires forall k :: 0 <= k < |known| ==> known[k].lease.leaseId != n.lease.leaseId
    ensures Agree(Registered(s, n.lease), map[], known + [n]) && RegistersOnly(Registered(s, n.lease), known + [n])
  {
    var s', longer := Registered(s, n.lease), known + [n];
    forall k | 0 <= k < |longer|
      ensures AgreeOn(s', map[], longer[k])
    {
      if k < |known| {
        assert AgreeOn(s, map[], known[k]);
      }
    }
    forall id | id in s'.leases
      ensures exists k :: 0 <= k < |longer| && longer[k].lease.leaseId == id
    {
      if id == n.lease.leaseId {
        assert longer[|known|].lease.leaseId == id;
      } else {
        var k :| 0 <= k < |known| && known[k].lease.leaseId == id;
        assert longer[k].lease.leaseId == id;
      }
    }
  }

  lemma HonestPrefix(book: Book, trust: TrustStore, known: seq<KnownLease>)
    requires HonestAndDistinct(book, trust, known) && |known| > 0
    ensures HonestAndDistinct(book, trust, known[..|known| - 1])
    ensures ValidLease(known[|known| - 1].lease)
    ensures var init := known[..|known| - 1];
      forall k :: 0 <= k < |init| ==> init[k].lease.leaseId != known[|known| - 1].lease.leaseId
  {
    assert HonestlySigned(book, trust, known[|known| - 1]);
  }

  lemma AgreeEmpty()
    ensures Agree(EMPTY, map[], []) && RegistersOnly(EMPTY, [])
  {
  }

  /** Registering the leases with a new broker and opening an empty ledger makes the two agree. */
  lemma {:induction false} AgreeAtStart(book: Book, trust: TrustStore, known: seq<KnownLease>)
    requires HonestAndDistinct(book, trust, known)
    ensures Agree(RegisterAll(known), map[], known) && RegistersOnly(RegisterAll(known), known)
  {
    hide Agree, RegistersOnly, Registered, HonestAndDistinct, ValidLease;
    if known == [] {
      AgreeEmpty();
    } else {
      HonestPrefix(book, trust, known);
      var init, last := known[..|known| - 1], known[|known| - 1];
      AgreeAtStart(book, trust, init);
      RegisterAgrees(RegisterAll(init), init, last);
      assert known == init + [last];
    }
  }
}
