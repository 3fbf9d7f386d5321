/** Signed envelopes: signing, verification against a trust store, and hash chains of envelopes. */
module Envelopes {
  import opened Records

  datatype Signer = Signer(subject: string, keyId: string)

  datatype TrustedSigner = TrustedSigner(keyId: string, subject: string, roles: set<Role>, active: bool)

  /** Trust roots by key id. */
  type TrustStore = map<string, TrustedSigner>

  /** One fact of the signature scheme: `text` verifies as a signature of `view` under `keyId`. */
  datatype Signature = Signature(keyId: string, view: SignatureView, text: string)

  /** The signatures that verify.  Nothing says that a view has only one signature text. */
  type Book = set<Signature>

  function PayloadHash(payload: Payload): Digest {
    Sha256(PayloadBody(payload))
  }

  function EnvelopeHash(view: SignatureView, signature: string): Digest {
    Sha256(EnvelopeBody(view, signature))
  }

  function ViewOf(payloadType: PayloadType, payload: Payload, signer: Signer, signedAt: Time, previous: Option<Digest>)
    : SignatureView
  {
    SignatureView(payloadType, payload, PayloadHash(payload), signer.subject, signer.keyId, signedAt, previous)
  }

  /** `sign_payload`; `text` is the signature the private key gave. */
  function SignPayload(payloadType: PayloadType, payload: Payload, signer: Signer, signedAt: Time,
                       previous: Option<Digest>, text: string): SignedEnvelope
  {
    var view := ViewOf(payloadType, payload, signer, signedAt, previous);
    SignedEnvelope(view, text, EnvelopeHash(view, text))
  }

  function SignatureOf(envelope: SignedEnvelope): Signature {
    Signature(envelope.view.keyId, envelope.view, envelope.signature)
  }

  // ----- Verification ---------------------------------------------------------------------------

  /** What a caller of `verify_envelope` asks for besides a good signature. */
  datatype Policy = Policy(trust: TrustStore, role: Option<Role>, payloadType: Option<PayloadType>)

  datatype Check = Check(failure: EnvelopeFailure, passed: bool)

  datatype VerificationResult = VerificationResult(
    ok: bool, payloadHashOk: bool, envelopeHashOk: bool, signerTrusted: bool, signerActive: bool,
    signerSubjectOk: bool, roleOk: bool, signatureOk: bool, reason: Option<EnvelopeFailure>)

  function FirstFailure(checks: seq<Check>): Option<EnvelopeFailure> {
    if |checks| == 0 then None
    else if !checks[0].passed then Some(checks[0].failure)
    else FirstFailure(checks[1..])
  }

  function VerifyEnvelope(book: Book, envelope: SignedEnvelope, policy: Policy): VerificationResult {
    var view := envelope.view;
    var trust := policy.trust;
    var payloadHashOk := view.payloadHash == PayloadHash(view.payload);
    var envelopeHashOk := envelope.envelopeHash == EnvelopeHash(view, envelope.signature);
    var trusted := view.keyId in trust;
    var active := trusted && trust[view.keyId].active;
    var subjectOk := trusted && trust[view.keyId].subject == view.signerId;
    var roleOk := trusted && RoleOk(policy.role, trust[view.keyId]);
    var typeOk := TypeOk(policy.payloadType, view);
    var signatureOk := trusted && SignatureOf(envelope) in book;
    var reason := FirstFailure([
      Check(PayloadHashMismatch, payloadHashOk), Check(EnvelopeHashMismatch, envelopeHashOk),
      Check(UntrustedSigner, trusted), Check(SignerRevoked, active),
      Check(SubjectMismatch, subjectOk), Check(RoleNotAllowed, roleOk),
      Check(PayloadTypeMismatch, typeOk), Check(SignatureInvalid, signatureOk)]);
    VerificationResult(
      payloadHashOk && envelopeHashOk && trusted && active && subjectOk && roleOk && typeOk && signatureOk,
      payloadHashOk, envelopeHashOk, trusted, active, subjectOk, roleOk, signatureOk, reason)
  }

  predicate RoleOk(role: Option<Role>, signer: TrustedSigner) {
    role.None? || role.value in signer.roles
  }

  predicate TypeOk(payloadType: Option<PayloadType>, view: SignatureView) {
    payloadType.None? || view.payloadType == payloadType.value
  }

  /** The policy lets the signer sign. */
  predicate Trusts(policy: Policy, signer: Signer) {
    && signer.keyId in policy.trust
    && policy.trust[signer.keyId].active
    && policy.trust[signer.keyId].subject == signer.subject
    && RoleOk(policy.role, policy.trust[signer.keyId])
  }

  function SignerOf(view: SignatureView): Signer {
    Signer(view.signerId, view.keyId)
  }

  /** The envelope is one that `SignPayload` makes for a signer of the policy, and its signature verifies. */
  predicate Accepted(book: Book, envelope: SignedEnvelope, policy: Policy) {
    var view := envelope.view;
    && Trusts(policy, SignerOf(view))
    && TypeOk(policy.payloadType, view)
    && SignatureOf(envelope) in book
    && envelope == SignPayload(view.payloadType, view.payload, SignerOf(view), view.signedAt, view.previous,
                               envelope.signature)
  }

  /** Verification succeeds exactly on what a trusted signer signed.  Each flag tells one condition on the envelope and
      the trust store, and the reason is the first of these conditions that fails. */
  lemma VerifiedIffSigned(book: Book, envelope: SignedEnvelope, policy: Policy)
    ensures VerifyEnvelope(book, envelope, policy).ok <==> Accepted(book, envelope, policy)
    ensures var v, view, trust := VerifyEnvelope(book, envelope, policy), envelope.view, policy.trust;
      && (v.payloadHashOk <==> view.payloadHash == Sha256(PayloadBody(view.payload)))
      && (v.envelopeHashOk <==> envelope.envelopeHash == Sha256(EnvelopeBody(view, envelope.signature)))
      && (v.signerTrusted <==> view.keyId in trust)
      && (v.signerActive <==> view.keyId in trust && trust[view.keyId].active)
      && (v.signerSubjectOk <==> view.keyId in trust && trust[view.keyId].subject == view.signerId)
      && (v.roleOk <==> view.keyId in trust && (policy.role.Some? ==> policy.role.value in trust[view.keyId].roles))
      && (v.signatureOk <==> view.keyId in trust && Signature(view.keyId, view, envelope.signature) in book)
    ensures VerifyEnvelope(book, envelope, policy).ok ==> VerifyEnvelope(book, envelope, policy).reason == None
    ensures var v, view, trust := VerifyEnvelope(book, envelope, policy), envelope.view, policy.trust;
      !v.ok ==>
        v.reason == Some(
        if view.payloadHash != Sha256(PayloadBody(view.payload)) then PayloadHashMismatch
        else if envelope.envelopeHash != Sha256(EnvelopeBody(view, envelope.signature)) then EnvelopeHashMismatch
        else if view.keyId !in trust then UntrustedSigner
        else if !trust[view.keyId].active then SignerRevoked
        else if trust[view.keyId].subject != view.signerId then SubjectMismatch
        else if policy.role.Some? && policy.role.value !in trust[view.keyId].roles then RoleNotAllowed
        else if policy.payloadType.Some? && policy.payloadType.value != view.payloadType then PayloadTypeMismatch
        else SignatureInvalid)
  {
    var v := VerifyEnvelope(book, envelope, policy);
    var checks := [
      Check(PayloadHashMismatch, v.payloadHashOk), Check(EnvelopeHashMismatch, v.envelopeHashOk),
      Check(UntrustedSigner, v.signerTrusted), Check(SignerRevoked, v.signerActive),
      Check(SubjectMismatch, v.signerSubjectOk), Check(RoleNotAllowed, v.roleOk),
      Check(PayloadTypeMismatch, TypeOk(policy.payloadType, envelope.view)),
      Check(SignatureInvalid, v.signatureOk)];
    assert v.reason == FirstFailure(checks);
    if v.ok {
      NoFailure(checks);
    } else {
      var first :=
        if !v.payloadHashOk then 0 else if !v.envelopeHashOk then 1 else if !v.signerTrusted then 2
        else if !v.signerActive then 3 else if !v.signerSubjectOk then 4 else if !v.roleOk then 5
        else if !TypeOk(policy.payloadType, envelope.view) then 6 else 7;
      FirstFailureIsFirst(checks, first);
    }
  }

  /** Envelopes that two policies accept are equal when their hashes are. */
  lemma HashFixesEnvelope(book: Book, e: SignedEnvelope, f: SignedEnvelope, policy: Policy, policy': Policy)
    requires Accepted(book, e, policy) && Accepted(book, f, policy')
    ensures e.envelopeHash == f.envelopeHash <==> e == f
  {
  }

  lemma {:induction false} FirstFailureIsFirst(checks: seq<Check>, i: nat)
    requires i < |checks| && !checks[i].passed && forall j :: 0 <= j < i ==> checks[j].passed
    ensures FirstFailure(checks) == Some(checks[i].failure)
  {
    if i > 0 {
      FirstFailureIsFirst(checks[1..], i - 1);
    }
  }

  lemma {:induction false} NoFailure(checks: seq<Check>)
    requires forall j :: 0 <= j < |checks| ==> checks[j].passed
    ensures FirstFailure(checks) == None
  {
    if |checks| > 0 {
      NoFailure(checks[1..]);
    }
  }

  // ----- Chains ---------------------------------------------------------------------------------

  datatype ChainReason = ChainVerified | NotVerified(failure: EnvelopeFailure) | PreviousHashMismatch

  datatype ChainResult = ChainResult(ok: bool, verifiedCount: nat, failedIndex: Option<nat>, reason: ChainReason)

  /** The hash that the next envelope of the chain has to name. */
  function EndHash(previous: Option<Digest>, envelopes: seq<SignedEnvelope>): Option<Digest> {
    if |envelopes| == 0 then previous else Some(envelopes[|envelopes| - 1].envelopeHash)
  }

  predicate Linked(book: Book, envelopes: seq<SignedEnvelope>, policy: Policy, previous: Option<Digest>, i: nat)
    requires i < |envelopes|
  {
    && Accepted(book, envelopes[i], policy)
    && envelopes[i].view.previous == EndHash(previous, envelopes[..i])
  }

  /** Every envelope verifies and names the hash of the one before it. */
  ghost predicate ValidChain(book: Book, envelopes: seq<SignedEnvelope>, policy: Policy, previous: Option<Digest>)
  {
    forall i :: 0 <= i < |envelopes| ==> Linked(book, envelopes, policy, previous, i)
  }

  method VerifyEnvelopeChain(book: Book, envelopes: seq<SignedEnvelope>, policy: Policy,
                             expectedPrevious: Option<Digest>) returns (r: ChainResult)
    ensures r.ok <==> ValidChain(book, envelopes, policy, expectedPrevious)
    ensures r.ok ==> r == ChainResult(true, |envelopes|, None, ChainVerified)
    ensures !r.ok ==>
      && r.verifiedCount < |envelopes| && r.failedIndex == Some(r.verifiedCount)
      && ValidChain(book, envelopes[..r.verifiedCount], policy, expectedPrevious)
      && !ValidChain(book, envelopes[..r.verifiedCount + 1], policy, expectedPrevious)
      && var v := VerifyEnvelope(book, envelopes[r.verifiedCount], policy);
         r.reason == if v.reason.None? then PreviousHashMismatch else NotVerified(v.reason.value)
  {
    var previous := expectedPrevious;
    var count := 0;
    for index := 0 to |envelopes|
      invariant count == index
      invariant previous == EndHash(expectedPrevious, envelopes[..index])
      invariant ValidChain(book, envelopes[..index], policy, expectedPrevious)
    {
      var envelope := envelopes[index];
      ChainStep(book, envelopes[..index + 1], policy, expectedPrevious);
      assert envelopes[..index + 1][..index] == envelopes[..index];
      var verified := VerifyEnvelope(book, envelope, policy);
      VerifiedIffSigned(book, envelope, policy);
      if !verified.ok {
        PrefixOfChain(book, envelopes, policy, expectedPrevious, index + 1);
        return ChainResult(false, count, Some(index), NotVerified(verified.reason.value));
      }
      if envelope.view.previous != previous {
        PrefixOfChain(book, envelopes, policy, expectedPrevious, index + 1);
        return ChainResult(false, count, Some(index), PreviousHashMismatch);
      }
      previous := Some(envelope.envelopeHash);
      count := count + 1;
    }
    assert envelopes[..|envelopes|] == envelopes;
    return ChainResult(true, count, None, ChainVerified);
  }

  lemma LinkedPrefix(book: Book, envelopes: seq<SignedEnvelope>, policy: Policy, previous: Option<Digest>, n: nat)
    requires n <= |envelopes|
    ensures forall i :: 0 <= i < n ==>
      (Linked(book, envelopes[..n], policy, previous, i) <==> Linked(book, envelopes, policy, previous, i))
  {
    forall i | 0 <= i < n
      ensures Linked(book, envelopes[..n], policy, previous, i) <==> Linked(book, envelopes, policy, previous, i)
    {
      assert envelopes[..n][..i] == envelopes[..i];
    }
  }

  lemma PrefixOfChain(book: Book, envelopes: seq<SignedEnvelope>, policy: Policy, previous: Option<Digest>, n: nat)
    requires n <= |envelopes|
    ensures ValidChain(book, envelopes, policy, previous) ==>
      ValidChain(book, envelopes[..n], policy, previous)
  {
    LinkedPrefix(book, envelopes, policy, previous, n);
  }

  /** A chain is extended by one envelope exactly when that envelope verifies and links to its end. */
  lemma ChainStep(book: Book, envelopes: seq<SignedEnvelope>, policy: Policy, previous: Option<Digest>)
    requires |envelopes| > 0
    ensures var n := |envelopes| - 1;
      ValidChain(book, envelopes, policy, previous) <==>
        && ValidChain(book, envelopes[..n], policy, previous)
        && Accepted(book, envelopes[n], policy)
        && envelopes[n].view.previous == EndHash(previous, envelopes[..n])
  {
    var n := |envelopes| - 1;
    LinkedPrefix(book, envelopes, policy, previous, n);
    assert Linked(book, envelopes, policy, previous, n) <==>
      Accepted(book, envelopes[n], policy) && envelopes[n].view.previous == EndHash(previous, envelopes[..n]);
  }

  /** Checking a concatenation is checking the first part, then the second from the end of the first. */
  lemma {:induction false} ChainConcat(book: Book, first: seq<SignedEnvelope>, second: seq<SignedEnvelope>,
                                       policy: Policy,
                                       previous: Option<Digest>)
    ensures ValidChain(book, first + second, policy, previous) <==>
      && ValidChain(book, first, policy, previous)
      && ValidChain(book, second, policy, EndHash(previous, first))
  {
    if second == [] {
      assert first + second == first;
    } else {
      var n := |second| - 1;
      ChainStep(book, first + second, policy, previous);
      ChainStep(book, second, policy, EndHash(previous, first));
      ChainConcat(book, first, second[..n], policy, previous);
      assert (first + second)[..|first| + n] == first + second[..n];
    }
  }

  /** How many envelope hashes are nested in a digest. */
  ghost function Depth(digest: Option<Digest>): nat {
    match digest
    case Some(Sha256(EnvelopeBody(view, _))) => 1 + Depth(view.previous)
    case _ => 0
  }

  lemma {:induction false} ChainDepth(book: Book, envelopes: seq<SignedEnvelope>, policy: Policy,
                                      previous: Option<Digest>)
    requires ValidChain(book, envelopes, policy, previous)
    ensures Depth(EndHash(previous, envelopes)) == Depth(previous) + |envelopes|
  {
    if envelopes != [] {
      var n := |envelopes| - 1;
      ChainStep(book, envelopes, policy, previous);
      ChainDepth(book, envelopes[..n], policy, previous);
    }
  }

  /** Two accepted chains with the same start and the same last hash are the same chain, even when they were
      checked under different policies. */
  lemma {:induction false} EndHashFixesChain(
      book: Book, e: seq<SignedEnvelope>, f: seq<SignedEnvelope>, policy: Policy, policy': Policy,
      previous: Option<Digest>)
    requires ValidChain(book, e, policy, previous)
    requires ValidChain(book, f, policy', previous)
    ensures EndHash(previous, e) == EndHash(previous, f) <==> e == f
  {
    if EndHash(previous, e) == EndHash(previous, f) {
      ChainDepth(book, e, policy, previous);
      ChainDepth(book, f, policy', previous);
      if e != [] {
        var n := |e| - 1;
        ChainStep(book, e, policy, previous);
        ChainStep(book, f, policy', previous);
        HashFixesEnvelope(book, e[n], f[n], policy, policy');
        EndHashFixesChain(book, e[..n], f[..n], policy, policy', previous);
        assert e == e[..n] + [e[n]] && f == f[..n] + [f[n]];
      }
    }
  }

  /** A larger book accepts what a smaller one does. */
  lemma ChainMonotone(book: Book, book': Book, envelopes: seq<SignedEnvelope>, policy: Policy, previous: Option<Digest>)
    requires book <= book' && ValidChain(book, envelopes, policy, previous)
    ensures ValidChain(book', envelopes, policy, previous)
  {
    forall i | 0 <= i < |envelopes|
      ensures Linked(book', envelopes, policy, previous, i)
    {
      assert Linked(book, envelopes, policy, previous, i);
    }
  }
}
