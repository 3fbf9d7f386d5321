/** Registry snapshots: attestation, digests, and the difference between two registries. */
module Registries {
  import opened Envelopes
  import opened Gate
  import opened KeyOrder
  import opened Records

  function GrantKey(grant: CapabilityGrant): string {
    grant.grantId
  }

  /** The registry with its grants sorted by id, as payloads and digests list them. */
  function Snapshot(registry: CapabilityRegistry): CapabilityRegistry {
    registry.(grants := SortBy(GrantKey, registry.grants))
  }

  // ----- Attestation ----------------------------------------------------------------------------

  function RegistryAttestation(registry: CapabilityRegistry): Payload {
    RegistryPayload(Snapshot(registry), AttestsExactSnapshot)
  }

  function AttestRegistry(registry: CapabilityRegistry, signer: Signer, signedAt: Time, previous: Option<Digest>,
                          text: string): SignedEnvelope
  {
    SignPayload(RegistryType, RegistryAttestation(registry), signer, signedAt, previous, text)
  }

  function AttestationPolicy(trust: TrustStore): Policy {
    Policy(trust, Some(CapabilityAuthority), Some(RegistryType))
  }

  datatype AttestationResult = Attested | EnvelopeRejected(failure: EnvelopeFailure) | SnapshotMismatch

  function VerifyAttestation(book: Book, registry: CapabilityRegistry, envelope: SignedEnvelope, trust: TrustStore)
    : AttestationResult
  {
    var verified := VerifyEnvelope(book, envelope, AttestationPolicy(trust));
    if verified.reason.Some? then EnvelopeRejected(verified.reason.value)
    else if envelope.view.payload != RegistryAttestation(registry) then SnapshotMismatch
    else Attested
  }

  ghost predicate SameById(grants: seq<CapabilityGrant>, grants': seq<CapabilityGrant>) {
    forall id :: WithKey(GrantKey, grants, id) == WithKey(GrantKey, grants', id)
  }

  lemma SortingKeepsEachId(grants: seq<CapabilityGrant>)
    ensures SameById(grants, SortBy(GrantKey, grants)) && Sorted(GrantKey, SortBy(GrantKey, grants))
  {
    hide SortBy, WithKey;
    SortBySorts(GrantKey, grants);
    forall id
      ensures WithKey(GrantKey, grants, id) == WithKey(GrantKey, SortBy(GrantKey, grants), id)
    {
      SortByIsStable(GrantKey, grants, id);
    }
  }

  /** Two registries have one snapshot exactly when they carry the same name and version and, for every grant id, the
      same grants in the same order. */
  lemma SnapshotIff(r: CapabilityRegistry, r': CapabilityRegistry)
    ensures Snapshot(r) == Snapshot(r') <==>
      r.registryId == r'.registryId && r.version == r'.version && SameById(r.grants, r'.grants)
  {
    hide SortBy, WithKey;
    var s, s' := SortBy(GrantKey, r.grants), SortBy(GrantKey, r'.grants);
    SortingKeepsEachId(r.grants);
    SortingKeepsEachId(r'.grants);
    if SameById(r.grants, r'.grants) {
      forall id
        ensures WithKey(GrantKey, s, id) == WithKey(GrantKey, s', id)
      {
        assert WithKey(GrantKey, r.grants, id) == WithKey(GrantKey, r'.grants, id);
      }
      SortedIsByKey(GrantKey, s, s');
    }
    if s == s' {
      forall id
        ensures WithKey(GrantKey, r.grants, id) == WithKey(GrantKey, r'.grants, id)
      {
        assert WithKey(GrantKey, r.grants, id) == WithKey(GrantKey, s, id);
        assert WithKey(GrantKey, r'.grants, id) == WithKey(GrantKey, s', id);
      }
    }
  }

  /** The snapshot has the same name, version and grants, in the order of their ids. */
  lemma SnapshotIs(registry: CapabilityRegistry)
    ensures var s := Snapshot(registry);
      && s.registryId == registry.registryId && s.version == registry.version
      && multiset(s.grants) == multiset(registry.grants)
      && forall i, j :: 0 <= i < j < |s.grants| ==>
           s.grants[i].grantId == s.grants[j].grantId || Before(s.grants[i].grantId, s.grants[j].grantId)
  {
    hide SortBy, Before;
    SortBySorts(GrantKey, registry.grants);
    var grants := Snapshot(registry).grants;
    forall i, j | 0 <= i < j < |grants|
      ensures grants[i].grantId == grants[j].grantId || Before(grants[i].grantId, grants[j].grantId)
    {
      BeforeTotal(GrantKey(grants[i]), GrantKey(grants[j]));
    }
  }

  /** Registries with one snapshot give every request the same verdict, even when grant ids repeat. */
  lemma SameSnapshotSameVerdict(glob: Glob, request: ActionRequest, r: CapabilityRegistry, r': CapabilityRegistry)
    requires Snapshot(r) == Snapshot(r')
    ensures Evaluate(glob, request, r).verdict == Evaluate(glob, request, r').verdict
  {
    hide Evaluate, SortBy;
    SortBySorts(GrantKey, r.grants);
    SortBySorts(GrantKey, r'.grants);
    forall g
      ensures g in r.grants <==> g in r'.grants
    {
      assert g in r.grants <==> g in multiset(r.grants);
      assert g in r'.grants <==> g in multiset(r'.grants);
    }
    VerdictIgnoresOrder(glob, request, r, r');
  }

  /** A registry passes attestation exactly when an active capability authority signed its snapshot. */
  lemma AttestedIffSigned(book: Book, registry: CapabilityRegistry, envelope: SignedEnvelope, trust: TrustStore)
    ensures VerifyAttestation(book, registry, envelope, trust) == Attested <==>
      Accepted(book, envelope, AttestationPolicy(trust)) && envelope.view.payload == RegistryAttestation(registry)
  {
    VerifiedIffSigned(book, envelope, AttestationPolicy(trust));
  }

  /** What the answer tells: an envelope that does not verify is told apart from one about another registry. */
  lemma AttestationAnswers(book: Book, registry: CapabilityRegistry, envelope: SignedEnvelope, trust: TrustStore)
    ensures var policy := Policy(trust, Some(CapabilityAuthority), Some(RegistryType));
      var same := envelope.view.payload == RegistryPayload(Snapshot(registry), AttestsExactSnapshot);
      match VerifyAttestation(book, registry, envelope, trust)
      case EnvelopeRejected(failure) => VerifyEnvelope(book, envelope, policy).reason == Some(failure)
      case SnapshotMismatch => Accepted(book, envelope, policy) && !same
      case Attested => Accepted(book, envelope, policy) && same
  {
    hide VerifyEnvelope, Accepted, Snapshot;
    VerifiedIffSigned(book, envelope, AttestationPolicy(trust));
  }

  /** A loaded registry that passes attestation decides every request as the registry that the authority signed. */
  lemma AttestedDecidesAsSigned(glob: Glob, book: Book, loaded: CapabilityRegistry, signed: CapabilityRegistry,
                                signer: Signer, signedAt: Time, previous: Option<Digest>, text: string,
                                trust: TrustStore, request: ActionRequest)
    requires var envelope := AttestRegistry(signed, signer, signedAt, previous, text);
      VerifyAttestation(book, loaded, envelope, trust) == Attested
    ensures loaded.registryId == signed.registryId && loaded.version == signed.version
    ensures Evaluate(glob, request, loaded).verdict == Evaluate(glob, request, signed).verdict
  {
    hide Evaluate, SortBy;
    AttestedIffSigned(book, loaded, AttestRegistry(signed, signer, signedAt, previous, text), trust);
    SameSnapshotSameVerdict(glob, request, loaded, signed);
  }

  // ----- What the runtime's constructor asks for ------------------------------------------------

  /** `PersonalAgentRuntime` starts. */
  predicate MayStart(book: Book, registry: CapabilityRegistry, trust: Option<TrustStore>,
                     attestation: Option<SignedEnvelope>, requireSigned: bool)
  {
    if requireSigned then
      && trust.Some? && attestation.Some?
      && VerifyAttestation(book, registry, attestation.value, trust.value) == Attested
    else
      attestation.Some? ==>
        trust.Some? && VerifyAttestation(book, registry, attestation.value, trust.value) == Attested
  }

  /** A runtime that requires attestation starts exactly on a registry that an authority signed, and an attestation that
      is given is never ignored. */
  lemma StartsIffAttested(book: Book, registry: CapabilityRegistry, trust: Option<TrustStore>,
                          attestation: Option<SignedEnvelope>, requireSigned: bool)
    ensures MayStart(book, registry, trust, attestation, requireSigned) <==>
      || (attestation.None? && !requireSigned)
      || (&& trust.Some? && attestation.Some?
          && Accepted(book, attestation.value, AttestationPolicy(trust.value))
          && attestation.value.view.payload == RegistryAttestation(registry))
  {
    if trust.Some? && attestation.Some? {
      AttestedIffSigned(book, registry, attestation.value, trust.value);
    }
  }

  // ----- Differences ----------------------------------------------------------------------------

  function RegistryDigest(registry: CapabilityRegistry): Digest {
    Sha256(RegistryBody(Snapshot(registry)))
  }

  /** The grants by id; the last grant of an id wins. */
  function GrantMap(grants: seq<CapabilityGrant>): (m: map<string, CapabilityGrant>)
    ensures forall id :: id in m ==> m[id].grantId == id && m[id] in grants
    ensures forall g :: g in grants ==> g.grantId in m
  {
    if |grants| == 0 then map[]
    else
      var last := grants[|grants| - 1];
      GrantMap(grants[..|grants| - 1])[last.grantId := last]
  }

  function Ids(grants: seq<CapabilityGrant>): (ids: seq<string>)
    ensures forall id :: id in ids <==> id in GrantMap(grants)
  {
    if |grants| == 0 then [] else Ids(grants[..|grants| - 1]) + [grants[|grants| - 1].grantId]
  }

  /** The ids of one map that the other lacks. */
  function OnlyIn(ids: seq<string>, other: map<string, CapabilityGrant>): (r: seq<string>)
    ensures forall id :: id in r <==> id in ids && id !in other
  {
    if |ids| == 0 then [] else (if ids[0] in other then [] else [ids[0]]) + OnlyIn(ids[1..], other)
  }

  function Differing(ids: seq<string>, before: map<string, CapabilityGrant>, after: map<string, CapabilityGrant>)
    : (r: seq<string>)
    ensures forall id :: id in r <==> id in ids && id in before && id in after && before[id] != after[id]
  {
    if |ids| == 0 then []
    else
      (if ids[0] in before && ids[0] in after && before[ids[0]] != after[ids[0]] then [ids[0]] else [])
      + Differing(ids[1..], before, after)
  }

  function DiffRegistries(baseline: CapabilityRegistry, proposed: CapabilityRegistry): CapabilityDelta {
    var before, after := GrantMap(baseline.grants), GrantMap(proposed.grants);
    var added := SortedSet(OnlyIn(Ids(proposed.grants), before));
    var removed := SortedSet(OnlyIn(Ids(baseline.grants), after));
    var changed := SortedSet(Differing(Ids(baseline.grants), before, after));
    CapabilityDelta(added, removed, changed,
                    Sha256(DeltaBody(RegistryDigest(baseline), RegistryDigest(proposed), added, removed, changed)))
  }

  predicate HasAuthorityChange(delta: CapabilityDelta) {
    delta.added != [] || delta.removed != [] || delta.changed != []
  }

  predicate HasPossibleAuthorityExpansion(delta: CapabilityDelta) {
    delta.added != [] || delta.changed != []
  }

  /** Added, removed and changed are exactly the ids on which the two registries differ, each in one list, in order and
      without repetition. */
  lemma DiffPartitions(baseline: CapabilityRegistry, proposed: CapabilityRegistry)
    ensures var d := DiffRegistries(baseline, proposed);
      var before, after := GrantMap(baseline.grants), GrantMap(proposed.grants);
      && (forall id :: id in d.added <==> id !in before && id in after)
      && (forall id :: id in d.removed <==> id in before && id !in after)
      && (forall id :: id in d.changed <==> id in before && id in after && before[id] != after[id])
      && (forall ids :: ids in [d.added, d.removed, d.changed] ==> Sorted(Itself, ids) && DistinctKeys(Itself, ids))
  {
    hide SortedSet, OnlyIn, Differing, Ids, GrantMap;
    var before, after := GrantMap(baseline.grants), GrantMap(proposed.grants);
    SortedSetIs(OnlyIn(Ids(proposed.grants), before));
    SortedSetIs(OnlyIn(Ids(baseline.grants), after));
    SortedSetIs(Differing(Ids(baseline.grants), before, after));
  }

  lemma {:induction false} WithKeyLast(grants: seq<CapabilityGrant>, id: string)
    requires |grants| > 0
    ensures var n := |grants| - 1;
      WithKey(GrantKey, grants, id)
      == WithKey(GrantKey, grants[..n], id) + (if grants[n].grantId == id then [grants[n]] else [])
  {
    var n := |grants| - 1;
    if n > 0 {
      WithKeyLast(grants[1..], id);
      assert grants[1..][..n - 1] == grants[..n][1..];
    }
  }

  /** The grant map has the last grant of each id. */
  lemma {:induction false} GrantMapIsLast(grants: seq<CapabilityGrant>, id: string)
    ensures var same := WithKey(GrantKey, grants, id);
      && (id in GrantMap(grants) <==> same != [])
      && (same != [] ==> GrantMap(grants)[id] == same[|same| - 1])
  {
    if grants != [] {
      WithKeyLast(grants, id);
      GrantMapIsLast(grants[..|grants| - 1], id);
    }
  }

  lemma SameSnapshotSameMap(r: CapabilityRegistry, r': CapabilityRegistry)
    requires Snapshot(r) == Snapshot(r')
    ensures GrantMap(r.grants) == GrantMap(r'.grants)
  {
    SnapshotIff(r, r');
    hide WithKey, GrantMap, Snapshot;
    var m, m' := GrantMap(r.grants), GrantMap(r'.grants);
    forall id
      ensures id in m <==> id in m'
      ensures id in m && id in m' ==> m[id] == m'[id]
    {
      GrantMapIsLast(r.grants, id);
      GrantMapIsLast(r'.grants, id);
      assert WithKey(GrantKey, r.grants, id) == WithKey(GrantKey, r'.grants, id);
    }
  }

  /** The digest of a difference is taken of both registries and of the three lists, and so tells both registries, up
      to the order of grants with different ids. */
  lemma DeltaDigestIff(r: CapabilityRegistry, p: CapabilityRegistry, r': CapabilityRegistry, p': CapabilityRegistry)
    ensures var d := DiffRegistries(r, p);
      d.digest == Sha256(DeltaBody(Sha256(RegistryBody(Snapshot(r))), Sha256(RegistryBody(Snapshot(p))),
                                   d.added, d.removed, d.changed))
    ensures DiffRegistries(r, p).digest == DiffRegistries(r', p').digest <==>
      Snapshot(r) == Snapshot(r') && Snapshot(p) == Snapshot(p')
  {
    hide Snapshot, SortedSet, OnlyIn, Differing, Ids, GrantMap;
    if Snapshot(r) == Snapshot(r') && Snapshot(p) == Snapshot(p') {
      SameSnapshotSameMap(r, r');
      SameSnapshotSameMap(p, p');
      var before, after := GrantMap(r.grants), GrantMap(p.grants);
      SortedSetsEqual(OnlyIn(Ids(p.grants), before), OnlyIn(Ids(p'.grants), before));
      SortedSetsEqual(OnlyIn(Ids(r.grants), after), OnlyIn(Ids(r'.grants), after));
      SortedSetsEqual(Differing(Ids(r.grants), before, after), Differing(Ids(r'.grants), before, after));
    }
  }

  /** A grant map after a delta whose added and changed grants are given. */
  function Applied(grants: map<string, CapabilityGrant>, delta: CapabilityDelta, given: map<string, CapabilityGrant>)
    : map<string, CapabilityGrant>
    requires forall id :: id in delta.added || id in delta.changed ==> id in given
  {
    map id | id in (grants.Keys - (set r | r in delta.removed)) + (set a | a in delta.added) ::
      if id in delta.added || id in delta.changed then given[id] else grants[id]
  }

  /** Applying the delta to the baseline gives the proposal; nothing but the listed ids moves. */
  lemma DeltaApplies(baseline: CapabilityRegistry, proposed: CapabilityRegistry)
    ensures var d := DiffRegistries(baseline, proposed);
      var after := GrantMap(proposed.grants);
      && (forall id :: id in d.added || id in d.changed ==> id in after)
      && Applied(GrantMap(baseline.grants), d, after) == after
  {
    hide DiffRegistries, GrantMap;
    DiffPartitions(baseline, proposed);
  }

  /** Swapping the registries swaps what is added with what is removed. */
  lemma DiffSwaps(r: CapabilityRegistry, r': CapabilityRegistry)
    ensures var d, d' := DiffRegistries(r, r'), DiffRegistries(r', r);
      d.added == d'.removed && d.removed == d'.added && d.changed == d'.changed
  {
    hide SortedSet, OnlyIn, Differing, Ids, GrantMap;
    var before, after := GrantMap(r.grants), GrantMap(r'.grants);
    SortedSetsEqual(Differing(Ids(r.grants), before, after), Differing(Ids(r'.grants), after, before));
  }

  predicate UniqueIds(registry: CapabilityRegistry) {
    forall i, j :: 0 <= i < j < |registry.grants| ==> registry.grants[i].grantId != registry.grants[j].grantId
  }

  /** Without repeated ids the grant map has exactly the grants. */
  lemma {:induction false} UniqueMapHasAll(grants: seq<CapabilityGrant>)
    requires forall i, j :: 0 <= i < j < |grants| ==> grants[i].grantId != grants[j].grantId
    ensures forall g :: g in grants <==> g.grantId in GrantMap(grants) && GrantMap(grants)[g.grantId] == g
  {
    if |grants| > 0 {
      var init, last := grants[..|grants| - 1], grants[|grants| - 1];
      UniqueMapHasAll(init);
      assert grants == init + [last];
      forall g | g in init
        ensures g.grantId != last.grantId
      {
        var i :| 0 <= i < |init| && init[i] == g;
        assert grants[i].grantId != grants[|grants| - 1].grantId;
      }
    }
  }

  /** For registries without repeated ids, an empty delta means the same verdict on every request. */
  lemma EmptyDeltaSameVerdict(glob: Glob, request: ActionRequest, baseline: CapabilityRegistry,
                              proposed: CapabilityRegistry)
    requires UniqueIds(baseline) && UniqueIds(proposed)
    requires !HasAuthorityChange(DiffRegistries(baseline, proposed))
    ensures Evaluate(glob, request, baseline).verdict == Evaluate(glob, request, proposed).verdict
  {
    hide DiffRegistries, GrantMap, Evaluate;
    DeltaApplies(baseline, proposed);
    UniqueMapHasAll(baseline.grants);
    UniqueMapHasAll(proposed.grants);
    assert GrantMap(baseline.grants) == GrantMap(proposed.grants);
    VerdictIgnoresOrder(glob, request, baseline, proposed);
  }

  /** For registries without repeated ids and no possible expansion, when only grants that ALLOW are removed, no
      verdict becomes looser. */
  lemma RemovingAllowsNeverLoosens(glob: Glob, request: ActionRequest, baseline: CapabilityRegistry,
                                   proposed: CapabilityRegistry)
    requires UniqueIds(baseline) && UniqueIds(proposed)
    requires !HasPossibleAuthorityExpansion(DiffRegistries(baseline, proposed))
    requires forall g :: g in baseline.grants && g.grantId in DiffRegistries(baseline, proposed).removed ==>
      g.effect == AllowEffect
    ensures Severity(Evaluate(glob, request, baseline).verdict) <= Severity(Evaluate(glob, request, proposed).verdict)
  {
    hide DiffRegistries, GrantMap, Evaluate;
    DiffPartitions(baseline, proposed);
    UniqueMapHasAll(baseline.grants);
    UniqueMapHasAll(proposed.grants);
    VerdictIsJoin(glob, request, baseline);
    VerdictIsJoin(glob, request, proposed);
    forall g | g in proposed.grants
      ensures g in baseline.grants
    {
      assert g.grantId !in DiffRegistries(baseline, proposed).added;
      assert g.grantId !in DiffRegistries(baseline, proposed).changed;
    }
    forall g | g in baseline.grants && g.effect != AllowEffect
      ensures g in proposed.grants
    {
      assert g.grantId !in DiffRegistries(baseline, proposed).removed;
    }
  }

  // ----- What the flags promise, exactly --------------------------------------------------------

  /** The verdict on the request is looser under the second registry. */
  predicate Looser(glob: Glob, request: ActionRequest, baseline: CapabilityRegistry, proposed: CapabilityRegistry) {
    Severity(Evaluate(glob, request, proposed).verdict) < Severity(Evaluate(glob, request, baseline).verdict)
  }

  /** A later grant of the same id hides this one from the difference. */
  predicate Shadowed(registry: CapabilityRegistry, grant: CapabilityGrant) {
    grant in registry.grants && GrantMap(registry.grants)[grant.grantId] != grant
  }

  /** For registries without repeated ids and no possible expansion, a request is decided more loosely exactly when a
      grant that was dropped outranks all that still match it, and some do. */
  lemma UnflaggedLooserIff(glob: Glob, request: ActionRequest, baseline: CapabilityRegistry,
                           proposed: CapabilityRegistry)
    requires UniqueIds(baseline) && UniqueIds(proposed)
    requires !HasPossibleAuthorityExpansion(DiffRegistries(baseline, proposed))
    ensures Looser(glob, request, baseline, proposed) <==>
      && !Protected(request.capability) && SomeMatch(glob, request, proposed.grants)
      && exists g :: g in baseline.grants && g !in proposed.grants && Outranks(glob, request, g, proposed.grants)
  {
    hide DiffRegistries, GrantMap, Evaluate, Matches, Protected;
    DiffPartitions(baseline, proposed);
    UniqueMapHasAll(baseline.grants);
    UniqueMapHasAll(proposed.grants);
    forall g | g in proposed.grants
      ensures g in baseline.grants
    {
      assert g.grantId !in DiffRegistries(baseline, proposed).added;
      assert g.grantId !in DiffRegistries(baseline, proposed).changed;
    }
    LooserIff(glob, request, baseline, proposed);
    assert forall g :: g in proposed.grants ==> !Outranks(glob, request, g, proposed.grants);
  }

  /** Whether or not ids repeat, when nothing is reported changed a request is decided more loosely exactly when a
      shadowed grant that was dropped outranks all that match it now, or none matched it before and none denies it now;
      and some do match. */
  lemma UnchangedLooserIff(glob: Glob, request: ActionRequest, baseline: CapabilityRegistry,
                           proposed: CapabilityRegistry)
    requires !HasAuthorityChange(DiffRegistries(baseline, proposed))
    ensures Looser(glob, request, baseline, proposed) <==>
      && !Protected(request.capability) && SomeMatch(glob, request, proposed.grants)
      && if SomeMatch(glob, request, baseline.grants) then
           exists g :: Shadowed(baseline, g) && g !in proposed.grants && Outranks(glob, request, g, proposed.grants)
         else forall g :: g in proposed.grants && Matches(glob, g, request) ==> g.effect != DenyEffect
  {
    hide DiffRegistries, Evaluate, Matches, Protected;
    DeltaApplies(baseline, proposed);
    assert GrantMap(baseline.grants) == GrantMap(proposed.grants);
    hide GrantMap;
    LooserIff(glob, request, baseline, proposed);
    assert forall g :: g in proposed.grants ==> !Outranks(glob, request, g, proposed.grants);
  }

  /** A repeated id hides a change: dropping the DENY in front of an ALLOW of the same id leaves an empty delta, and
      turns the verdict of every request that both match from DENY to ALLOW. */
  lemma RepeatedIdHidesChange(glob: Glob, request: ActionRequest, registry: CapabilityRegistry, deny: CapabilityGrant,
                              allow: CapabilityGrant)
    requires !Protected(request.capability) && Matches(glob, deny, request) && Matches(glob, allow, request)
    requires deny.effect == DenyEffect && allow.effect == AllowEffect && deny.grantId == allow.grantId
    ensures var baseline, proposed := registry.(grants := [deny, allow]), registry.(grants := [allow]);
      && !HasAuthorityChange(DiffRegistries(baseline, proposed)) && Looser(glob, request, baseline, proposed)
      && Evaluate(glob, request, baseline).verdict == DENY
      && Evaluate(glob, request, proposed).verdict == ALLOW
  {
    hide DiffRegistries, Evaluate, Matches;
    var baseline, proposed := registry.(grants := [deny, allow]), registry.(grants := [allow]);
    assert [deny, allow][..1] == [deny] && [deny][..0] == [] && [allow][..0] == [];
    assert GrantMap(baseline.grants) == GrantMap(proposed.grants);
    DiffPartitions(baseline, proposed);
    NoneMeansEmpty(DiffRegistries(baseline, proposed).added);
    NoneMeansEmpty(DiffRegistries(baseline, proposed).removed);
    NoneMeansEmpty(DiffRegistries(baseline, proposed).changed);
    VerdictIsJoin(glob, request, baseline);
    VerdictIsJoin(glob, request, proposed);
    assert deny in baseline.grants && allow in proposed.grants;
  }

  lemma NoneMeansEmpty(ids: seq<string>)
    ensures ids == [] <==> forall id :: id !in ids
  {
    assert ids != [] ==> ids[0] in ids;
  }

  /** Removing a DENY is no possible expansion by the flag, yet it turns DENY into ALLOW. */
  lemma RemovedDenyLoosens(glob: Glob, request: ActionRequest, registry: CapabilityRegistry, deny: CapabilityGrant,
                           allow: CapabilityGrant)
    requires !Protected(request.capability) && Matches(glob, deny, request) && Matches(glob, allow, request)
    requires deny.effect == DenyEffect && allow.effect == AllowEffect && deny.grantId != allow.grantId
    ensures var baseline, proposed := registry.(grants := [deny, allow]), registry.(grants := [allow]);
      && !HasPossibleAuthorityExpansion(DiffRegistries(baseline, proposed)) && Looser(glob, request, baseline, proposed)
      && Evaluate(glob, request, baseline).verdict == DENY
      && Evaluate(glob, request, proposed).verdict == ALLOW
  {
    hide DiffRegistries, Evaluate, Matches;
    var baseline, proposed := registry.(grants := [deny, allow]), registry.(grants := [allow]);
    UniqueMapHasAll(baseline.grants);
    UniqueMapHasAll(proposed.grants);
    assert deny in baseline.grants && allow in baseline.grants;
    DiffPartitions(baseline, proposed);
    NoneMeansEmpty(DiffRegistries(baseline, proposed).added);
    NoneMeansEmpty(DiffRegistries(baseline, proposed).changed);
    VerdictIsJoin(glob, request, baseline);
    VerdictIsJoin(glob, request, proposed);
    assert deny in baseline.grants && allow in proposed.grants;
  }
}
