/** The capability gate: which grants match a request, and the verdict they give together. */
module Gate {
  import opened Records

  /** `fnmatchcase(text, pattern)`, whatever it accepts. */
  type Glob = (string, string) -> bool

  /** Capabilities of the control plane, which no agent may address. */
  predicate Protected(capability: string) {
    || "runtime.permission." <= capability || "runtime.registry." <= capability
    || "runtime.gate." <= capability || "runtime.policy." <= capability
  }

  predicate MatchesAny(glob: Glob, text: string, patterns: seq<string>) {
    exists i :: 0 <= i < |patterns| && glob(text, patterns[i])
  }

  predicate Matches(glob: Glob, grant: CapabilityGrant, request: ActionRequest) {
    && glob(request.capability, grant.capability)
    && MatchesAny(glob, request.action, grant.actions)
    && MatchesAny(glob, request.resource, grant.resources)
  }

  /** A grant matches when its patterns fit the capability, for one of its actions and one of its resources. */
  lemma MatchesIff(glob: Glob, grant: CapabilityGrant, request: ActionRequest)
    ensures Matches(glob, grant, request) <==>
      && glob(request.capability, grant.capability)
      && (exists action :: action in grant.actions && glob(request.action, action))
      && (exists resource :: resource in grant.resources && glob(request.resource, resource))
  {
    AnyIff(glob, request.action, grant.actions);
    AnyIff(glob, request.resource, grant.resources);
    hide MatchesAny;
  }

  lemma AnyIff(glob: Glob, text: string, patterns: seq<string>)
    ensures MatchesAny(glob, text, patterns) <==> exists p :: p in patterns && glob(text, p)
  {
    if p :| p in patterns && glob(text, p) {
      var i :| 0 <= i < |patterns| && patterns[i] == p;
      assert glob(text, patterns[i]);
    }
  }

  predicate StartsWith(text: string, prefix: string) {
    |prefix| <= |text| && text[..|prefix|] == prefix
  }

  /** The control plane is what lies under four prefixes, and no grant opens it. */
  lemma ProtectedIff(glob: Glob, request: ActionRequest, registry: CapabilityRegistry)
    ensures Protected(request.capability) <==>
      exists prefix ::
        StartsWith(request.capability, prefix)
        && prefix in {"runtime.permission.", "runtime.registry.", "runtime.gate.", "runtime.policy."}
    ensures Protected(request.capability) ==>
      Evaluate(glob, request, registry) == GateDecision(DENY, ControlPlaneNotAddressable, [])
  {
    var c := request.capability;
    assert StartsWith(c, "runtime.permission.") <==> "runtime.permission." <= c;
    assert StartsWith(c, "runtime.registry.") <==> "runtime.registry." <= c;
    assert StartsWith(c, "runtime.gate.") <==> "runtime.gate." <= c;
    assert StartsWith(c, "runtime.policy.") <==> "runtime.policy." <= c;
  }

  function Matching(glob: Glob, request: ActionRequest, grants: seq<CapabilityGrant>): seq<CapabilityGrant> {
    if |grants| == 0 then []
    else (if Matches(glob, grants[0], request) then [grants[0]] else []) + Matching(glob, request, grants[1..])
  }

  function IdsWith(effect: Effect, grants: seq<CapabilityGrant>): seq<string> {
    if |grants| == 0 then []
    else (if grants[0].effect == effect then [grants[0].grantId] else []) + IdsWith(effect, grants[1..])
  }

  function Evaluate(glob: Glob, request: ActionRequest, registry: CapabilityRegistry): GateDecision {
    if Protected(request.capability) then
      GateDecision(DENY, ControlPlaneNotAddressable, [])
    else
      var matches := Matching(glob, request, registry.grants);
      if matches == [] then GateDecision(DENY, NoMatchingGrant, [])
      else
        var denies := IdsWith(DenyEffect, matches);
        if denies != [] then GateDecision(DENY, ExplicitDenyPrecedence, denies)
        else
          var reviews := IdsWith(ReviewEffect, matches);
          if reviews != [] then GateDecision(REVIEW, HumanReviewRequired, reviews)
          else
            var allows := IdsWith(AllowEffect, matches);
            if allows != [] then GateDecision(ALLOW, ExplicitGrant, allows)
            else GateDecision(DENY, NoEffectiveGrant, [])
  }

  // ----- The verdict as a join ------------------------------------------------------------------

  /** Some matching grant carries the effect. */
  ghost predicate Asserted(glob: Glob, request: ActionRequest, grants: seq<CapabilityGrant>, effect: Effect) {
    exists g :: g in grants && Matches(glob, g, request) && g.effect == effect
  }

  /** The most severe effect asserted, DENY > REVIEW > ALLOW; DENY when nothing is. */
  ghost function Join(glob: Glob, request: ActionRequest, grants: seq<CapabilityGrant>): Verdict {
    if Protected(request.capability) || Asserted(glob, request, grants, DenyEffect) then DENY
    else if Asserted(glob, request, grants, ReviewEffect) then REVIEW
    else if Asserted(glob, request, grants, AllowEffect) then ALLOW
    else DENY
  }

  function Severity(verdict: Verdict): nat {
    match verdict
    case ALLOW => 0
    case REVIEW => 1
    case _ => 2
  }

  lemma {:induction false} MatchingMembers(glob: Glob, request: ActionRequest, grants: seq<CapabilityGrant>)
    ensures forall g :: g in Matching(glob, request, grants) <==> g in grants && Matches(glob, g, request)
  {
    if |grants| > 0 {
      MatchingMembers(glob, request, grants[1..]);
      assert grants == [grants[0]] + grants[1..];
    }
  }

  lemma {:induction false} IdsWithEmpty(effect: Effect, grants: seq<CapabilityGrant>)
    ensures IdsWith(effect, grants) == [] <==> forall g :: g in grants ==> g.effect != effect
  {
    if |grants| > 0 {
      IdsWithEmpty(effect, grants[1..]);
      assert grants == [grants[0]] + grants[1..];
    }
  }

  /** The verdict is the join of the matching effects. */
  lemma VerdictIsJoin(glob: Glob, request: ActionRequest, registry: CapabilityRegistry)
    ensures Evaluate(glob, request, registry).verdict == Join(glob, request, registry.grants)
  {
    var matches := Matching(glob, request, registry.grants);
    MatchingMembers(glob, request, registry.grants);
    IdsWithEmpty(DenyEffect, matches);
    IdsWithEmpty(ReviewEffect, matches);
    IdsWithEmpty(AllowEffect, matches);
  }

  /** Neither the order nor the number of copies of the grants matters to the verdict. */
  lemma VerdictIgnoresOrder(glob: Glob, request: ActionRequest, r1: CapabilityRegistry, r2: CapabilityRegistry)
    requires forall g :: g in r1.grants <==> g in r2.grants
    ensures Evaluate(glob, request, r1).verdict == Evaluate(glob, request, r2).verdict
  {
    VerdictIsJoin(glob, request, r1);
    VerdictIsJoin(glob, request, r2);
  }

  /** Once some grant matches, further grants never loosen the verdict. */
  lemma MoreGrantsNeverLoosen(glob: Glob, request: ActionRequest, r1: CapabilityRegistry, r2: CapabilityRegistry)
    requires forall g :: g in r1.grants ==> g in r2.grants
    requires exists g :: g in r1.grants && Matches(glob, g, request)
    ensures Severity(Evaluate(glob, request, r1).verdict) <= Severity(Evaluate(glob, request, r2).verdict)
  {
    VerdictIsJoin(glob, request, r1);
    VerdictIsJoin(glob, request, r2);
    var g :| g in r1.grants && Matches(glob, g, request);
    assert Asserted(glob, request, r1.grants, g.effect);
    assert forall e :: Asserted(glob, request, r1.grants, e) ==> Asserted(glob, request, r2.grants, e);
  }

  function Weight(effect: Effect): nat {
    match effect
    case AllowEffect => 0
    case ReviewEffect => 1
    case DenyEffect => 2
  }

  ghost predicate SomeMatch(glob: Glob, request: ActionRequest, grants: seq<CapabilityGrant>) {
    exists g :: g in grants && Matches(glob, g, request)
  }

  /** The grant matches, and weighs more than every one of the others that matches. */
  ghost predicate Outranks(glob: Glob, request: ActionRequest, grant: CapabilityGrant, others: seq<CapabilityGrant>) {
    && Matches(glob, grant, request)
    && forall g :: g in others && Matches(glob, g, request) ==> Weight(g.effect) < Weight(grant.effect)
  }

  /** The severity of the verdict is the weight of the heaviest grant that matches. */
  lemma SeverityIsWeight(glob: Glob, request: ActionRequest, registry: CapabilityRegistry, n: nat)
    requires !Protected(request.capability) && SomeMatch(glob, request, registry.grants)
    ensures Severity(Evaluate(glob, request, registry).verdict) <= n <==>
      forall g :: g in registry.grants && Matches(glob, g, request) ==> Weight(g.effect) <= n
  {
    hide Evaluate, Protected, Matches;
    VerdictIsJoin(glob, request, registry);
    var g :| g in registry.grants && Matches(glob, g, request);
    assert Asserted(glob, request, registry.grants, g.effect);
  }

  /** The second registry is looser on the request than the first exactly when some of its grants match and either a
      grant of the first outranks them all, or the first has no match and no match of the second denies. */
  lemma LooserIff(glob: Glob, request: ActionRequest, r1: CapabilityRegistry, r2: CapabilityRegistry)
    ensures Severity(Evaluate(glob, request, r2).verdict) < Severity(Evaluate(glob, request, r1).verdict) <==>
      && !Protected(request.capability) && SomeMatch(glob, request, r2.grants)
      && if SomeMatch(glob, request, r1.grants) then
           exists g :: g in r1.grants && Outranks(glob, request, g, r2.grants)
         else forall g :: g in r2.grants && Matches(glob, g, request) ==> g.effect != DenyEffect
  {
    hide Evaluate, Protected, Matches;
    VerdictIsJoin(glob, request, r1);
    VerdictIsJoin(glob, request, r2);
    if !Protected(request.capability) && SomeMatch(glob, request, r2.grants) {
      var s2 := Severity(Evaluate(glob, request, r2).verdict);
      SeverityIsWeight(glob, request, r2, s2);
      SeverityIsWeight(glob, request, r2, 1);
      if SomeMatch(glob, request, r1.grants) {
        SeverityIsWeight(glob, request, r1, s2);
        forall g | g in r1.grants && Matches(glob, g, request)
          ensures Outranks(glob, request, g, r2.grants) <==> s2 < Weight(g.effect)
        {
          if Weight(g.effect) > 0 {
            SeverityIsWeight(glob, request, r2, Weight(g.effect) - 1);
          }
        }
      }
    }
  }

  /** The reason names the rule that decided; `no_effective_grant` is never given. */
  lemma ReasonIff(glob: Glob, request: ActionRequest, registry: CapabilityRegistry)
    ensures var d := Evaluate(glob, request, registry);
      && (d.reason == ControlPlaneNotAddressable <==> Protected(request.capability))
      && (d.reason == NoMatchingGrant <==>
            !Protected(request.capability) && forall g :: g in registry.grants ==> !Matches(glob, g, request))
      && (d.reason == ExplicitDenyPrecedence <==>
            !Protected(request.capability) && Asserted(glob, request, registry.grants, DenyEffect))
      && (d.reason == HumanReviewRequired <==> d.verdict == REVIEW)
      && (d.reason == ExplicitGrant <==> d.verdict == ALLOW)
      && d.reason != NoEffectiveGrant
  {
    var matches := Matching(glob, request, registry.grants);
    MatchingMembers(glob, request, registry.grants);
    IdsWithEmpty(DenyEffect, matches);
    IdsWithEmpty(ReviewEffect, matches);
    IdsWithEmpty(AllowEffect, matches);
    assert matches != [] ==> matches[0] in matches;
    assert Asserted(glob, request, registry.grants, DenyEffect) ==> matches != [];
  }

  function WinningEffect(verdict: Verdict): Effect {
    match verdict
    case ALLOW => AllowEffect
    case REVIEW => ReviewEffect
    case _ => DenyEffect
  }

  predicate Wins(glob: Glob, request: ActionRequest, verdict: Verdict, grant: CapabilityGrant) {
    Matches(glob, grant, request) && grant.effect == WinningEffect(verdict)
  }

  /** How many of the grants win. */
  function Winners(glob: Glob, request: ActionRequest, verdict: Verdict, grants: seq<CapabilityGrant>): nat {
    if |grants| == 0 then 0
    else (if Wins(glob, request, verdict, grants[0]) then 1 else 0) + Winners(glob, request, verdict, grants[1..])
  }

  lemma IdsWithConcat(effect: Effect, grant: CapabilityGrant, grants: seq<CapabilityGrant>)
    ensures IdsWith(effect, [grant] + grants)
         == (if grant.effect == effect then [grant.grantId] else []) + IdsWith(effect, grants)
  {
    assert ([grant] + grants)[1..] == grants;
  }

  /** The ids that the gate reports for one effect. */
  function WinnerIds(glob: Glob, request: ActionRequest, verdict: Verdict, grants: seq<CapabilityGrant>): seq<string> {
    IdsWith(WinningEffect(verdict), Matching(glob, request, grants))
  }

  lemma WinnerIdsStep(glob: Glob, request: ActionRequest, verdict: Verdict, grants: seq<CapabilityGrant>)
    requires |grants| > 0
    ensures WinnerIds(glob, request, verdict, grants)
         == (if Wins(glob, request, verdict, grants[0]) then [grants[0].grantId] else [])
            + WinnerIds(glob, request, verdict, grants[1..])
  {
    var tail := Matching(glob, request, grants[1..]);
    IdsWithConcat(WinningEffect(verdict), grants[0], tail);
    if !Matches(glob, grants[0], request) {
      assert Matching(glob, request, grants) == tail;
    }
  }

  lemma {:induction false} WinnerCount(glob: Glob, request: ActionRequest, verdict: Verdict,
                                       grants: seq<CapabilityGrant>)
    ensures |WinnerIds(glob, request, verdict, grants)| == Winners(glob, request, verdict, grants)
  {
    if |grants| > 0 {
      WinnerIdsStep(glob, request, verdict, grants);
      WinnerCount(glob, request, verdict, grants[1..]);
    }
  }

  lemma {:induction false} WinnerAt(glob: Glob, request: ActionRequest, verdict: Verdict, grants: seq<CapabilityGrant>,
                                    i: nat)
    requires i < |grants| && Wins(glob, request, verdict, grants[i])
    ensures var k := Winners(glob, request, verdict, grants[..i]);
      var ids := WinnerIds(glob, request, verdict, grants);
      k < |ids| && ids[k] == grants[i].grantId
  {
    WinnerIdsStep(glob, request, verdict, grants);
    if i > 0 {
      WinnerAt(glob, request, verdict, grants[1..], i - 1);
      assert grants[..i][1..] == grants[1..][..i - 1];
    }
  }

  /** The reported ids are those of the winning grants, in registry order: the grant at position `i` is reported
      at the place that counts the winners before it, and there are no other ids. */
  lemma MatchedIdsAreTheWinners(glob: Glob, request: ActionRequest, registry: CapabilityRegistry)
    ensures var d := Evaluate(glob, request, registry);
      if Protected(request.capability) then d.matchedGrantIds == []
      else
        && |d.matchedGrantIds| == Winners(glob, request, d.verdict, registry.grants)
        && forall i :: 0 <= i < |registry.grants| && Wins(glob, request, d.verdict, registry.grants[i]) ==>
             var k := Winners(glob, request, d.verdict, registry.grants[..i]);
             k < |d.matchedGrantIds| && d.matchedGrantIds[k] == registry.grants[i].grantId
  {
    var d := Evaluate(glob, request, registry);
    if Protected(request.capability) {
      return;
    }
    var matches := Matching(glob, request, registry.grants);
    IdsWithEmpty(DenyEffect, matches);
    IdsWithEmpty(ReviewEffect, matches);
    IdsWithEmpty(AllowEffect, matches);
    assert d.matchedGrantIds == WinnerIds(glob, request, d.verdict, registry.grants);
    WinnerCount(glob, request, d.verdict, registry.grants);
    forall i | 0 <= i < |registry.grants| && Wins(glob, request, d.verdict, registry.grants[i])
      ensures var k := Winners(glob, request, d.verdict, registry.grants[..i]);
        k < |d.matchedGrantIds| && d.matchedGrantIds[k] == registry.grants[i].grantId
    {
      WinnerAt(glob, request, d.verdict, registry.grants, i);
    }
  }
}
