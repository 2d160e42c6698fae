/** The pure planner: a goal, a standing arrangement and an explicit naming become a dispatch decision. */
module Routing {
  import opened Options

  datatype Agent = Codex | DeepseekTui

  datatype Profile = Profile(agent: Agent, strengths: seq<string>)

  /** The standing arrangement as the planner reads it (absent lists and flags are empty and false). */
  datatype Arrangement = Arrangement(
    profiles: seq<Profile>, unavailable: seq<Agent>, singleCoder: bool, preferLead: Option<Agent>)

  /** The pattern tests on goals and clauses. */
  datatype Lexicon = Lexicon(
    mentionsDeepseek: string -> bool, mentionsCodex: string -> bool,
    review: string -> bool, trivial: string -> bool, assigns: string -> bool,
    off: string -> bool, on: string -> bool, lead: string -> bool,
    singleOff: string -> bool, singleOn: string -> bool,
    split: string -> seq<string>)

  datatype RouteKind = PlanThenImplement | DirectFix | ReviewOnly

  datatype RoutePlan = RoutePlan(agents: seq<Agent>, kind: RouteKind, solo: bool)

  /** The coders a text names, lead first. */
  function AgentsIn(lex: Lexicon, text: string): (r: seq<Agent>)
    ensures forall i, j :: 0 <= i < j < |r| ==> r[i] != r[j]
  {
    (if lex.mentionsDeepseek(text) then [DeepseekTui] else []) + (if lex.mentionsCodex(text) then [Codex] else [])
  }

  /** Who is named is who the text mentions; both are in roster order. */
  lemma NamedIsMentioned(lex: Lexicon, text: string)
    ensures DeepseekTui in AgentsIn(lex, text) <==> lex.mentionsDeepseek(text)
    ensures Codex in AgentsIn(lex, text) <==> lex.mentionsCodex(text)
    ensures lex.mentionsDeepseek(text) && lex.mentionsCodex(text) ==> AgentsIn(lex, text) == [DeepseekTui, Codex]
    ensures !lex.mentionsDeepseek(text) && !lex.mentionsCodex(text) <==> AgentsIn(lex, text) == []
  {}

  /** The text mentions the coder. */
  predicate Mentions(lex: Lexicon, text: string, a: Agent) {
    match a case Codex => lex.mentionsCodex(text) case DeepseekTui => lex.mentionsDeepseek(text)
  }

  lemma NamedMentions(lex: Lexicon, text: string)
    ensures forall a :: a in AgentsIn(lex, text) <==> Mentions(lex, text, a)
    ensures AgentsIn(lex, text) != [] ==>
              AgentsIn(lex, text)[0] == if lex.mentionsDeepseek(text) then DeepseekTui else Codex
  {}

  /** The coders a goal assigns itself to; empty when it names none or assigns nothing. */
  function ExplicitAssignment(lex: Lexicon, goal: string): (r: seq<Agent>)
    ensures forall i, j :: 0 <= i < j < |r| ==> r[i] != r[j]
  {
    if lex.assigns(goal) then AgentsIn(lex, goal) else []
  }

  const ReviewerTags := ["review", "analysis"]
  const LeadTags := ["design", "analysis", "review"]
  const ImplementerTags := ["implement", "quick-fix", "scaffold", "single-file"]

  predicate Qualifies(p: Profile, wanted: seq<string>) {
    exists i :: 0 <= i < |p.strengths| && p.strengths[i] in wanted
  }

  function Without(agents: seq<Agent>, off: seq<Agent>): (r: seq<Agent>)
    ensures forall a :: a in r <==> a in agents && a !in off
    ensures (forall i, j :: 0 <= i < j < |agents| ==> agents[i] != agents[j]) ==>
            (forall i, j :: 0 <= i < j < |r| ==> r[i] != r[j])
    ensures |r| <= |agents|
  {
    if agents == [] then []
    else (if agents[0] in off then [] else [agents[0]]) + Without(agents[1..], off)
  }

  /** The profiles of the coders that are not off-call. */
  function Available(profiles: seq<Profile>, off: seq<Agent>): (r: seq<Profile>)
    ensures forall p :: p in r <==> p in profiles && p.agent !in off
  {
    if profiles == [] then []
    else (if profiles[0].agent in off then [] else [profiles[0]]) + Available(profiles[1..], off)
  }

  function FirstQualified(ps: seq<Profile>, wanted: seq<string>): (r: Option<Agent>)
    ensures r.None? <==> forall p :: p in ps ==> !Qualifies(p, wanted)
    ensures r.Some? ==> exists p :: p in ps && p.agent == r.value && Qualifies(p, wanted)
  {
    if ps == [] then None
    else if Qualifies(ps[0], wanted) then Some(ps[0].agent)
    else FirstQualified(ps[1..], wanted)
  }

  /** A qualified coder if there is one, the preferred one if it qualifies, anyone on call otherwise. */
  function Pick(ps: seq<Profile>, wanted: seq<string>, prefer: Option<Agent>): (a: Agent)
    requires ps != []
    ensures exists p :: p in ps && p.agent == a
    ensures (exists p :: p in ps && Qualifies(p, wanted)) ==>
              exists p :: p in ps && p.agent == a && Qualifies(p, wanted)
    ensures prefer.Some? && (exists p :: p in ps && p.agent == prefer.value && Qualifies(p, wanted)) ==>
              a == prefer.value
  {
    if prefer.Some? && (exists p :: p in ps && p.agent == prefer.value && Qualifies(p, wanted)) then prefer.value
    else
      match FirstQualified(ps, wanted)
      case Some(a) => a
      case None => assert ps[0] in ps; ps[0].agent
  }

  function PlanRoute(lex: Lexicon, goal: string, policy: Arrangement, named: seq<Agent>): RoutePlan {
    var reviewOnly := lex.review(goal);
    var trivial := !reviewOnly && lex.trivial(goal);
    var usable := Without(named, policy.unavailable);
    if usable != [] then
      var kind := if reviewOnly then ReviewOnly else if |usable| == 1 then DirectFix else PlanThenImplement;
      RoutePlan(usable, kind, |usable| == 1 && kind != ReviewOnly)
    else
      var available := Available(policy.profiles, policy.unavailable);
      if available == [] then RoutePlan([], ReviewOnly, false)
      else if reviewOnly then RoutePlan([Pick(available, ReviewerTags, policy.preferLead)], ReviewOnly, false)
      else if trivial then RoutePlan([Pick(available, ImplementerTags, None)], DirectFix, false)
      else
        var lead := Pick(available, LeadTags, policy.preferLead);
        var pool := Available(available, [lead]);
        var impl := if pool != [] then Pick(pool, ImplementerTags, None) else lead;
        if policy.singleCoder || impl == lead then RoutePlan([lead], PlanThenImplement, true)
        else RoutePlan([lead, impl], PlanThenImplement, false)
  }

  predicate NoRepeats(s: seq<Agent>) {
    forall i, j :: 0 <= i < j < |s| ==> s[i] != s[j]
  }

  /** A coder that could take a task: named for it, or on the roster; and not off-call. */
  predicate Usable(policy: Arrangement, named: seq<Agent>, a: Agent) {
    && a !in policy.unavailable
    && (a in named || exists p :: p in policy.profiles && p.agent == a)
  }

  /**
   * Whatever the goal, roster, arrangement and naming: nobody is dispatched twice, nobody
   * off-call is dispatched, and nobody at all exactly if no usable coder exists.
   */
  lemma PlanIsSound(lex: Lexicon, goal: string, policy: Arrangement, named: seq<Agent>)
    requires NoRepeats(named)
    ensures var plan := PlanRoute(lex, goal, policy, named);
            && NoRepeats(plan.agents)
            && (forall a :: a in plan.agents ==> Usable(policy, named, a))
            && (plan.agents == [] <==> forall a :: !Usable(policy, named, a))
            && (plan.solo ==> |plan.agents| == 1)
            && (|plan.agents| == 2 ==> plan.kind != DirectFix)
  {
    var plan := PlanRoute(lex, goal, policy, named);
    var usable := Without(named, policy.unavailable);
    var available := Available(policy.profiles, policy.unavailable);
    if usable != [] {
      assert Usable(policy, named, usable[0]);
    } else if available != [] {
      assert Usable(policy, named, available[0].agent);
    }
    forall a | Usable(policy, named, a) ensures plan.agents != [] {
      UsableIsSeen(policy, named, a);
    }
  }

  lemma UsableIsSeen(policy: Arrangement, named: seq<Agent>, a: Agent)
    requires Usable(policy, named, a)
    ensures Without(named, policy.unavailable) != [] || Available(policy.profiles, policy.unavailable) != []
  {
    if a in named {
      assert a in Without(named, policy.unavailable);
    } else {
      var p :| p in policy.profiles && p.agent == a;
      assert p in Available(policy.profiles, policy.unavailable);
    }
  }

  // --- which coder a role goes to -----------------------------------------------------------

  ghost predicate OnCall(ps: seq<Profile>, off: seq<Agent>, i: nat) { i < |ps| && ps[i].agent !in off }

  /** The coder on call with the earliest profile on the roster that satisfies the test. */
  ghost predicate IsFirst(ps: seq<Profile>, off: seq<Agent>, test: Profile -> bool, a: Agent) {
    exists i: nat :: OnCall(ps, off, i) && ps[i].agent == a && test(ps[i])
                     && forall j: nat :: j < i && OnCall(ps, off, j) ==> !test(ps[j])
  }

  ghost predicate Has(ps: seq<Profile>, off: seq<Agent>, test: Profile -> bool) {
    exists i: nat :: OnCall(ps, off, i) && test(ps[i])
  }

  /** A profile that lists one of the wanted strengths. */
  ghost function Strong(wanted: seq<string>): Profile -> bool {
    (p: Profile) => exists s :: s in p.strengths && s in wanted
  }

  ghost function StrongOf(wanted: seq<string>, a: Agent): Profile -> bool {
    (p: Profile) => p.agent == a && exists s :: s in p.strengths && s in wanted
  }

  ghost function Any(): Profile -> bool { (p: Profile) => true }

  /**
   * Who takes a role, among the coders on call: the preferred one if a profile of it is strong
   * enough, else the first strong one on the roster, else the first one.
   */
  ghost predicate TakesRole(ps: seq<Profile>, off: seq<Agent>, wanted: seq<string>, prefer: Option<Agent>, a: Agent) {
    if prefer.Some? && Has(ps, off, StrongOf(wanted, prefer.value)) then a == prefer.value
    else if Has(ps, off, Strong(wanted)) then IsFirst(ps, off, Strong(wanted), a)
    else IsFirst(ps, off, Any(), a)
  }

  lemma StrongIs(p: Profile, wanted: seq<string>)
    ensures Qualifies(p, wanted) <==> Strong(wanted)(p)
  {
    if Qualifies(p, wanted) {
      var i :| 0 <= i < |p.strengths| && p.strengths[i] in wanted;
      assert p.strengths[i] in p.strengths;
    }
  }

  lemma {:induction false} FirstAvailable(ps: seq<Profile>, off: seq<Agent>)
    requires Available(ps, off) != []
    ensures IsFirst(ps, off, Any(), Available(ps, off)[0].agent)
  {
    if ps[0].agent in off {
      FirstAvailable(ps[1..], off);
      FirstBehind(ps, off, Any(), Available(ps, off)[0].agent);
    } else {
      assert OnCall(ps, off, 0);
    }
  }

  /** Behind a profile that does not count, the first one is the first one. */
  lemma FirstBehind(ps: seq<Profile>, off: seq<Agent>, test: Profile -> bool, a: Agent)
    requires ps != [] && (ps[0].agent in off || !test(ps[0])) && IsFirst(ps[1..], off, test, a)
    ensures IsFirst(ps, off, test, a)
  {
    var rest := ps[1..];
    var i: nat :| OnCall(rest, off, i) && rest[i].agent == a && test(rest[i])
                  && forall j: nat :: j < i && OnCall(rest, off, j) ==> !test(rest[j]);
    assert OnCall(ps, off, i + 1) && ps[i + 1] == rest[i];
    forall j: nat | j < i + 1 && OnCall(ps, off, j) ensures !test(ps[j]) {
      if j > 0 { assert OnCall(rest, off, j - 1) && ps[j] == rest[j - 1]; }
    }
  }

  lemma {:induction false} FirstStrong(ps: seq<Profile>, off: seq<Agent>, wanted: seq<string>)
    ensures var found := FirstQualified(Available(ps, off), wanted);
            if Has(ps, off, Strong(wanted)) then found.Some? && IsFirst(ps, off, Strong(wanted), found.value)
            else found.None?
  {
    if ps != [] {
      var rest := ps[1..];
      var head := if ps[0].agent in off then [] else [ps[0]];
      FirstStrong(rest, off, wanted);
      StrongIs(ps[0], wanted);
      assert head != [] ==> (head + Available(rest, off))[1..] == Available(rest, off);
      assert head == [] ==> head + Available(rest, off) == Available(rest, off);
      if ps[0].agent !in off && Qualifies(ps[0], wanted) {
        assert OnCall(ps, off, 0);
      } else {
        HasBehind(ps, off, Strong(wanted));
        if Has(rest, off, Strong(wanted)) {
          FirstBehind(ps, off, Strong(wanted), FirstQualified(Available(rest, off), wanted).value);
        }
      }
    }
  }

  lemma HasBehind(ps: seq<Profile>, off: seq<Agent>, test: Profile -> bool)
    requires ps != [] && (ps[0].agent in off || !test(ps[0]))
    ensures Has(ps, off, test) <==> Has(ps[1..], off, test)
  {
    var rest := ps[1..];
    if Has(ps, off, test) {
      var i: nat :| OnCall(ps, off, i) && test(ps[i]);
      assert OnCall(rest, off, i - 1) && rest[i - 1] == ps[i];
    }
    if Has(rest, off, test) {
      var i: nat :| OnCall(rest, off, i) && test(rest[i]);
      assert OnCall(ps, off, i + 1) && ps[i + 1] == rest[i];
    }
  }

  lemma PreferredIsStrong(ps: seq<Profile>, off: seq<Agent>, wanted: seq<string>, a: Agent)
    ensures (exists p :: p in Available(ps, off) && p.agent == a && Qualifies(p, wanted)) <==>
              Has(ps, off, StrongOf(wanted, a))
  {
    if p :| p in Available(ps, off) && p.agent == a && Qualifies(p, wanted) {
      var i :| 0 <= i < |ps| && ps[i] == p;
      StrongIs(p, wanted);
      assert OnCall(ps, off, i) && StrongOf(wanted, a)(ps[i]);
    }
    if Has(ps, off, StrongOf(wanted, a)) {
      var i: nat :| OnCall(ps, off, i) && StrongOf(wanted, a)(ps[i]);
      StrongIs(ps[i], wanted);
      assert ps[i] in Available(ps, off);
    }
  }

  lemma PickTakes(ps: seq<Profile>, off: seq<Agent>, wanted: seq<string>, prefer: Option<Agent>)
    requires Available(ps, off) != []
    ensures TakesRole(ps, off, wanted, prefer, Pick(Available(ps, off), wanted, prefer))
  {
    FirstAvailable(ps, off);
    FirstStrong(ps, off, wanted);
    if prefer.Some? { PreferredIsStrong(ps, off, wanted, prefer.value); }
  }

  /** Some coder of the roster is on call. */
  ghost predicate Staffed(policy: Arrangement) { Has(policy.profiles, policy.unavailable, Any()) }

  lemma StaffedIsAvailable(policy: Arrangement)
    ensures Staffed(policy) <==> Available(policy.profiles, policy.unavailable) != []
  {
    var ps, off := policy.profiles, policy.unavailable;
    if Staffed(policy) {
      var i: nat :| OnCall(ps, off, i) && Any()(ps[i]);
      assert ps[i] in Available(ps, off);
    }
    if Available(ps, off) != [] {
      var p := Available(ps, off)[0];
      assert p in Available(ps, off);
      var i :| 0 <= i < |ps| && ps[i] == p;
      assert OnCall(ps, off, i) && Any()(ps[i]);
    }
  }

  /** Without a usable naming, a review or a trivial change goes to one coder, picked by strength. */
  lemma OneRoleIsFilled(lex: Lexicon, goal: string, policy: Arrangement, named: seq<Agent>)
    requires (forall a :: a in named ==> a in policy.unavailable) && Staffed(policy)
    requires lex.review(goal) || lex.trivial(goal)
    ensures var plan := PlanRoute(lex, goal, policy, named);
            var ps, off := policy.profiles, policy.unavailable;
            && |plan.agents| == 1 && !plan.solo
            && (if lex.review(goal)
                then plan.kind.ReviewOnly? &&
                     TakesRole(ps, off, ["review", "analysis"], policy.preferLead, plan.agents[0])
                else plan.kind.DirectFix? &&
                     TakesRole(ps, off, ["implement", "quick-fix", "scaffold", "single-file"], None, plan.agents[0]))
  {
    NothingUsable(named, policy.unavailable);
    StaffedIsAvailable(policy);
    if lex.review(goal) {
      PickTakes(policy.profiles, policy.unavailable, ReviewerTags, policy.preferLead);
    } else {
      PickTakes(policy.profiles, policy.unavailable, ImplementerTags, None);
    }
  }

  lemma NothingUsable(named: seq<Agent>, off: seq<Agent>)
    ensures Without(named, off) == [] <==> forall a :: a in named ==> a in off
  {
    if Without(named, off) != [] { assert Without(named, off)[0] in Without(named, off); }
  }

  /**
   * Any other goal goes to a lead and a different implementer, each picked by strength; to the
   * lead alone exactly if the budget allows one coder or nobody else is on call.
   */
  lemma TwoRolesAreFilled(lex: Lexicon, goal: string, policy: Arrangement, named: seq<Agent>)
    requires (forall a :: a in named ==> a in policy.unavailable) && Staffed(policy)
    requires !lex.review(goal) && !lex.trivial(goal)
    ensures var plan := PlanRoute(lex, goal, policy, named);
            var ps, off := policy.profiles, policy.unavailable;
            && plan.kind.PlanThenImplement? && plan.agents != []
            && TakesRole(ps, off, ["design", "analysis", "review"], policy.preferLead, plan.agents[0])
            && var others := off + [plan.agents[0]];
               && (plan.solo <==> policy.singleCoder || !Has(ps, others, Any()))
               && (if plan.solo then |plan.agents| == 1
                   else |plan.agents| == 2 &&
                        TakesRole(ps, others, ["implement", "quick-fix", "scaffold", "single-file"], None,
                                  plan.agents[1]))
  {
    var ps, off := policy.profiles, policy.unavailable;
    NothingUsable(named, off);
    StaffedIsAvailable(policy);
    PickTakes(ps, off, LeadTags, policy.preferLead);
    var lead := Pick(Available(ps, off), LeadTags, policy.preferLead);
    AvailableTwice(ps, off, lead);
    StaffedIsAvailable(policy.(unavailable := off + [lead]));
    var pool := Available(ps, off + [lead]);
    if pool != [] {
      PickTakes(ps, off + [lead], ImplementerTags, None);
      var impl := Pick(pool, ImplementerTags, None);
      var p :| p in pool && p.agent == impl;
      assert impl != lead;
    }
  }

  /** Naming coders that are all off-call is as good as naming none. */
  lemma UnusableNamingIsNone(lex: Lexicon, goal: string, policy: Arrangement, named: seq<Agent>)
    requires forall a :: a in named ==> a in policy.unavailable
    ensures PlanRoute(lex, goal, policy, named) == PlanRoute(lex, goal, policy, [])
  {
    NothingUsable(named, policy.unavailable);
  }

  /** A list of distinct coders is never longer than two. */
  lemma TwoCoders(agents: seq<Agent>)
    requires NoRepeats(agents)
    ensures |agents| <= 2
  {
    assert |agents| > 2 ==> agents[0] != agents[1] && agents[1] != agents[2] && agents[0] != agents[2];
  }

  /** Naming a coder on call decides the plan: exactly the named ones on call, in the order of naming. */
  lemma NamedArePlanned(lex: Lexicon, goal: string, policy: Arrangement, named: seq<Agent>)
    requires NoRepeats(named) && exists a :: a in named && a !in policy.unavailable
    ensures var plan := PlanRoute(lex, goal, policy, named);
            && (forall a :: a in plan.agents <==> a in named && a !in policy.unavailable)
            && (named == [DeepseekTui, Codex] && |plan.agents| == 2 ==> plan.agents == named)
            && NoRepeats(plan.agents) && 1 <= |plan.agents| <= 2
            && plan.kind == (if lex.review(goal) then ReviewOnly
                             else if |plan.agents| == 1 then DirectFix else PlanThenImplement)
            && (plan.solo <==> |plan.agents| == 1 && !lex.review(goal))
  {
    NothingUsable(named, policy.unavailable);
    var usable := Without(named, policy.unavailable);
    TwoCoders(usable);
    if named == [DeepseekTui, Codex] {
      assert named[1..] == [Codex] && named[1..][1..] == [];
    }
  }

  // --- taking an unused coder off-call ------------------------------------------------------

  lemma {:induction false} WithoutUnused(agents: seq<Agent>, off: seq<Agent>, x: Agent)
    requires x !in Without(agents, off)
    ensures Without(agents, off + [x]) == Without(agents, off)
  {
    if agents != [] {
      WithoutUnused(agents[1..], off, x);
    }
  }

  lemma {:induction false} AvailableTwice(profiles: seq<Profile>, off: seq<Agent>, x: Agent)
    ensures Available(profiles, off + [x]) == Available(Available(profiles, off), [x])
  {
    if profiles != [] {
      AvailableTwice(profiles[1..], off, x);
      var head := if profiles[0].agent in off then [] else [profiles[0]];
      var rest := Available(profiles[1..], off);
      assert head != [] ==> (head + rest)[1..] == rest;
      assert head == [] ==> head + rest == rest;
    }
  }

  lemma {:induction false} FirstQualifiedUnused(ps: seq<Profile>, wanted: seq<string>, x: Agent)
    requires FirstQualified(ps, wanted) != Some(x)
    ensures FirstQualified(Available(ps, [x]), wanted) == FirstQualified(ps, wanted)
  {
    if ps != [] {
      var rest := Available(ps[1..], [x]);
      if ps[0].agent == x {
        assert Available(ps, [x]) == rest;
        FirstQualifiedUnused(ps[1..], wanted, x);
      } else {
        assert Available(ps, [x]) == [ps[0]] + rest;
        assert ([ps[0]] + rest)[1..] == rest;
        if !Qualifies(ps[0], wanted) { FirstQualifiedUnused(ps[1..], wanted, x); }
      }
    }
  }

  lemma PickUnused(ps: seq<Profile>, wanted: seq<string>, prefer: Option<Agent>, x: Agent)
    requires ps != [] && Pick(ps, wanted, prefer) != x
    ensures Available(ps, [x]) != [] && Pick(Available(ps, [x]), wanted, prefer) == Pick(ps, wanted, prefer)
  {
    var a := Pick(ps, wanted, prefer);
    var kept := Available(ps, [x]);
    var p :| p in ps && p.agent == a;
    assert p in kept;
    if prefer.Some? && exists q :: q in ps && q.agent == prefer.value && Qualifies(q, wanted) {
      var q :| q in ps && q.agent == prefer.value && Qualifies(q, wanted);
      assert q in kept;
    } else {
      FirstQualifiedUnused(ps, wanted, x);
      if FirstQualified(ps, wanted).None? {
        assert kept[0] == ps[0];
      }
    }
  }

  /** Marking a coder off-call that the plan does not use leaves who is dispatched unchanged. */
  lemma UnusedOffCallChangesNothing(lex: Lexicon, goal: string, policy: Arrangement, named: seq<Agent>, x: Agent)
    requires x !in PlanRoute(lex, goal, policy, named).agents
    ensures PlanRoute(lex, goal, policy.(unavailable := policy.unavailable + [x]), named) ==
            PlanRoute(lex, goal, policy, named)
  {
    var off := policy.unavailable;
    var plan := PlanRoute(lex, goal, policy, named);
    WithoutUnused(named, off, x);
    if Without(named, off) == [] {
      var available := Available(policy.profiles, off);
      AvailableTwice(policy.profiles, off, x);
      if available != [] {
        if lex.review(goal) {
          PickUnused(available, ReviewerTags, policy.preferLead, x);
        } else if lex.trivial(goal) {
          PickUnused(available, ImplementerTags, None, x);
        } else {
          PickUnused(available, LeadTags, policy.preferLead, x);
        }
      }
    }
  }
}
