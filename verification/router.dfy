/** The deterministic router brain: it re-plans on every turn and counts what it has dispatched. */
module Router {
  import opened Options
  import opened Routing
  import opened ToolLoop
  import Policy

  /** The first user message that is plain text. */
  function ReadGoal(history: seq<Message<Agent>>): string {
    if history == [] then ""
    else if history[0].UserText? then history[0].text
    else ReadGoal(history[1..])
  }

  function PlanFor(lex: Lexicon, policy: Arrangement, goal: string): RoutePlan {
    PlanRoute(lex, goal, policy, ExplicitAssignment(lex, goal))
  }

  function RouterReply(lex: Lexicon, policy: Arrangement, history: seq<Message<Agent>>): Reply<Agent> {
    var plan := PlanFor(lex, policy, ReadGoal(history));
    var turn := Uses(history);
    if turn < |plan.agents| then Reply("-> dispatch", [plan.agents[turn]], true)
    else Reply("routed", [], false)
  }

  function RouterBrain(lex: Lexicon, policy: Arrangement): Brain<Agent> {
    (history: seq<Message<Agent>>) => RouterReply(lex, policy, history)
  }

  const DefaultRounds: nat := 8

  /**
   * For every goal, roster and arrangement, the tool loop dispatches exactly the planned
   * coders, in order and once each: nobody twice, nobody off-call, nobody only if no coder
   * is usable.
   */
  lemma RouterDispatchesPlan(lex: Lexicon, policy: Arrangement, tool: Tool<Agent>, goal: string)
    ensures var r := Loop(RouterBrain(lex, policy), tool, [UserText(goal)], 0, DefaultRounds);
            var named := ExplicitAssignment(lex, goal);
            && !r.aborted && r.dispatched == PlanFor(lex, policy, goal).agents
            && NoRepeats(r.dispatched)
            && (forall a :: a in r.dispatched ==> Usable(policy, named, a))
            && (r.dispatched == [] <==> forall a :: !Usable(policy, named, a))
  {
    var brain := RouterBrain(lex, policy);
    var start: seq<Message<Agent>> := [UserText(goal)];
    var plan := PlanFor(lex, policy, goal).agents;
    PlanIsSound(lex, goal, policy, ExplicitAssignment(lex, goal));
    TwoCoders(plan);
    assert start[..0] == [];
    forall history: seq<Message<Agent>> | start <= history
      ensures PlannedAt(brain(history), plan, Uses(history))
    {
      assert history[0] == start[0];
    }
    ReplanningFollows(brain, tool, start, plan);
    PlanIsDispatched(brain, tool, start, plan, DefaultRounds);
    assert plan[..|plan|] == plan;
  }

  /** What one clause leaves of an arrangement for the planner. */
  lemma ClauseArranges(lex: Lexicon, p: Policy.Policy, clause: string)
    requires lex.split(clause) == [clause]
    ensures var after := Policy.ArrangementOf(Policy.Edit(lex, p, clause).policy);
            && after.profiles == p.profiles
            && (lex.singleOff(clause) ==> !after.singleCoder)
            && (lex.singleOn(clause) && !lex.singleOff(clause) ==> after.singleCoder)
            && (lex.lead(clause) && (lex.mentionsDeepseek(clause) || lex.mentionsCodex(clause)) ==>
                  after.preferLead == Some(if lex.mentionsDeepseek(clause) then DeepseekTui else Codex))
  {
    var q := Policy.Clone(p);
    Policy.ClauseMeans(lex, q, clause);
    assert [clause][..0] == [];
    var one := Policy.ApplyOne(lex, q, clause);
    assert Policy.ApplyAll(lex, q, [clause]) == (one.0, [] + one.1);
  }

  /**
   * What a clause says about the budget and the lead is what any later goal meets that is neither a
   * review nor trivial and assigns nobody: under the cap one coder at most, without it two if both
   * are on call; the lead that was asked for goes first if it is on call and strong enough.
   */
  lemma ClauseSteersTheGoals(lex: Lexicon, p: Policy.Policy, clause: string, goal: string, tool: Tool<Agent>)
    requires lex.split(clause) == [clause] && !lex.assigns(goal) && !lex.review(goal) && !lex.trivial(goal)
    ensures var after := Policy.ArrangementOf(Policy.Edit(lex, p, clause).policy);
            var dispatched := Loop(RouterBrain(lex, after), tool, [UserText(goal)], 0, DefaultRounds).dispatched;
            && (lex.singleOn(clause) && !lex.singleOff(clause) ==> |dispatched| <= 1)
            && (lex.singleOff(clause) && after.unavailable == [] && (forall a :: Listed(p.profiles, a)) ==>
                  |dispatched| == 2)
            && (forall a :: lex.lead(clause) && LeadNamed(lex, clause, a)
                            && Has(p.profiles, after.unavailable, StrongOf(["design", "analysis", "review"], a))
                            ==> dispatched != [] && dispatched[0] == a)
  {
    var after := Policy.ArrangementOf(Policy.Edit(lex, p, clause).policy);
    ClauseArranges(lex, p, clause);
    RouterDispatchesPlan(lex, after, tool, goal);
    PlainGoal(lex, after, goal);
    forall a | lex.lead(clause) && LeadNamed(lex, clause, a) ensures after.preferLead == Some(a) {}
  }

  /** A goal that is neither a review nor trivial and assigns nobody, under an arrangement. */
  lemma PlainGoal(lex: Lexicon, arr: Arrangement, goal: string)
    requires !lex.assigns(goal) && !lex.review(goal) && !lex.trivial(goal)
    ensures var agents := PlanFor(lex, arr, goal).agents;
            && (arr.singleCoder ==> |agents| <= 1)
            && (!arr.singleCoder && arr.unavailable == [] && (forall a :: Listed(arr.profiles, a)) ==> |agents| == 2)
            && (forall a :: arr.preferLead == Some(a)
                            && Has(arr.profiles, arr.unavailable, StrongOf(["design", "analysis", "review"], a))
                            ==> agents != [] && agents[0] == a)
  {
    var agents := PlanFor(lex, arr, goal).agents;
    StaffedIsAvailable(arr);
    if arr.unavailable == [] && (forall a :: Listed(arr.profiles, a)) {
      OnCallIfListed(arr.profiles, [], Codex);
      TwoRolesAreFilled(lex, goal, arr, []);
      OnCallIfListed(arr.profiles, [agents[0]], if agents[0] == Codex then DeepseekTui else Codex);
      assert [] + [agents[0]] == [agents[0]];
    } else if Staffed(arr) {
      TwoRolesAreFilled(lex, goal, arr, []);
    }
  }

  /** The coder that a clause about the lead means. */
  predicate LeadNamed(lex: Lexicon, clause: string, a: Agent) {
    if lex.mentionsDeepseek(clause) then a == DeepseekTui else lex.mentionsCodex(clause) && a == Codex
  }

  ghost predicate Listed(ps: seq<Profile>, a: Agent) { exists x :: x in ps && x.agent == a }

  lemma OnCallIfListed(ps: seq<Profile>, off: seq<Agent>, a: Agent)
    requires a !in off && Listed(ps, a)
    ensures Has(ps, off, Any())
  {
    var x :| x in ps && x.agent == a;
    var i: nat :| i < |ps| && ps[i] == x;
    assert OnCall(ps, off, i);
  }

  /**
   * A coder that a clause mentions and takes off-call is dispatched for no goal, however the goal
   * names it.
   */
  lemma OffCallIsNeverDispatched(lex: Lexicon, p: Policy.Policy, clause: string, goal: string, tool: Tool<Agent>)
    requires lex.off(clause) && lex.split(clause) == [clause]
    ensures var after := Policy.ArrangementOf(Policy.Edit(lex, p, clause).policy);
            var dispatched := Loop(RouterBrain(lex, after), tool, [UserText(goal)], 0, DefaultRounds).dispatched;
            && (lex.mentionsCodex(clause) ==> Codex !in dispatched)
            && (lex.mentionsDeepseek(clause) ==> DeepseekTui !in dispatched)
  {
    var q := Policy.Edit(lex, p, clause).policy;
    NamedIsMentioned(lex, clause);
    Policy.ClauseMeans(lex, Policy.Clone(p), clause);
    assert [clause][..0] == [];
    var one := Policy.ApplyOne(lex, Policy.Clone(p), clause);
    assert Policy.ApplyAll(lex, Policy.Clone(p), [clause]) == (one.0, [] + one.1);
    assert Policy.OffList(q) == Policy.OffList(one.0);
    RouterDispatchesPlan(lex, Policy.ArrangementOf(q), tool, goal);
  }

  /**
   * A goal that assigns itself is dispatched exactly to the coders it mentions that are on call,
   * deepseek-tui first, if there is one; else, as any goal that does not, by the standing
   * arrangement alone.
   */
  lemma AssignedGoesToTheMentioned(lex: Lexicon, policy: Arrangement, tool: Tool<Agent>, goal: string)
    ensures var dispatched := Loop(RouterBrain(lex, policy), tool, [UserText(goal)], 0, DefaultRounds).dispatched;
            var deepseek := lex.assigns(goal) && lex.mentionsDeepseek(goal) && DeepseekTui !in policy.unavailable;
            var codex := lex.assigns(goal) && lex.mentionsCodex(goal) && Codex !in policy.unavailable;
            dispatched == if deepseek && codex then [DeepseekTui, Codex] else if deepseek then [DeepseekTui]
                          else if codex then [Codex] else PlanRoute(lex, goal, policy, []).agents
  {
    var named := ExplicitAssignment(lex, goal);
    RouterDispatchesPlan(lex, policy, tool, goal);
    NamedIsMentioned(lex, goal);
    if exists a :: a in named && a !in policy.unavailable {
      NamedArePlanned(lex, goal, policy, named);
      OnlyThese(PlanFor(lex, policy, goal).agents);
    } else {
      UnusableNamingIsNone(lex, goal, policy, named);
    }
  }

  /** Distinct coders, at most two of them. */
  lemma OnlyThese(agents: seq<Agent>)
    requires NoRepeats(agents) && 1 <= |agents| <= 2
    ensures Codex !in agents ==> agents == [DeepseekTui]
    ensures DeepseekTui !in agents ==> agents == [Codex]
    ensures Codex in agents && DeepseekTui in agents ==> |agents| == 2
  {
    assert agents[0].Codex? || agents[0].DeepseekTui?;
    if |agents| == 1 {
      assert agents == [agents[0]];
    } else {
      assert agents == [agents[0], agents[1]] && agents[0] != agents[1];
      assert agents[1].Codex? || agents[1].DeepseekTui?;
    }
  }

  /**
   * With the default roster and everyone on call: a review goes to deepseek-tui, a trivial change to
   * codex, anything else is designed by deepseek-tui and implemented by codex.
   */
  lemma DefaultRoutes(lex: Lexicon, goal: string)
    ensures var plan := PlanRoute(lex, goal, Policy.ArrangementOf(Policy.Default), []);
            if lex.review(goal) then plan == RoutePlan([DeepseekTui], ReviewOnly, false)
            else if lex.trivial(goal) then plan == RoutePlan([Codex], DirectFix, false)
            else plan == RoutePlan([DeepseekTui, Codex], PlanThenImplement, false)
  {
    DefaultPicks();
  }

  lemma DefaultPicks()
    ensures var ps := Policy.Default.profiles;
            && Available(ps, []) == ps && Available(ps, [DeepseekTui]) == [ps[1]]
            && Pick(ps, ReviewerTags, None) == DeepseekTui && Pick(ps, LeadTags, None) == DeepseekTui
            && Pick(ps, ImplementerTags, None) == Codex && Pick([ps[1]], ImplementerTags, None) == Codex
  {
    var ps := Policy.Default.profiles;
    var deepseek, codex := ps[0], ps[1];
    assert ps[1..] == [codex] && ps[1..][1..] == [];
    DefaultStrengths(deepseek, codex);
    assert FirstQualified([codex], ImplementerTags) == Some(Codex);
  }

  lemma DefaultStrengths(deepseek: Profile, codex: Profile)
    requires deepseek == Policy.Default.profiles[0] && codex == Policy.Default.profiles[1]
    ensures Qualifies(deepseek, ReviewerTags) && Qualifies(deepseek, LeadTags) && Qualifies(codex, ImplementerTags)
    ensures !Qualifies(deepseek, ImplementerTags)
  {
    assert deepseek.strengths[0] == "review" && deepseek.strengths[2] == "design" && codex.strengths[0] == "implement";
  }
}
