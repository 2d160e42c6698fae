/** What a binding, a lookup and an unbind mean for a message that awaits in between. */
module StewardBinding {
  import opened Options
  import opened Steward

  /** The world before event n of a run. */
  ghost function At(b: Brain, es: seq<Event>, n: nat): World
    requires n <= |es|
  {
    Run(b, es[..n])
  }

  lemma AtNext(b: Brain, es: seq<Event>, n: nat)
    requires n < |es|
    ensures At(b, es, n + 1) == Step(b, At(b, es, n), es[n])
  {
    assert es[..n + 1][..n] == es[..n];
  }

  ghost predicate IsBound(w: World, account: Account, u: User) { account in w.bound && w.bound[account] == u }

  // --- the lookup and the apply of one message -----------------------------------------------

  /** Event n is the answer of the binding lookup of message t: its account is bound to u. */
  ghost predicate LooksUp(b: Brain, es: seq<Event>, n: nat, t: nat, u: User) {
    && n < |es| && es[n] == StepTask(t)
    && var w := At(b, es, n);
       && t < |w.tasks| && w.tasks[t].pc.Start? && !w.tasks[t].verb.Bind?
       && IsBound(w, w.tasks[t].account, u)
  }

  /** At event n message t applies action a for user u. */
  ghost predicate MakesApply(b: Brain, es: seq<Event>, n: nat, t: nat, u: User, a: Action) {
    && n < |es| && es[n] == StepTask(t)
    && var w := At(b, es, n);
       && t < |w.tasks| && w.tasks[t].pc == Looked(u) && w.tasks[t].verb.Apply?
       && Chosen(w, u, w.tasks[t].verb.n) == Some(a)
  }

  /** The log notes an apply exactly when one is made. */
  lemma LogIsTrue(b: Brain, es: seq<Event>, n: nat, t: nat, u: User, a: Action)
    requires n < |es|
    ensures At(b, es, n + 1).log == At(b, es, n).log + [Applied(t, u, a)] <==> MakesApply(b, es, n, t, u, a)
  {
    AtNext(b, es, n);
    var w := At(b, es, n);
    var log := w.log + [Applied(t, u, a)];
    assert log[|w.log|] == Applied(t, u, a);
    if es[n].StepTask? && es[n].task < |w.tasks| && !w.tasks[es[n].task].pc.Looked? {
      TaskNotes(b, w, es[n].task);
    }
  }

  /** Message t is in both worlds with the same account and request, and does not look up twice. */
  ghost predicate Stays(w: World, w': World, t: nat) {
    && t < |w.tasks| && t < |w'.tasks|
    && w'.tasks[t].account == w.tasks[t].account && w'.tasks[t].verb == w.tasks[t].verb
    && (!w.tasks[t].pc.Start? ==> !w'.tasks[t].pc.Start?)
  }

  /** Routing a message moves only that message and no binding. */
  lemma RouteStays(b: Brain, w: World, t: nat, u: User)
    requires t < |w.tasks|
    ensures var w' := Route(b, w, t, u);
            && w'.bound == w.bound && !w'.tasks[t].pc.Start? && !w'.tasks[t].pc.Looked?
            && w'.tasks == w.tasks[t := w.tasks[t].(pc := w'.tasks[t].pc)]
  {}

  lemma MessageStays(b: Brain, w: World, e: Event, t: nat)
    requires t < |w.tasks|
    ensures Stays(w, Step(b, w, e), t)
  {
    if e.StepTask? && e.task < |w.tasks| && w.tasks[e.task].pc.Looked? {
      RouteStays(b, w, e.task, w.tasks[e.task].pc.user);
    }
  }

  lemma {:induction false} MessagesStay(b: Brain, es: seq<Event>, m: nat, n: nat, t: nat)
    requires m <= n <= |es| && t < |At(b, es, m).tasks|
    ensures Stays(At(b, es, m), At(b, es, n), t)
  {
    if m < n {
      MessagesStay(b, es, m, n - 1, t);
      MessageStays(b, At(b, es, n - 1), es[n - 1], t);
      AtNext(b, es, n - 1);
    }
  }

  /** Only its own lookup makes a message a looked-up one. */
  lemma LookedBefore(b: Brain, w: World, e: Event, t: nat, u: User)
    requires t < |Step(b, w, e).tasks| && Step(b, w, e).tasks[t].pc == Looked(u)
    ensures t < |w.tasks|
    ensures w.tasks[t].pc == Looked(u)
            || (e == StepTask(t) && w.tasks[t].pc.Start? && !w.tasks[t].verb.Bind? && IsBound(w, w.tasks[t].account, u))
  {
    if e.StepTask? && e.task < |w.tasks| && w.tasks[e.task].pc.Looked? {
      RouteStays(b, w, e.task, w.tasks[e.task].pc.user);
    }
  }

  /** A message past its lookup has looked up the user it carries. */
  lemma {:induction false} LookedWasLookedUp(b: Brain, es: seq<Event>, n: nat, t: nat, u: User) returns (m: nat)
    requires n <= |es| && t < |At(b, es, n).tasks| && At(b, es, n).tasks[t].pc == Looked(u)
    ensures m < n && LooksUp(b, es, m, t, u)
    decreases n
  {
    if n == 0 { assert false; }
    AtNext(b, es, n - 1);
    var w := At(b, es, n - 1);
    LookedBefore(b, w, es[n - 1], t, u);
    if w.tasks[t].pc == Looked(u) { m := LookedWasLookedUp(b, es, n - 1, t, u); } else { m := n - 1; }
  }

  /**
   * Over every interleaving: an apply is made for the user that the message's own account was
   * bound to when that message looked it up, and there is only one such lookup.
   */
  lemma AppliesAsLookedUp(b: Brain, es: seq<Event>, n: nat, t: nat, u: User, a: Action)
    requires MakesApply(b, es, n, t, u, a)
    ensures exists m: nat :: m < n && LooksUp(b, es, m, t, u)
    ensures forall m: nat, v: User :: LooksUp(b, es, m, t, v) ==> m < n && v == u
  {
    var k := LookedWasLookedUp(b, es, n, t, u);
    forall m: nat, v: User | LooksUp(b, es, m, t, v) ensures m < n && v == u {
      if m < k {
        AtNext(b, es, m);
        MessagesStay(b, es, m + 1, k, t);
      } else if k < m {
        AtNext(b, es, k);
        MessagesStay(b, es, k + 1, m, t);
      }
    }
  }

  // --- which action is applied ------------------------------------------------------------------

  /** What a step adds to the log, and that it keeps the rest. */
  lemma LogGrows(b: Brain, w: World, e: Event)
    ensures w.log <= Step(b, w, e).log && |Step(b, w, e).log| <= |w.log| + 1
  {
    if e.StepTask? && e.task < |w.tasks| && !w.tasks[e.task].pc.Looked? { TaskNotes(b, w, e.task); }
  }

  /** The k-th action, counted from 1, if there is one. */
  ghost predicate IsKth(actions: Option<seq<Action>>, k: int, a: Action) {
    actions.Some? && 1 <= k <= |actions.value| && a == actions.value[k - 1]
  }

  /** A new apply took the action that its message numbers, out of the user's latest finished proposal. */
  lemma NewApplyIsNumbered(b: Brain, w: World, e: Event)
    requires Remembered(w) && |Step(b, w, e).log| == |w.log| + 1 && Step(b, w, e).log[|w.log|].Applied?
    ensures var x := Step(b, w, e).log[|w.log|];
            && x.task < |w.tasks| && w.tasks[x.task].verb.Apply? && w.tasks[x.task].verb.n.Some?
            && IsKth(Latest(w.log, x.user), w.tasks[x.task].verb.n.value, x.action)
  {
    if e.StepTask? && e.task < |w.tasks| && !w.tasks[e.task].pc.Looked? { TaskNotes(b, w, e.task); }
  }

  /**
   * Over every run: a logged apply is of a message `/apply k`, and its action is the k-th of the
   * user's latest proposal that was finished by then.
   */
  lemma {:induction false} AppliedIsNumbered(b: Brain, es: seq<Event>, i: nat)
    requires i < |Run(b, es).log| && Run(b, es).log[i].Applied?
    ensures var w := Run(b, es); var x := w.log[i];
            && x.task < |w.tasks| && w.tasks[x.task].verb.Apply? && w.tasks[x.task].verb.n.Some?
            && IsKth(Latest(w.log[..i], x.user), w.tasks[x.task].verb.n.value, x.action)
  {
    var before, e := es[..|es| - 1], es[|es| - 1];
    var w := Run(b, before);
    RunKeeps(b, before);
    LogGrows(b, w, e);
    assert Run(b, es).log[..|w.log|] == w.log;
    if i < |w.log| {
      AppliedIsNumbered(b, before, i);
      assert Run(b, es).log[..i] == w.log[..i];
    } else {
      NewApplyIsNumbered(b, w, e);
    }
    MessageStays(b, w, e, Run(b, es).log[i].task);
  }

  /** And a message `/apply k` that has looked up its user makes that apply when it is routed, and no other. */
  lemma NumberedIsApplied(b: Brain, es: seq<Event>, t: nat, u: User)
    requires var w := Run(b, es); t < |w.tasks| && w.tasks[t].pc == Looked(u) && w.tasks[t].verb.Apply?
    ensures var w, w' := Run(b, es), Run(b, es + [StepTask(t)]);
            var n, actions := w.tasks[t].verb.n, Latest(w.log, u);
            if n.Some? && actions.Some? && 1 <= n.value <= |actions.value|
            then w'.log == w.log + [Applied(t, u, actions.value[n.value - 1])] else w'.log == w.log
  {
    var w := Run(b, es);
    RunKeeps(b, es);
    Reach(b, es, w, StepTask(t), Step(b, w, StepTask(t)));
    assert Latest(w.log, u) == if u in w.proposals then Some(w.proposals[u]) else None;
  }

  // --- which plan is stored, and how an item is decided ----------------------------------------

  /** A message that is planning asks for what its instruction makes the planner propose to that user. */
  ghost predicate PlansAsked(b: Brain, w: World) {
    forall t :: 0 <= t < |w.tasks| && w.tasks[t].pc.Planning? ==>
      PlannedBy(b, w, t, w.tasks[t].pc.user, w.tasks[t].pc.actions)
  }

  ghost predicate PlannedBy(b: Brain, w: World, t: nat, u: User, actions: seq<Action>) {
    && t < |w.tasks| && w.tasks[t].verb.Plan? && w.tasks[t].verb.instruction != ""
    && actions == b.propose(u, w.tasks[t].verb.instruction)
  }

  lemma PlansStayAsked(b: Brain, w: World, e: Event)
    requires PlansAsked(b, w)
    ensures PlansAsked(b, Step(b, w, e))
  {
    var w' := Step(b, w, e);
    forall t | 0 <= t < |w'.tasks| && w'.tasks[t].pc.Planning?
      ensures PlannedBy(b, w', t, w'.tasks[t].pc.user, w'.tasks[t].pc.actions)
    {
      if t < |w.tasks| {
        MessageStays(b, w, e, t);
        PlanningComes(b, w, e, t);
      }
    }
  }

  /** A message comes to planning only when it is routed, and then keeps its plan. */
  lemma PlanningComes(b: Brain, w: World, e: Event, t: nat)
    requires t < |w.tasks| && t < |Step(b, w, e).tasks| && Step(b, w, e).tasks[t].pc.Planning?
    ensures w.tasks[t].pc == Step(b, w, e).tasks[t].pc
            || PlannedBy(b, w, t, Step(b, w, e).tasks[t].pc.user, Step(b, w, e).tasks[t].pc.actions)
  {
    if e.StepTask? && e.task < |w.tasks| && e.task != t && w.tasks[e.task].pc.Looked? {
      RouteStays(b, w, e.task, w.tasks[e.task].pc.user);
    }
  }

  lemma NewPlanIsPlanned(b: Brain, w: World, e: Event)
    requires PlansAsked(b, w) && |Step(b, w, e).log| == |w.log| + 1 && Step(b, w, e).log[|w.log|].Planned?
    ensures e.StepTask? && var x := Step(b, w, e).log[|w.log|]; PlannedBy(b, w, e.task, x.user, x.actions)
  {
    if e.StepTask? && e.task < |w.tasks| && !w.tasks[e.task].pc.Looked? { TaskNotes(b, w, e.task); }
  }

  lemma {:induction false} PlansAreAsked(b: Brain, es: seq<Event>)
    ensures PlansAsked(b, Run(b, es))
  {
    if es != [] {
      PlansAreAsked(b, es[..|es| - 1]);
      PlansStayAsked(b, Run(b, es[..|es| - 1]), es[|es| - 1]);
    }
  }

  /** Over every run: a stored plan is what the planner proposed to that user for the instruction of some message. */
  lemma {:induction false} PlannedIsProposed(b: Brain, es: seq<Event>, i: nat)
    requires i < |Run(b, es).log| && Run(b, es).log[i].Planned?
    ensures var w := Run(b, es); exists t: nat :: PlannedBy(b, w, t, w.log[i].user, w.log[i].actions)
  {
    var before, e := es[..|es| - 1], es[|es| - 1];
    var w := Run(b, before);
    LogGrows(b, w, e);
    assert Run(b, es).log[..|w.log|] == w.log;
    PlansAreAsked(b, before);
    var t: nat;
    if i < |w.log| {
      PlannedIsProposed(b, before, i);
      t :| PlannedBy(b, w, t, w.log[i].user, w.log[i].actions);
    } else {
      NewPlanIsPlanned(b, w, e);
      t := e.task;
    }
    MessageStays(b, w, e, t);
    assert PlannedBy(b, Run(b, es), t, Run(b, es).log[i].user, Run(b, es).log[i].actions);
  }

  /** In every reachable state: a pending item is decided as it is asked to be, and executed exactly on approval. */
  lemma DecidedAsAsked(b: Brain, es: seq<Event>, k: nat, approve: bool)
    requires k < |Run(b, es).inbox| && Run(b, es).inbox[k].status.Pending?
    ensures var w, w' := Run(b, es), Run(b, es + [Resolve(k, approve)]);
            && k < |w'.inbox| && w'.inbox[k].status == (if approve then Approved else Rejected)
            && w'.executed ==
               w.executed + (if approve then [Done(w.inbox[k].user, w.inbox[k].action, ByItem(k))] else [])
            && w'.bound == w.bound && w'.proposals == w.proposals
  {
    var w := Run(b, es);
    Reach(b, es, w, Resolve(k, approve), Step(b, w, Resolve(k, approve)));
    assert w.executed + [] == w.executed;
  }

  // --- is the account still bound when the apply is made? ---------------------------------------

  /** Event k binds the account to u. */
  ghost predicate BindsTo(b: Brain, es: seq<Event>, k: nat, account: Account, u: User) {
    && k < |es| && es[k].StepTask?
    && var w, t := At(b, es, k), es[k].task;
       t < |w.tasks| && w.tasks[t].account == account && w.tasks[t].pc.Start? && w.tasks[t].verb == Bind(Some(u))
  }

  /** Event k removes the account's binding. */
  ghost predicate Unbinds(b: Brain, es: seq<Event>, k: nat, account: Account) {
    && k < |es| && es[k].StepTask?
    && var w, t := At(b, es, k), es[k].task;
       t < |w.tasks| && w.tasks[t].account == account && w.tasks[t].pc.Unbinding?
  }

  /** Event k takes the account away from u. */
  ghost predicate TakesAway(b: Brain, es: seq<Event>, k: nat, account: Account, u: User) {
    Unbinds(b, es, k, account) || exists v :: v != u && BindsTo(b, es, k, account, v)
  }

  lemma BindingMoves(b: Brain, es: seq<Event>, k: nat, account: Account, u: User)
    requires k < |es|
    ensures IsBound(At(b, es, k + 1), account, u) <==>
              BindsTo(b, es, k, account, u) || (IsBound(At(b, es, k), account, u) && !TakesAway(b, es, k, account, u))
  {
    AtNext(b, es, k);
    var w := At(b, es, k);
    if es[k].StepTask? && es[k].task < |w.tasks| {
      var task := w.tasks[es[k].task];
      if task.pc.Start? && task.verb.Bind? && task.verb.claimed.Some? && task.account == account {
        assert BindsTo(b, es, k, account, task.verb.claimed.value);
      }
      if task.pc.Looked? { RouteStays(b, w, es[k].task, task.pc.user); }
    }
  }

  /** Between steps m and n every taking has a setting behind it. */
  ghost predicate Followed(takes: nat -> bool, sets: nat -> bool, m: nat, n: nat) {
    forall k :: m <= k < n && takes(k) ==> SetWithin(sets, k, n)
  }

  ghost predicate SetWithin(sets: nat -> bool, k: nat, n: nat) { exists l :: k < l < n && sets(l) }

  /** What is set and taken step by step holds at the end exactly if every taking was followed by a setting. */
  lemma {:induction false} HoldsAtTheEnd(holds: nat -> bool, sets: nat -> bool, takes: nat -> bool, m: nat, n: nat)
    requires m <= n && holds(m)
    requires forall k :: m <= k < n ==> (holds(k + 1) <==> sets(k) || (holds(k) && !takes(k)))
    requires forall k :: m <= k < n && sets(k) ==> !takes(k)
    ensures holds(n) <==> Followed(takes, sets, m, n)
    decreases n
  {
    if m < n {
      HoldsAtTheEnd(holds, sets, takes, m, n - 1);
      assert holds(n) <==> sets(n - 1) || (holds(n - 1) && !takes(n - 1)) by { assert (n - 1) + 1 == n; }
      forall k | m <= k < n - 1 ensures SetWithin(sets, k, n) <==> sets(n - 1) || SetWithin(sets, k, n - 1) {
        if SetWithin(sets, k, n) { var l :| k < l < n && sets(l); }
      }
      assert !SetWithin(sets, n - 1, n);
    }
  }

  lemma BindingIsNoTaking(b: Brain, es: seq<Event>, k: nat, account: Account, u: User)
    requires BindsTo(b, es, k, account, u)
    ensures !TakesAway(b, es, k, account, u)
  {}

  ghost function Holding(b: Brain, es: seq<Event>, account: Account, u: User): nat -> bool {
    (k: nat) => k <= |es| && IsBound(At(b, es, k), account, u)
  }
  ghost function Setting(b: Brain, es: seq<Event>, account: Account, u: User): nat -> bool {
    (k: nat) => BindsTo(b, es, k, account, u)
  }
  ghost function Taking(b: Brain, es: seq<Event>, account: Account, u: User): nat -> bool {
    (k: nat) => TakesAway(b, es, k, account, u)
  }

  /** Whatever took the account away from u from event m on was followed by a binding to u before event n. */
  ghost predicate GivenBack(b: Brain, es: seq<Event>, m: nat, n: nat, account: Account, u: User) {
    Followed(Taking(b, es, account, u), Setting(b, es, account, u), m, n)
  }

  lemma HoldingMoves(b: Brain, es: seq<Event>, account: Account, u: User, k: nat)
    requires k < |es|
    ensures var sets, takes := Setting(b, es, account, u), Taking(b, es, account, u);
            && (Holding(b, es, account, u)(k + 1) <==> sets(k) || (Holding(b, es, account, u)(k) && !takes(k)))
            && (sets(k) ==> !takes(k))
  {
    BindingMoves(b, es, k, account, u);
    if BindsTo(b, es, k, account, u) { BindingIsNoTaking(b, es, k, account, u); }
  }

  /** A binding lasts exactly if whatever took it away was undone. */
  lemma BindingLasts(b: Brain, es: seq<Event>, m: nat, n: nat, account: Account, u: User)
    requires m <= n <= |es| && IsBound(At(b, es, m), account, u)
    ensures IsBound(At(b, es, n), account, u) <==> GivenBack(b, es, m, n, account, u)
  {
    forall k: nat | m <= k < n
      ensures var sets, takes := Setting(b, es, account, u), Taking(b, es, account, u);
              && (Holding(b, es, account, u)(k + 1) <==> sets(k) || (Holding(b, es, account, u)(k) && !takes(k)))
              && (sets(k) ==> !takes(k))
    {
      HoldingMoves(b, es, account, u, k);
    }
    HoldsAtTheEnd(Holding(b, es, account, u), Setting(b, es, account, u), Taking(b, es, account, u), m, n);
  }

  /**
   * The exact condition: at the apply the account is still bound to the user of the lookup if
   * and only if every unbind, and every binding to someone else, that took effect since the
   * lookup was followed by a binding back.
   */
  lemma StillBoundIff(b: Brain, es: seq<Event>, m: nat, n: nat, t: nat, u: User, a: Action)
    requires LooksUp(b, es, m, t, u) && MakesApply(b, es, n, t, u, a)
    ensures m < n && t < |At(b, es, m).tasks| && t < |At(b, es, n).tasks|
    ensures var account := At(b, es, m).tasks[t].account;
            && At(b, es, n).tasks[t].account == account
            && (IsBound(At(b, es, n), account, u) <==> GivenBack(b, es, m + 1, n, account, u))
  {
    AppliesAsLookedUp(b, es, n, t, u, a);
    MessagesStay(b, es, m, n, t);
    AtNext(b, es, m);
    BindingLasts(b, es, m + 1, n, At(b, es, m).tasks[t].account, u);
  }

  // --- what is left of a proposal after an unbind ------------------------------------------------

  function Onward(b: Brain, w: World, more: seq<Event>): World
    decreases |more|
  {
    if more == [] then w else Onward(b, Step(b, w, more[0]), more[1..])
  }

  lemma OnwardFirst(b: Brain, w: World, e: Event, rest: seq<Event>)
    ensures Onward(b, w, [e] + rest) == Onward(b, Step(b, w, e), rest)
  {
    assert ([e] + rest)[1..] == rest;
  }

  /** Going on from a run is a longer run. */
  lemma {:induction false} OnwardIsRun(b: Brain, es: seq<Event>, w: World, more: seq<Event>)
    requires Run(b, es) == w
    ensures Run(b, es + more) == Onward(b, w, more)
    decreases |more|
  {
    if more == [] {
      assert es + more == es;
    } else {
      var e, rest := more[0], more[1..];
      var w' := Step(b, w, e);
      assert es + more == (es + [e]) + rest;
      Reach(b, es, w, e, w');
      OnwardIsRun(b, es + [e], w', rest);
      OnwardFirst(b, w, e, rest);
      assert more == [e] + rest;
    }
  }

  ghost predicate AsksForPlan(verb: Verb) { verb.Plan? && verb.instruction != "" }

  /** Message t is a plan of u under way: looked up and not yet stored. */
  ghost predicate PlanUnderWay(w: World, t: nat, u: User) {
    && t < |w.tasks|
    && ((w.tasks[t].pc.Planning? && w.tasks[t].pc.user == u) ||
        (w.tasks[t].pc == Looked(u) && AsksForPlan(w.tasks[t].verb)))
  }

  /** The event is the lookup of a plan message that finds its account bound to u. */
  ghost predicate StartsPlan(w: World, e: Event, u: User) {
    && e.StepTask? && e.task < |w.tasks|
    && var task := w.tasks[e.task];
       task.pc.Start? && AsksForPlan(task.verb) && IsBound(w, task.account, u)
  }

  ghost predicate NoNewPlan(b: Brain, w: World, more: seq<Event>, u: User)
    decreases |more|
  {
    more == [] || (!StartsPlan(w, more[0], u) && NoNewPlan(b, Step(b, w, more[0]), more[1..], u))
  }

  ghost predicate NonePlanning(w: World, u: User) { forall t :: !PlanUnderWay(w, t, u) }

  /** A plan is under way only from a lookup on. */
  lemma UnderWayBefore(b: Brain, w: World, e: Event, t: nat, u: User)
    requires PlanUnderWay(Step(b, w, e), t, u) && !StartsPlan(w, e, u)
    ensures PlanUnderWay(w, t, u)
  {
    var w' := Step(b, w, e);
    if w'.tasks[t].pc == Looked(u) {
      LookedBefore(b, w, e, t, u);
      MessageStays(b, w, e, t);
    } else if e.StepTask? && e.task < |w.tasks| && w.tasks[e.task].pc.Looked? {
      RouteStays(b, w, e.task, w.tasks[e.task].pc.user);
    }
  }

  lemma NoneAfter(b: Brain, w: World, e: Event, u: User)
    requires u !in w.proposals && NonePlanning(w, u) && !StartsPlan(w, e, u)
    ensures u !in Step(b, w, e).proposals && NonePlanning(Step(b, w, e), u)
  {
    var w' := Step(b, w, e);
    if e.StepTask? { assert !PlanUnderWay(w, e.task, u); }
    forall t ensures !PlanUnderWay(w', t, u) {
      if PlanUnderWay(w', t, u) { UnderWayBefore(b, w, e, t, u); }
    }
  }

  lemma {:induction false} NoneEver(b: Brain, w: World, more: seq<Event>, u: User)
    requires u !in w.proposals && NonePlanning(w, u) && NoNewPlan(b, w, more, u)
    ensures u !in Onward(b, w, more).proposals
    decreases |more|
  {
    if more != [] {
      NoneAfter(b, w, more[0], u);
      NoneEver(b, Step(b, w, more[0]), more[1..], u);
    }
  }

  /** A plan under way is stored by its own next steps, which look nothing up. */
  lemma PlanArrives(b: Brain, w: World, t: nat, u: User) returns (more: seq<Event>)
    requires PlanUnderWay(w, t, u)
    ensures NoNewPlan(b, w, more, u) && u in Onward(b, w, more).proposals
  {
    var w1 := Step(b, w, StepTask(t));
    if w.tasks[t].pc.Planning? {
      more := [StepTask(t)];
      assert u in w1.proposals;
    } else {
      more := [StepTask(t), StepTask(t)];
      var w2 := Step(b, w1, StepTask(t));
      assert w1.tasks[t].pc.Planning? && u in w2.proposals;
      assert more[1..] == [StepTask(t)] && more[1..][1..] == [];
      assert Onward(b, w1, [StepTask(t)]) == w2;
      assert NoNewPlan(b, w1, [StepTask(t)], u);
    }
  }

  /** The last event of the run clears the proposals of u at the end of an unbind. */
  ghost predicate Clears(b: Brain, es: seq<Event>, u: User) {
    && es != []
    && var e, w := es[|es| - 1], Run(b, es[..|es| - 1]);
       e.StepTask? && e.task < |w.tasks| && w.tasks[e.task].pc == Clearing(u)
  }

  /**
   * The exact condition: an unbind clears u for good, until u asks for a new plan, if and only
   * if no plan of u was under way when it cleared.
   */
  lemma ClearedForGoodIff(b: Brain, es: seq<Event>, u: User)
    requires Clears(b, es, u)
    ensures (forall more :: NoNewPlan(b, Run(b, es), more, u) ==> u !in Run(b, es + more).proposals)
            <==> NonePlanning(Run(b, es), u)
  {
    var w := Run(b, es);
    assert u !in w.proposals;
    if NonePlanning(w, u) {
      forall more | NoNewPlan(b, w, more, u) ensures u !in Run(b, es + more).proposals {
        NoneEver(b, w, more, u);
        OnwardIsRun(b, es, w, more);
      }
    } else {
      var t :| PlanUnderWay(w, t, u);
      var more := PlanArrives(b, w, t, u);
      OnwardIsRun(b, es, w, more);
    }
  }

  // --- the two runs -------------------------------------------------------------------------

  lemma Reach(b: Brain, es: seq<Event>, w: World, e: Event, w': World)
    requires Run(b, es) == w && Step(b, w, e) == w'
    ensures Run(b, es + [e]) == w'
  {
    assert (es + [e])[..|es|] == es;
  }

  /** Account 0 is bound to user 7, and its plan message has been routed. */
  const Claim := Task(0, Bind(Some(7)), Over)
  const Ask := Task(0, Plan("x"), Start)
  const Drop := Task(0, Unbind, Start)
  const Pick := Task(0, Apply(Some(1)), Start)

  const Claiming := [] + [Receive(0, Bind(Some(7)))] + [StepTask(0)]
  const Asking := Claiming + [Receive(0, Plan("x"))] + [StepTask(1)] + [StepTask(1)]
  const Asked := Empty.(bound := map[0 := 7], tasks := [Claim, Ask])

  function AskedBy(b: Brain): World { Asked.(tasks := [Claim, Ask.(pc := Planning(7, b.propose(7, "x")))]) }

  lemma RunAsking(b: Brain)
    ensures Run(b, Asking) == AskedBy(b)
  {
    var claimed := Asked.(tasks := [Claim]);
    var looked := Asked.(tasks := [Claim, Ask.(pc := Looked(7))]);
    Reach(b, [], Empty, Receive(0, Bind(Some(7))), Empty.(tasks := [Claim.(pc := Start)]));
    Reach(b, [] + [Receive(0, Bind(Some(7)))], Empty.(tasks := [Claim.(pc := Start)]), StepTask(0), claimed);
    Reach(b, Claiming, claimed, Receive(0, Plan("x")), Asked);
    Reach(b, Claiming + [Receive(0, Plan("x"))], Asked, StepTask(1), looked);
    Reach(b, Claiming + [Receive(0, Plan("x"))] + [StepTask(1)], looked, StepTask(1), AskedBy(b));
  }

  /** The unbind message t is looked up, routed and takes the binding. */
  lemma RunUnbinding(b: Brain, es: seq<Event>, w: World)
    requires Run(b, es) == w && IsBound(w, 0, 7)
    ensures Run(b, es + [Receive(0, Unbind)] + [StepTask(|w.tasks|)] + [StepTask(|w.tasks|)] + [StepTask(|w.tasks|)])
            == w.(bound := w.bound - {0}, tasks := w.tasks + [Drop.(pc := Clearing(7))])
  {
    var t := |w.tasks|;
    var w1 := w.(tasks := w.tasks + [Drop]);
    var w2 := w.(tasks := w.tasks + [Drop.(pc := Looked(7))]);
    var w3 := w.(tasks := w.tasks + [Drop.(pc := Unbinding(7))]);
    var w4 := w.(bound := w.bound - {0}, tasks := w.tasks + [Drop.(pc := Clearing(7))]);
    Reach(b, es, w, Receive(0, Unbind), w1);
    Reach(b, es + [Receive(0, Unbind)], w1, StepTask(t), w2);
    Reach(b, es + [Receive(0, Unbind)] + [StepTask(t)], w2, StepTask(t), w3);
    Reach(b, es + [Receive(0, Unbind)] + [StepTask(t)] + [StepTask(t)], w3, StepTask(t), w4);
  }

  /** The plan is asked for, the account unbound and cleared, and only then the plan is stored. */
  const PlanLate :=
    Asking + [Receive(0, Unbind)] + [StepTask(2)] + [StepTask(2)] + [StepTask(2)] + [StepTask(2)] + [StepTask(1)]

  /** An unbind does not clear a proposal whose plan is still under way: the unbound user keeps it. */
  lemma LatePlanOutlivesUnbind(b: Brain)
    ensures var w := Run(b, PlanLate);
            && w.log == [Cleared(7), Planned(7, b.propose(7, "x"))]
            && w.bound == map[] && w.proposals == map[7 := b.propose(7, "x")]
  {
    RunAsking(b);
    RunUnbinding(b, Asking, AskedBy(b));
    var es := Asking + [Receive(0, Unbind)] + [StepTask(2)] + [StepTask(2)] + [StepTask(2)];
    var w := AskedBy(b).(bound := map[], tasks := AskedBy(b).tasks + [Drop.(pc := Clearing(7))]);
    assert map[0 := 7] - {0} == map[];
    Reach(b, es, w, StepTask(2), Step(b, w, StepTask(2)));
    Reach(b, es + [StepTask(2)], Step(b, w, StepTask(2)), StepTask(1), Step(b, Step(b, w, StepTask(2)), StepTask(1)));
  }

  /** An apply has looked up its user when an unbind takes the binding, and goes on afterwards. */
  const Applying := Asking + [StepTask(1)] + [Receive(0, Apply(Some(1)))] + [StepTask(2)]
  const ApplyLate :=
    Applying + [Receive(0, Unbind)] + [StepTask(3)] + [StepTask(3)] + [StepTask(3)] + [StepTask(2)]

  /** The first proposed action, if it is safe, is executed for an account that is no longer bound. */
  lemma LateApplyOutlivesUnbind(b: Brain)
    requires b.propose(7, "x") != [] && b.classify(b.propose(7, "x")[0]).Safe?
    ensures var w := Run(b, ApplyLate); w.bound == map[] && w.executed == [Done(7, b.propose(7, "x")[0], Inline)]
  {
    RunAsking(b);
    var actions := b.propose(7, "x");
    var w1 := Asked.(tasks := [Claim, Ask.(pc := Over)], proposals := map[7 := actions], log := [Planned(7, actions)]);
    var w2 := w1.(tasks := w1.tasks + [Pick]);
    var w3 := w1.(tasks := w1.tasks + [Pick.(pc := Looked(7))]);
    Reach(b, Asking, AskedBy(b), StepTask(1), w1);
    Reach(b, Asking + [StepTask(1)], w1, Receive(0, Apply(Some(1))), w2);
    Reach(b, Asking + [StepTask(1)] + [Receive(0, Apply(Some(1)))], w2, StepTask(2), w3);
    RunUnbinding(b, Applying, w3);
    var es := Applying + [Receive(0, Unbind)] + [StepTask(3)] + [StepTask(3)] + [StepTask(3)];
    var w4 := w3.(bound := map[], tasks := w3.tasks + [Drop.(pc := Clearing(7))]);
    assert map[0 := 7] - {0} == map[];
    Reach(b, es, w4, StepTask(2), Step(b, w4, StepTask(2)));
  }
}
