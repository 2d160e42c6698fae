/** One hub with its inbox and parked rows, and any number of runs of one workflow on it. */
module WorkflowEnv {
  import opened Workflow

  datatype TaskId = HumanTask(item: nat) | RunTask(run: nat)

  datatype TaskResult = Suspended | Ok(output: Value) | Failed

  /** The runner's own record of a run. */
  datatype Stage = Waiting(item: nat) | Ended(result: TaskResult)
  datatype Run = Run(trigger: Value, done: seq<Record>, stage: Stage)

  datatype Row = HumanRow | RunRow(state: Run)

  datatype Env = Env(
    inbox: seq<Item>,
    parked: map<TaskId, Row>,
    results: map<TaskId, TaskResult>,
    runs: seq<Run>,
    log: seq<Contact>)

  const Empty := Env([], map[], map[], [], [])

  datatype Event = Fire(trigger: Value) | Resolve(item: nat, decision: Value)

  // --- the transitions ------------------------------------------------------------------

  function ResultOf(o: Outcome): TaskResult {
    match o
    case Completed(_, v) => Ok(v)
    case Broken(_) => Failed
    case Waits(_) => Suspended
  }

  /** The human step has written its item and parked; then the run parks behind it. */
  function ParkRun(def: Def, e: Env, n: nat, p: Progress): Env
    requires n < |e.runs| && |p.done| < |def.steps| && def.steps[|p.done|].action.Human?
  {
    var k := |e.inbox|;
    var run := Run(e.runs[n].trigger, p.done, Waiting(k));
    Env(e.inbox + [ItemAt(def, n, p)],
        e.parked[HumanTask(k) := HumanRow][RunTask(n) := RunRow(run)],
        e.results[HumanTask(k) := Suspended][RunTask(n) := Suspended],
        e.runs[n := run],
        p.log)
  }

  /** The run is over: its row, if any, goes. */
  function EndRun(e: Env, n: nat, o: Outcome): Env
    requires n < |e.runs|
  {
    Env(e.inbox, e.parked - {RunTask(n)}, e.results[RunTask(n) := ResultOf(o)],
        e.runs[n := Run(e.runs[n].trigger, o.at.done, Ended(ResultOf(o)))], o.at.log)
  }

  function Settle(def: Def, e: Env, n: nat, o: Outcome): Env
    requires n < |e.runs|
    requires o.Waits? ==> |o.at.done| < |def.steps| && def.steps[|o.at.done|].action.Human?
  {
    if o.Waits? then ParkRun(def, e, n, o.at) else EndRun(e, n, o)
  }

  /** Run `n` goes on behind the finished steps `done`. */
  function Proceed(def: Def, serve: Service, e: Env, n: nat, done: seq<Record>): Env
    requires n < |e.runs| && |done| <= |def.steps|
  {
    var p := Progress(done, e.log, |e.inbox|);
    AdvanceParks(def, serve, n, e.runs[n].trigger, p);
    Settle(def, e, n, Advance(def, serve, n, e.runs[n].trigger, p))
  }

  function FireStep(def: Def, serve: Service, e: Env, trigger: Value): Env {
    Proceed(def, serve, e.(runs := e.runs + [Run(trigger, [], Ended(Failed))]), |e.runs|, [])
  }

  /** Flip the item, resume the human step with the decision, drop its row. */
  function Answer(e: Env, k: nat, decision: Value): Env
    requires k < |e.inbox|
  {
    e.(inbox := e.inbox[k := e.inbox[k].(status := Resolved(decision))],
       results := e.results[HumanTask(k) := Ok(decision)],
       parked := e.parked - {HumanTask(k)})
  }

  /** What `resolveHumanStep` does with a pending item whose rows are parked; anything else throws. */
  function ResolveStep(def: Def, serve: Service, e: Env, k: nat, decision: Value): Env {
    if CanResolve(def, e, k) then
      var n := e.inbox[k].run;
      Proceed(def, serve, Answer(e, k, decision), n, e.parked[RunTask(n)].state.done + [Done(decision)])
    else e
  }

  predicate CanResolve(def: Def, e: Env, k: nat) {
    && k < |e.inbox| && e.inbox[k].status.Pending? && HumanTask(k) in e.parked
    && var n := e.inbox[k].run;
       && n < |e.runs| && RunTask(n) in e.parked && e.parked[RunTask(n)].RunRow?
       && |e.parked[RunTask(n)].state.done| < |def.steps|
  }

  function Step(def: Def, serve: Service, e: Env, ev: Event): Env {
    match ev
    case Fire(trigger) => FireStep(def, serve, e, trigger)
    case Resolve(k, decision) => ResolveStep(def, serve, e, k, decision)
  }

  function History(def: Def, serve: Service, es: seq<Event>): Env {
    if es == [] then Empty else Step(def, serve, History(def, serve, es[..|es| - 1]), es[|es| - 1])
  }

  // --- coherence --------------------------------------------------------------------------

  /** Item `k` is pending exactly if its row is parked, and then its run waits for it. */
  ghost predicate ItemOk(def: Def, e: Env, k: nat)
    requires k < |e.inbox|
  {
    && (e.inbox[k].status.Pending? <==> HumanTask(k) in e.parked)
    && e.inbox[k].run < |e.runs|
    && (e.inbox[k].status.Pending? ==> e.runs[e.inbox[k].run].stage == Waiting(k))
    && (e.inbox[k].status.Pending? ==> HumanTask(k) in e.results && e.results[HumanTask(k)] == Suspended)
  }

  /** A waiting run owns one row and one pending item; an ended one owns none and has its result. */
  ghost predicate RunOk(def: Def, e: Env, n: nat)
    requires n < |e.runs|
  {
    var run := e.runs[n];
    && RunTask(n) in e.results
    && match run.stage
       case Waiting(k) =>
         && RunTask(n) in e.parked && e.parked[RunTask(n)] == RunRow(run)
         && e.results[RunTask(n)] == Suspended
         && |run.done| < |def.steps| && def.steps[|run.done|].action.Human?
         && k < |e.inbox|
         && e.inbox[k] == Item(n, def.steps[|run.done|].action.prompt, Pending)
       case Ended(r) => RunTask(n) !in e.parked && e.results[RunTask(n)] == r && !r.Suspended?
  }

  ghost predicate Coherent(def: Def, e: Env) {
    && (forall k :: 0 <= k < |e.inbox| ==> ItemOk(def, e, k))
    && (forall n :: 0 <= n < |e.runs| ==> RunOk(def, e, n))
    && (forall k: nat :: HumanTask(k) in e.parked ==> k < |e.inbox|)
    && (forall n: nat :: RunTask(n) in e.parked ==> n < |e.runs|)
  }

  /** Everything but run `n` is coherent; run `n` is in the middle of a step and owns no pending item. */
  ghost predicate CoherentBut(def: Def, e: Env, n: nat) {
    && n < |e.runs|
    && (forall k :: 0 <= k < |e.inbox| ==> ItemOk(def, e, k) && (e.inbox[k].status.Pending? ==> e.inbox[k].run != n))
    && (forall m :: 0 <= m < |e.runs| && m != n ==> RunOk(def, e, m))
    && (forall k: nat :: HumanTask(k) in e.parked ==> k < |e.inbox|)
    && (forall m: nat :: RunTask(m) in e.parked ==> m < |e.runs|)
  }

  lemma ParkKeeps(def: Def, e: Env, n: nat, p: Progress)
    requires CoherentBut(def, e, n)
    requires |p.done| < |def.steps| && def.steps[|p.done|].action.Human?
    ensures Coherent(def, ParkRun(def, e, n, p))
  {
    var e' := ParkRun(def, e, n, p);
    forall k | 0 <= k < |e'.inbox| ensures ItemOk(def, e', k) {
      if k < |e.inbox| { assert ItemOk(def, e, k); }
    }
    forall m | 0 <= m < |e'.runs| ensures RunOk(def, e', m) {
      if m != n { assert RunOk(def, e, m); }
    }
  }

  lemma EndKeeps(def: Def, e: Env, n: nat, o: Outcome)
    requires CoherentBut(def, e, n) && !o.Waits?
    ensures Coherent(def, EndRun(e, n, o))
  {
    var e' := EndRun(e, n, o);
    forall k | 0 <= k < |e'.inbox| ensures ItemOk(def, e', k) { assert ItemOk(def, e, k); }
    forall m | 0 <= m < |e'.runs| ensures RunOk(def, e', m) {
      if m != n { assert RunOk(def, e, m); }
    }
  }

  lemma ProceedKeeps(def: Def, serve: Service, e: Env, n: nat, done: seq<Record>)
    requires CoherentBut(def, e, n) && |done| <= |def.steps|
    ensures Coherent(def, Proceed(def, serve, e, n, done))
  {
    var p := Progress(done, e.log, |e.inbox|);
    AdvanceParks(def, serve, n, e.runs[n].trigger, p);
    var o := Advance(def, serve, n, e.runs[n].trigger, p);
    if o.Waits? { ParkKeeps(def, e, n, o.at); } else { EndKeeps(def, e, n, o); }
  }

  lemma FireKeeps(def: Def, serve: Service, e: Env, trigger: Value)
    requires Coherent(def, e)
    ensures Coherent(def, FireStep(def, serve, e, trigger))
  {
    var e' := e.(runs := e.runs + [Run(trigger, [], Ended(Failed))]);
    forall k | 0 <= k < |e'.inbox|
      ensures ItemOk(def, e', k) && e'.inbox[k].run != |e.runs|
    { assert ItemOk(def, e, k); }
    forall m | 0 <= m < |e.runs| ensures RunOk(def, e', m) { assert RunOk(def, e, m); }
    ProceedKeeps(def, serve, e', |e.runs|, []);
  }

  lemma AnswerLeaves(def: Def, e: Env, k: nat, decision: Value)
    requires Coherent(def, e) && k < |e.inbox| && e.inbox[k].status.Pending?
    ensures CoherentBut(def, Answer(e, k, decision), e.inbox[k].run)
  {
    var e' := Answer(e, k, decision);
    var n := e.inbox[k].run;
    assert ItemOk(def, e, k);
    forall j | 0 <= j < |e'.inbox|
      ensures ItemOk(def, e', j) && (e'.inbox[j].status.Pending? ==> e'.inbox[j].run != n)
    { assert ItemOk(def, e, j); }
    forall m | 0 <= m < |e'.runs| && m != n ensures RunOk(def, e', m) { assert RunOk(def, e, m); }
  }

  lemma ResolveKeeps(def: Def, serve: Service, e: Env, k: nat, decision: Value)
    requires Coherent(def, e)
    ensures Coherent(def, ResolveStep(def, serve, e, k, decision))
    ensures CanResolve(def, e, k) <==> (k < |e.inbox| && e.inbox[k].status.Pending?)
  {
    if k < |e.inbox| && e.inbox[k].status.Pending? {
      assert ItemOk(def, e, k);
      var n := e.inbox[k].run;
      assert RunOk(def, e, n);
      AnswerLeaves(def, e, k, decision);
      ProceedKeeps(def, serve, Answer(e, k, decision), n, e.runs[n].done + [Done(decision)]);
    }
  }

  /**
   * After any history of fired runs and resolved items, in any order: pending items and
   * parked human rows match one to one, every waiting run owns exactly one row and one
   * pending item, ended runs own none.
   */
  lemma {:induction false} HistoryIsCoherent(def: Def, serve: Service, es: seq<Event>)
    ensures Coherent(def, History(def, serve, es))
  {
    if es != [] {
      HistoryIsCoherent(def, serve, es[..|es| - 1]);
      var e := History(def, serve, es[..|es| - 1]);
      match es[|es| - 1]
      case Fire(trigger) => FireKeeps(def, serve, e, trigger);
      case Resolve(k, decision) => ResolveKeeps(def, serve, e, k, decision);
    }
  }
}
