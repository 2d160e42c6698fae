/** The guardian's hub, updated in place: firing runs, resolving human steps, driving a run to its end. */
module WorkflowHarness {
  import opened Options
  import opened Workflow
  import opened WorkflowEnv

  datatype Driven = Finished(result: TaskResult) | NothingPending | TooManyParks

  /** The item `listPending` puts first: the pending one written last. */
  function NewestPending(inbox: seq<Item>): (r: Option<nat>)
    ensures r.None? <==> forall k :: 0 <= k < |inbox| ==> inbox[k].status.Resolved?
    ensures r.Some? ==> r.value < |inbox| && inbox[r.value].status.Pending?
    ensures r.Some? ==> forall k :: r.value < k < |inbox| ==> inbox[k].status.Resolved?
  {
    if inbox == [] then None
    else
      var last := |inbox| - 1;
      if inbox[last].status.Pending? then Some(last) else NewestPending(inbox[..last])
  }

  /** The item a freshly fired run parks on is the newest pending one. */
  lemma FiredIsNewest(def: Def, serve: Service, e: Env, trigger: Value)
    requires Coherent(def, e)
    ensures var e' := FireStep(def, serve, e, trigger);
            var n := |e.runs|;
            && n < |e'.runs|
            && (e'.runs[n].stage.Waiting? ==>
                  NewestPending(e'.inbox) == Some(e'.runs[n].stage.item) && e'.runs[n].stage.item == |e.inbox|)
            && (e'.runs[n].stage.Ended? ==> NewestPending(e'.inbox) == NewestPending(e.inbox))
  {
    var p := Progress([], e.log, |e.inbox|);
    AdvanceParks(def, serve, |e.runs|, trigger, p);
    FireKeeps(def, serve, e, trigger);
  }

  /** Run `n` answered by `decide` from the item it waits for to its end. */
  ghost function Ahead(def: Def, serve: Service, decide: Item -> Value, e: Env, n: nat): Outcome
    requires Coherent(def, e) && n < |e.runs| && e.runs[n].stage.Waiting?
  {
    assert RunOk(def, e, n);
    var run := e.runs[n];
    Direct(def, serve, decide, n, run.trigger,
           Progress(run.done + [Done(decide(e.inbox[run.stage.item]))], e.log, |e.inbox|))
  }

  /** Only run `n` and its items moved between `e` and `e'`. */
  ghost predicate OnlyRun(e: Env, e': Env, n: nat) {
    && |e.runs| == |e'.runs| && |e.inbox| <= |e'.inbox|
    && (forall m :: 0 <= m < |e.runs| && m != n ==> e'.runs[m] == e.runs[m])
    && (forall k :: 0 <= k < |e.inbox| && e.inbox[k].run != n ==> e'.inbox[k] == e.inbox[k])
    && (forall k :: 0 <= k < |e.inbox| ==> e'.inbox[k].run == e.inbox[k].run)
    && (forall k :: |e.inbox| <= k < |e'.inbox| ==> e'.inbox[k].run == n)
  }

  /** Run `n` waits for the newest pending item. */
  ghost predicate Front(e: Env, n: nat) {
    n < |e.runs| && e.runs[n].stage.Waiting? && NewestPending(e.inbox) == Some(e.runs[n].stage.item)
  }

  /** The run that owns the newest pending item. */
  lemma FrontRun(def: Def, e: Env, k: nat)
    requires Coherent(def, e) && NewestPending(e.inbox) == Some(k)
    ensures Front(e, e.inbox[k].run) && e.runs[e.inbox[k].run].stage == Waiting(k)
  {
    assert ItemOk(def, e, k);
  }

  /** Resolving the newest item brings its run one human step further, or ends it; nothing else moves. */
  lemma DriveOnce(def: Def, serve: Service, decide: Item -> Value, e: Env, n: nat)
    requires Coherent(def, e) && Front(e, n)
    ensures var k := e.runs[n].stage.item;
            k < |e.inbox|
            && var e' := ResolveStep(def, serve, e, k, decide(e.inbox[k]));
               var d := Ahead(def, serve, decide, e, n);
               && Coherent(def, e') && OnlyRun(e, e', n)
               && e'.runs[n].trigger == e.runs[n].trigger
               && (if e'.runs[n].stage.Waiting? then
                     && e'.runs[n].stage == Waiting(|e.inbox|) && |e'.inbox| == |e.inbox| + 1 && Front(e', n)
                     && Ahead(def, serve, decide, e', n) == d
                     && |e.runs[n].done| < |e'.runs[n].done| < |def.steps|
                   else
                     && e'.runs[n].done == d.at.done && e'.runs[n].stage == Ended(ResultOf(d))
                     && e'.log == d.at.log && |e'.inbox| == |e.inbox| == d.at.items)
  {
    assert RunOk(def, e, n);
    var run := e.runs[n];
    var k := run.stage.item;
    var v := decide(e.inbox[k]);
    ResolveKeeps(def, serve, e, k, v);
    var p := Progress(run.done + [Done(v)], e.log, |e.inbox|);
    AdvanceParks(def, serve, n, run.trigger, p);
    ParkingIsTransparent(def, serve, decide, n, run.trigger, p);
    var e' := ResolveStep(def, serve, e, k, v);
    assert e' == Proceed(def, serve, Answer(e, k, v), n, p.done);
    DirectEnds(def, serve, decide, n, run.trigger, p);
  }

  /** How many further items the front run can write. */
  lemma DriveBound(def: Def, serve: Service, decide: Item -> Value, e: Env, n: nat)
    requires Coherent(def, e) && n < |e.runs| && e.runs[n].stage.Waiting?
    ensures var d := Ahead(def, serve, decide, e, n);
            && |e.runs[n].done| < |def.steps| && !d.Waits?
            && |e.inbox| <= d.at.items < |e.inbox| + HumanSteps(def.steps, |e.runs[n].done|)
  {
    assert RunOk(def, e, n);
    var run := e.runs[n];
    DirectEnds(def, serve, decide, n, run.trigger,
               Progress(run.done + [Done(decide(e.inbox[run.stage.item]))], e.log, |e.inbox|));
  }

  /** `gates` are the items resolved for run `n` since `e`; `result` is what the last resolve returned. */
  ghost predicate Driving(def: Def, serve: Service, decide: Item -> Value, e: Env, e': Env, n: nat,
                          gates: seq<Item>, result: TaskResult)
  {
    && Coherent(def, e) && Coherent(def, e') && Front(e, n) && OnlyRun(e, e', n)
    && e'.runs[n].trigger == e.runs[n].trigger
    && e.runs[n].stage.item < |e.inbox|
    && (if gates == [] then e' == e else gates[0] == e.inbox[e.runs[n].stage.item])
    && (forall i :: 0 <= i < |gates| ==> gates[i].run == n)
    && var d := Ahead(def, serve, decide, e, n);
       if result.Suspended? then
         && |e'.inbox| == |e.inbox| + |gates| && Front(e', n)
         && Ahead(def, serve, decide, e', n) == d
       else
         && gates != [] && result == ResultOf(d)
         && |e'.inbox| == d.at.items && |gates| == 1 + d.at.items - |e.inbox|
         && e'.runs[n] == Run(e.runs[n].trigger, d.at.done, Ended(ResultOf(d))) && e'.log == d.at.log
  }

  lemma DrivingStep(def: Def, serve: Service, decide: Item -> Value, e: Env, e': Env, n: nat, gates: seq<Item>)
    requires Driving(def, serve, decide, e, e', n, gates, Suspended)
    ensures Front(e', n)
    ensures var k := e'.runs[n].stage.item;
            && k < |e'.inbox| && e'.inbox[k].run == n && e'.inbox[k].status.Pending?
            && var e'' := ResolveStep(def, serve, e', k, decide(e'.inbox[k]));
               && n < |e''.runs| && RunTask(n) in e''.results
               && Driving(def, serve, decide, e, e'', n, gates + [e'.inbox[k]], e''.results[RunTask(n)])
               && (e''.results[RunTask(n)].Suspended? ==> |e'.runs[n].done| < |e''.runs[n].done| <= |def.steps|)
  {
    DriveOnce(def, serve, decide, e', n);
    DriveBound(def, serve, decide, e', n);
    var k := e'.runs[n].stage.item;
    assert RunOk(def, e', n);
    assert ItemOk(def, e', k);
    var e'' := ResolveStep(def, serve, e', k, decide(e'.inbox[k]));
    assert RunOk(def, e'', n);
  }

  class Harness {
    const def: Def
    const serve: Service
    var inbox: seq<Item>
    var parked: map<TaskId, Row>
    var results: map<TaskId, TaskResult>
    var runs: seq<Run>
    var log: seq<Contact>

    ghost function View(): Env
      reads this
    {
      Env(inbox, parked, results, runs, log)
    }

    ghost predicate Valid()
      reads this
    {
      Coherent(def, View())
    }

    constructor (def: Def, serve: Service)
      ensures this.def == def && this.serve == serve && View() == Empty && Valid()
    {
      this.def, this.serve := def, serve;
      inbox, parked, results, runs, log := [], map[], map[], [], [];
    }

    /** `executeStartingAt`: one step after the other until one parks or fails, or all are done. */
    method RunFrom(n: nat, start: seq<Record>)
      requires n < |runs| && |start| <= |def.steps|
      modifies this
      ensures View() == Proceed(def, serve, old(View()), n, start)
    {
      var trigger := runs[n].trigger;
      var done := start;
      ghost var target := Advance(def, serve, n, trigger, Progress(start, log, |inbox|));
      AdvanceParks(def, serve, n, trigger, Progress(start, log, |inbox|));
      while |done| < |def.steps|
        invariant |done| <= |def.steps|
        invariant View() == old(View()).(log := log)
        invariant Advance(def, serve, n, trigger, Progress(done, log, |inbox|)) == target
        decreases |def.steps| - |done|
      {
        var step := def.steps[|done|];
        var passed := step.when.None? || Truthy(Eval(def.steps, trigger, done, step.when.value));
        if !passed {
          done := done + [Skipped];
        } else {
          match step.action {
            case Human(prompt) =>
              var k := |inbox|;
              inbox := inbox + [Item(n, prompt, Pending)];
              parked := parked[HumanTask(k) := HumanRow];
              results := results[HumanTask(k) := Suspended];
              runs := runs[n := Run(trigger, done, Waiting(k))];
              parked := parked[RunTask(n) := RunRow(runs[n])];
              results := results[RunTask(n) := Suspended];
              return;
            case Dispatch(fields) =>
              var payload := ResolveAll(def, trigger, done, fields);
              var reply: Option<Value> := None;
              if payload.Some? {
                reply := serve(step.id, payload.value, log);
                log := log + [Contact(n, |done|, payload.value)];
              }
              if reply.None? {
                FinishRun(n, trigger, done, Failed);
                return;
              }
              done := done + [Done(reply.value)];
          }
        }
      }
      var output := ResolveAll(def, trigger, done, def.output);
      FinishRun(n, trigger, done, if output.Some? then Ok(output.value) else Failed);
    }

    method FinishRun(n: nat, trigger: Value, done: seq<Record>, result: TaskResult)
      requires n < |runs|
      modifies this
      ensures View() == old(View()).(parked := old(parked) - {RunTask(n)},
                                     results := old(results)[RunTask(n) := result],
                                     runs := old(runs)[n := Run(trigger, done, Ended(result))])
    {
      runs := runs[n := Run(trigger, done, Ended(result))];
      results := results[RunTask(n) := result];
      parked := parked - {RunTask(n)};
    }

    /** Fire the workflow. */
    method DispatchLesson(trigger: Value) returns (n: nat, result: TaskResult)
      requires Valid()
      modifies this
      ensures Valid() && View() == FireStep(def, serve, old(View()), trigger)
      ensures n == |old(runs)| && RunTask(n) in results && result == results[RunTask(n)]
      ensures result.Suspended? ==> n < |runs| && runs[n].stage == Waiting(|old(inbox)|)
                                    && NewestPending(inbox) == Some(|old(inbox)|)
    {
      FireKeeps(def, serve, View(), trigger);
      FiredIsNewest(def, serve, View(), trigger);
      n := |runs|;
      runs := runs + [Run(trigger, [], Ended(Failed))];
      RunFrom(n, []);
      assert RunOk(def, View(), n);
      result := results[RunTask(n)];
    }

    /** `resumeRun`: fold the human step's latest result into the run, or park again. */
    method ResumeRun(n: nat, state: Run) returns (result: TaskResult)
      requires n < |runs| && parked.Keys >= {RunTask(n)} && runs[n] == state && state.stage.Waiting?
      requires |state.done| < |def.steps|
      modifies this
      ensures var answer := if HumanTask(state.stage.item) in old(results)
                            then old(results)[HumanTask(state.stage.item)]
                            else Suspended;
              match answer
              case Suspended =>
                result.Suspended? && View() == old(View()).(parked := old(parked)[RunTask(n) := RunRow(state)])
              case Failed =>
                result.Failed? && View() == EndRun(old(View()), n, Broken(Progress(state.done, old(log), |old(inbox)|)))
              case Ok(v) =>
                && View() == Proceed(def, serve, old(View()), n, state.done + [Done(v)])
                && RunTask(n) in results && result == results[RunTask(n)]
    {
      var answer := Suspended;
      if HumanTask(state.stage.item) in results {
        answer := results[HumanTask(state.stage.item)];
      }
      match answer {
        case Suspended =>
          parked := parked[RunTask(n) := RunRow(state)];
          result := Suspended;
        case Failed =>
          FinishRun(n, state.trigger, state.done, Failed);
          result := Failed;
        case Ok(v) =>
          RunFrom(n, state.done + [Done(v)]);
          result := results[RunTask(n)];
      }
    }

    /** A wake of a parked run whose human step is still undecided parks it again, unchanged. */
    method WakeRun(n: nat) returns (result: TaskResult)
      requires Valid() && n < |runs| && runs[n].stage.Waiting?
      modifies this
      ensures Valid() && View() == old(View()) && result.Suspended?
    {
      assert RunOk(def, View(), n);
      var k := runs[n].stage.item;
      assert ItemOk(def, View(), k);
      result := ResumeRun(n, parked[RunTask(n)].state);
      assert parked == old(parked);
    }

    /** Flip the item, resume the human step, then resume the run behind it. */
    method ResolveHumanStep(k: nat, decision: Value) returns (r: Option<TaskResult>)
      requires Valid()
      modifies this
      ensures Valid() && View() == ResolveStep(def, serve, old(View()), k, decision)
      ensures r.Some? <==> k < |old(inbox)| && old(inbox)[k].status.Pending?
      ensures r.Some? ==> RunTask(old(inbox)[k].run) in results && r.value == results[RunTask(old(inbox)[k].run)]
    {
      if k >= |inbox| || inbox[k].status.Resolved? {
        return None;
      }
      ResolveKeeps(def, serve, View(), k, decision);
      ghost var e := View();
      assert ItemOk(def, e, k);
      var n := inbox[k].run;
      assert RunOk(def, e, n);
      inbox := inbox[k := inbox[k].(status := Resolved(decision))];
      results := results[HumanTask(k) := Ok(decision)];
      parked := parked - {HumanTask(k)};
      assert View() == Answer(e, k, decision);
      var result := ResumeRun(n, parked[RunTask(n)].state);
      r := Some(result);
    }

    /** The pending items, newest first. */
    method ListPending() returns (ids: seq<nat>)
      ensures forall i :: 0 <= i < |ids| ==> ids[i] < |inbox| && inbox[ids[i]].status.Pending?
      ensures forall i, j :: 0 <= i < j < |ids| ==> ids[i] > ids[j]
      ensures forall k :: 0 <= k < |inbox| && inbox[k].status.Pending? ==> k in ids
      ensures NewestPending(inbox) == if ids == [] then None else Some(ids[0])
    {
      ids := [];
      var k: nat := |inbox|;
      while k > 0
        invariant k <= |inbox|
        invariant forall i :: 0 <= i < |ids| ==> k <= ids[i] < |inbox| && inbox[ids[i]].status.Pending?
        invariant forall i, j :: 0 <= i < j < |ids| ==> ids[i] > ids[j]
        invariant forall j :: k <= j < |inbox| && inbox[j].status.Pending? ==> j in ids
      {
        k := k - 1;
        if inbox[k].status.Pending? { ids := ids + [k]; }
      }
      if ids != [] {
        var newest := NewestPending(inbox);
        assert ids[0] in ids && newest.value in ids;
        var i :| 0 <= i < |ids| && ids[i] == newest.value;
      }
    }

    /**
     * Answer what the inbox lists first until the fired run no longer waits.  It drives the
     * run that owns the newest pending item, and ends exactly as if that run's human steps
     * had been answered on the spot; it gives up exactly if more than ten of them come up.
     */
    method DriveToCompletion(fired: TaskResult, decide: Item -> Value) returns (out: Driven, gates: seq<Item>)
      requires Valid()
      modifies this
      ensures Valid()
      ensures !fired.Suspended? ==> out == Finished(fired) && gates == [] && View() == old(View())
      ensures fired.Suspended? && NewestPending(old(inbox)).None? ==>
                out.NothingPending? && gates == [] && View() == old(View())
      ensures fired.Suspended? && NewestPending(old(inbox)).Some? ==>
                var k := NewestPending(old(inbox)).value;
                var n := old(inbox)[k].run;
                && n < |old(runs)| && old(runs)[n].stage.Waiting?
                && var d := Ahead(def, serve, decide, old(View()), n);
                   && OnlyRun(old(View()), View(), n)
                   && gates != [] && gates[0] == old(inbox)[k]
                   && (forall i :: 0 <= i < |gates| ==> gates[i].run == n)
                   && (out.TooManyParks? <==> 1 + d.at.items - |old(inbox)| > 10)
                   && (!out.TooManyParks? ==>
                         && out == Finished(ResultOf(d))
                         && |gates| == 1 + d.at.items - |old(inbox)|
                         && View().runs[n] == Run(old(runs)[n].trigger, d.at.done, Ended(ResultOf(d)))
                         && log == d.at.log && |inbox| == d.at.items)
                   && |old(runs)[n].done| < |def.steps|
                   && (HumanSteps(def.steps, |old(runs)[n].done|) <= 10 ==> !out.TooManyParks?)
    {
      var result := fired;
      gates := [];
      ghost var e := View();
      ghost var n := 0;
      if fired.Suspended? && NewestPending(inbox).Some? {
        n := inbox[NewestPending(inbox).value].run;
        FrontRun(def, e, NewestPending(inbox).value);
        DriveBound(def, serve, decide, e, n);
      }
      ghost var driving := fired.Suspended? && NewestPending(inbox).Some?;
      while result.Suspended?
        invariant Valid()
        invariant |gates| <= 10
        invariant driving ==> Driving(def, serve, decide, e, View(), n, gates, result)
        invariant !driving ==> View() == e && result == fired && gates == []
        decreases result.Suspended?, if driving && n < |runs| then |def.steps| - |runs[n].done| else 0
      {
        if |gates| == 10 {
          DriveBound(def, serve, decide, View(), n);
          return TooManyParks, gates;
        }
        var pending := ListPending();
        if pending == [] {
          return NothingPending, gates;
        }
        var k := pending[0];
        DrivingStep(def, serve, decide, e, View(), n, gates);
        gates := gates + [inbox[k]];
        var r := ResolveHumanStep(k, decide(inbox[k]));
        result := r.value;
      }
      out := Finished(result);
    }
  }
}
