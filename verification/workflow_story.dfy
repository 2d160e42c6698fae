/** What the log and the inbox say about each run, for every history of fired runs and resolved items. */
module WorkflowStory {
  import opened Options
  import opened Workflow
  import opened WorkflowEnv

  /** The steps of run `n` that reached a participant, in order. */
  ghost function StepsOf(log: seq<Contact>, n: nat): seq<nat> {
    if log == [] then []
    else
      var last := log[|log| - 1];
      StepsOf(log[..|log| - 1], n) + (if last.run == n then [last.step] else [])
  }

  /** The inbox items of run `n`, in the order they were written. */
  ghost function ItemsOf(inbox: seq<Item>, n: nat): seq<Item> {
    if inbox == [] then []
    else
      var last := inbox[|inbox| - 1];
      ItemsOf(inbox[..|inbox| - 1], n) + (if last.run == n then [last] else [])
  }

  /** The dispatched steps among the finished ones: each finished one exactly once, in order. */
  ghost function Answered(def: Def, done: seq<Record>): seq<nat>
    requires |done| <= |def.steps|
  {
    if done == [] then []
    else
      var i := |done| - 1;
      Answered(def, done[..i]) + (if done[i].Done? && def.steps[i].action.Dispatch? then [i] else [])
  }

  /** The resolved items behind the finished human steps. */
  ghost function Decided(def: Def, n: nat, done: seq<Record>): seq<Item>
    requires |done| <= |def.steps|
  {
    if done == [] then []
    else
      var i := |done| - 1;
      Decided(def, n, done[..i]) +
      (if done[i].Done? && def.steps[i].action.Human?
       then [Item(n, def.steps[i].action.prompt, Resolved(done[i].value))] else [])
  }

  /** Step `i` was skipped exactly if its `when` failed; a dispatched one carries its participant's answer. */
  ghost predicate Faithful(def: Def, serve: Service, trigger: Value, done: seq<Record>)
    requires |done| <= |def.steps|
  {
    done != [] ==>
      var i := |done| - 1;
      && Faithful(def, serve, trigger, done[..i])
      && StepFaithful(def, serve, trigger, done[..i], done[i])
  }

  ghost predicate StepFaithful(def: Def, serve: Service, trigger: Value, before: seq<Record>, r: Record)
    requires |before| < |def.steps|
  {
    var s := def.steps[|before|];
    && (r.Done? <==> Passes(def, trigger, before))
    && (r.Done? && s.action.Dispatch? ==>
          Replied(serve, s.id, ResolveAll(def, trigger, before, s.action.payload), r.value))
  }

  /**
   * The run failed behind `done`: its next step had no payload, or its participant was reached and
   * failed, or all steps are finished and the output has no value.
   */
  ghost predicate StoppedAt(def: Def, serve: Service, trigger: Value, done: seq<Record>, steps: seq<nat>)
    requires |done| <= |def.steps|
  {
    if |done| == |def.steps| then steps == Answered(def, done) && ResolveAll(def, trigger, done, def.output).None?
    else
      var s := def.steps[|done|];
      && s.action.Dispatch? && Passes(def, trigger, done)
      && var payload := ResolveAll(def, trigger, done, s.action.payload);
         && (payload.None? ==> steps == Answered(def, done))
         && (payload.Some? ==> Refused(serve, s.id, payload.value) && steps == Answered(def, done) + [|done|])
  }

  ghost predicate Refused(serve: Service, id: string, payload: Value) {
    exists seen: seq<Contact> :: serve(id, payload, seen) == None
  }

  ghost predicate Replied(serve: Service, id: string, payload: Option<Value>, v: Value) {
    payload.Some? && exists seen: seq<Contact> :: serve(id, payload.value, seen) == Some(v)
  }

  // --- one stretch of a run -----------------------------------------------------------------

  /** `log'` continues `log` with contacts of run `n` only. */
  ghost predicate OnlyOf(log: seq<Contact>, log': seq<Contact>, n: nat) {
    log <= log' && forall i :: |log| <= i < |log'| ==> log'[i].run == n
  }

  lemma {:induction false} OthersUnmoved(log: seq<Contact>, log': seq<Contact>, n: nat, m: nat)
    requires OnlyOf(log, log', n) && m != n
    ensures StepsOf(log', m) == StepsOf(log, m)
  {
    if |log'| > |log| {
      OthersUnmoved(log, log'[..|log'| - 1], n, m);
    } else {
      assert log' == log;
    }
  }

  lemma FinishFaithful(def: Def, serve: Service, n: nat, trigger: Value, p: Progress)
    requires |p.done| < |def.steps| && Faithful(def, serve, trigger, p.done)
    requires StepsOf(p.log, n) == Answered(def, p.done)
    requires def.steps[|p.done|].action.Dispatch? && Passes(def, trigger, p.done)
    ensures var (p', ok) := Contacted(def, serve, n, trigger, p);
            && OnlyOf(p.log, p'.log, n)
            && (if ok then
                  && |p'.done| == |p.done| + 1 && p'.items == p.items
                  && Faithful(def, serve, trigger, p'.done) && StepsOf(p'.log, n) == Answered(def, p'.done)
                  && Decided(def, n, p'.done) == Decided(def, n, p.done)
                else
                  && p'.done == p.done
                  && StoppedAt(def, serve, trigger, p.done, StepsOf(p'.log, n)))
  {
    var (p', ok) := Contacted(def, serve, n, trigger, p);
    var s := def.steps[|p.done|];
    var payload := ResolveAll(def, trigger, p.done, s.action.payload);
    if payload.Some? {
      assert p'.log[..|p'.log| - 1] == p.log;
    }
    if ok {
      assert p'.done[..|p.done|] == p.done;
      var v := p'.done[|p.done|].value;
      assert serve(s.id, payload.value, p.log) == Some(v);
      assert Replied(serve, s.id, payload, v);
    } else if payload.Some? {
      assert serve(s.id, payload.value, p.log) == None;
      assert Refused(serve, s.id, payload.value);
    }
  }

  lemma SkipFaithful(def: Def, serve: Service, n: nat, trigger: Value, done: seq<Record>)
    requires |done| < |def.steps| && Faithful(def, serve, trigger, done) && !Passes(def, trigger, done)
    ensures Faithful(def, serve, trigger, done + [Skipped])
    ensures Answered(def, done + [Skipped]) == Answered(def, done)
    ensures Decided(def, n, done + [Skipped]) == Decided(def, n, done)
  {
    assert (done + [Skipped])[..|done|] == done;
  }

  /** A stretch of run `n`, from a resume to its next park or its end. */
  lemma {:induction false} AdvanceTells(def: Def, serve: Service, n: nat, trigger: Value, p: Progress)
    requires |p.done| <= |def.steps| && Faithful(def, serve, trigger, p.done)
    requires StepsOf(p.log, n) == Answered(def, p.done)
    ensures var o := Advance(def, serve, n, trigger, p);
            && |o.at.done| <= |def.steps| && OnlyOf(p.log, o.at.log, n)
            && Faithful(def, serve, trigger, o.at.done)
            && Decided(def, n, o.at.done) == Decided(def, n, p.done)
            && match o
               case Waits(q) => |q.done| < |def.steps| && Passes(def, trigger, q.done)
                                && StepsOf(q.log, n) == Answered(def, q.done)
               case Completed(q, v) => |q.done| == |def.steps| && StepsOf(q.log, n) == Answered(def, q.done)
                                       && ResolveAll(def, trigger, q.done, def.output) == Some(v)
               case Broken(q) => StoppedAt(def, serve, trigger, q.done, StepsOf(q.log, n))
    decreases |def.steps| - |p.done|
  {
    if |p.done| == |def.steps| {
    } else if !Passes(def, trigger, p.done) {
      SkipFaithful(def, serve, n, trigger, p.done);
      AdvanceTells(def, serve, n, trigger, Skip(p));
    } else if def.steps[|p.done|].action.Dispatch? {
      FinishFaithful(def, serve, n, trigger, p);
      var (p', ok) := Contacted(def, serve, n, trigger, p);
      if ok { AdvanceTells(def, serve, n, trigger, p'); }
    }
  }

  // --- the whole history ----------------------------------------------------------------

  /** Where run `n` stands is what its contacts and its items say. */
  ghost predicate Told(def: Def, serve: Service, e: Env, n: nat)
    requires n < |e.runs|
  {
    var run := e.runs[n];
    var steps := StepsOf(e.log, n);
    && |run.done| <= |def.steps| && Faithful(def, serve, run.trigger, run.done)
    && match run.stage
       case Waiting(k) =>
         && |run.done| < |def.steps| && def.steps[|run.done|].action.Human? && Passes(def, run.trigger, run.done)
         && steps == Answered(def, run.done)
         && k < |e.inbox| && (forall j :: k < j < |e.inbox| ==> e.inbox[j].run != n)
         && ItemsOf(e.inbox, n) ==
            Decided(def, n, run.done) + [Item(n, def.steps[|run.done|].action.prompt, Pending)]
       case Ended(r) =>
         && ItemsOf(e.inbox, n) == Decided(def, n, run.done)
         && match r
            case Ok(v) => |run.done| == |def.steps| && ResolveAll(def, run.trigger, run.done, def.output) == Some(v)
                          && steps == Answered(def, run.done)
            case Failed => StoppedAt(def, serve, run.trigger, run.done, steps)
            case Suspended => false
  }

  /** Items of other runs: appending and deciding items of run `n` does not touch them. */
  lemma {:induction false} ItemsUnmoved(inbox: seq<Item>, inbox': seq<Item>, n: nat, m: nat)
    requires m != n && |inbox| <= |inbox'|
    requires forall k :: 0 <= k < |inbox| ==> inbox'[k] == inbox[k] || (inbox[k].run == n && inbox'[k].run == n)
    requires forall k :: |inbox| <= k < |inbox'| ==> inbox'[k].run == n
    ensures ItemsOf(inbox', m) == ItemsOf(inbox, m)
  {
    if inbox' != [] {
      var rest := inbox'[..|inbox'| - 1];
      if |inbox'| > |inbox| {
        ItemsUnmoved(inbox, rest, n, m);
      } else {
        ItemsUnmoved(inbox[..|inbox| - 1], rest, n, m);
      }
    }
  }

  lemma {:induction false} DecideLast(inbox: seq<Item>, n: nat, k: nat, x: Item)
    requires k < |inbox| && inbox[k].run == n && x.run == n
    requires forall j :: k < j < |inbox| ==> inbox[j].run != n
    ensures ItemsOf(inbox, n) != []
    ensures ItemsOf(inbox[k := x], n) == ItemsOf(inbox, n)[..|ItemsOf(inbox, n)| - 1] + [x]
  {
    var last := |inbox| - 1;
    if k == last {
      assert inbox[k := x][..last] == inbox[..last];
    } else {
      DecideLast(inbox[..last], n, k, x);
      assert inbox[k := x][..last] == inbox[..last][k := x];
    }
  }

  /** Run `n` stands behind the finished steps `done`, with nothing pending. */
  ghost predicate Between(def: Def, serve: Service, e: Env, n: nat, done: seq<Record>) {
    && n < |e.runs| && |done| <= |def.steps| && Faithful(def, serve, e.runs[n].trigger, done)
    && StepsOf(e.log, n) == Answered(def, done) && ItemsOf(e.inbox, n) == Decided(def, n, done)
    && forall m :: 0 <= m < |e.runs| && m != n ==> Told(def, serve, e, m)
  }

  lemma ProceedTells(def: Def, serve: Service, e: Env, n: nat, done: seq<Record>)
    requires Between(def, serve, e, n, done)
    ensures var e' := Proceed(def, serve, e, n, done);
            forall m :: 0 <= m < |e'.runs| ==> Told(def, serve, e', m)
  {
    var p := Progress(done, e.log, |e.inbox|);
    var e' := Proceed(def, serve, e, n, done);
    AdvanceParks(def, serve, n, e.runs[n].trigger, p);
    AdvanceTells(def, serve, n, e.runs[n].trigger, p);
    var o := Advance(def, serve, n, e.runs[n].trigger, p);
    forall m | 0 <= m < |e'.runs| ensures Told(def, serve, e', m) {
      if m != n {
        assert Told(def, serve, e, m);
        OthersUnmoved(e.log, e'.log, n, m);
        ItemsUnmoved(e.inbox, e'.inbox, n, m);
      } else if o.Waits? {
        assert e'.inbox[..|e.inbox|] == e.inbox;
      }
    }
  }

  ghost predicate AllTold(def: Def, serve: Service, e: Env) {
    forall n :: 0 <= n < |e.runs| ==> Told(def, serve, e, n)
  }

  lemma {:induction false} NothingYet(log: seq<Contact>, inbox: seq<Item>, n: nat)
    requires forall i :: 0 <= i < |log| ==> log[i].run < n
    requires forall k :: 0 <= k < |inbox| ==> inbox[k].run < n
    ensures StepsOf(log, n) == [] && ItemsOf(inbox, n) == []
  {
    if log != [] {
      NothingYet(log[..|log| - 1], inbox, n);
    } else if inbox != [] {
      NothingYet(log, inbox[..|inbox| - 1], n);
    }
  }

  /** Contacts belong to runs that were fired. */
  ghost predicate Known(e: Env) {
    forall i :: 0 <= i < |e.log| ==> e.log[i].run < |e.runs|
  }

  lemma FireTells(def: Def, serve: Service, e: Env, trigger: Value)
    requires Coherent(def, e) && AllTold(def, serve, e) && Known(e)
    ensures AllTold(def, serve, FireStep(def, serve, e, trigger)) && Known(FireStep(def, serve, e, trigger))
  {
    var e' := e.(runs := e.runs + [Run(trigger, [], Ended(Failed))]);
    var n := |e.runs|;
    forall m | 0 <= m < n ensures Told(def, serve, e', m) { assert Told(def, serve, e, m); }
    forall k | 0 <= k < |e.inbox| ensures e.inbox[k].run < n { assert ItemOk(def, e, k); }
    NothingYet(e.log, e.inbox, n);
    ProceedTells(def, serve, e', n, []);
    AdvanceTells(def, serve, n, trigger, Progress([], e.log, |e.inbox|));
  }

  lemma AnswerOwn(def: Def, serve: Service, e: Env, n: nat, k: nat, decision: Value)
    requires n < |e.runs| && e.runs[n].stage == Waiting(k) && Told(def, serve, e, n)
    requires k < |e.inbox| && e.inbox[k] == Item(n, def.steps[|e.runs[n].done|].action.prompt, Pending)
    ensures var done := e.runs[n].done + [Done(decision)];
            var a := Answer(e, k, decision);
            && |done| <= |def.steps| && Faithful(def, serve, e.runs[n].trigger, done)
            && StepsOf(a.log, n) == Answered(def, done) && ItemsOf(a.inbox, n) == Decided(def, n, done)
  {
    var run := e.runs[n];
    assert (run.done + [Done(decision)])[..|run.done|] == run.done;
    DecideLast(e.inbox, n, k, e.inbox[k].(status := Resolved(decision)));
  }

  lemma AnswerOther(def: Def, serve: Service, e: Env, m: nat, k: nat, decision: Value)
    requires Coherent(def, e) && m < |e.runs| && Told(def, serve, e, m)
    requires k < |e.inbox| && e.inbox[k].status.Pending? && e.inbox[k].run != m
    ensures Told(def, serve, Answer(e, k, decision), m)
  {
    assert RunOk(def, e, m);
    ItemsUnmoved(e.inbox, Answer(e, k, decision).inbox, e.inbox[k].run, m);
  }

  lemma ResolveTells(def: Def, serve: Service, e: Env, k: nat, decision: Value)
    requires Coherent(def, e) && AllTold(def, serve, e) && Known(e)
    ensures var e' := ResolveStep(def, serve, e, k, decision); AllTold(def, serve, e') && Known(e')
  {
    if !CanResolve(def, e, k) { return; }
    assert ItemOk(def, e, k);
    var n := e.inbox[k].run;
    assert RunOk(def, e, n) && Told(def, serve, e, n);
    AnswerOwn(def, serve, e, n, k, decision);
    var a := Answer(e, k, decision);
    var done := e.runs[n].done + [Done(decision)];
    forall m | 0 <= m < |a.runs| && m != n ensures Told(def, serve, a, m) {
      AnswerOther(def, serve, e, m, k, decision);
    }
    ProceedTells(def, serve, a, n, done);
    AdvanceTells(def, serve, n, e.runs[n].trigger, Progress(done, e.log, |e.inbox|));
  }

  /** After any history, every run is where its contacts and its items say it is. */
  lemma {:induction false} HistoryTells(def: Def, serve: Service, es: seq<Event>)
    ensures AllTold(def, serve, History(def, serve, es)) && Known(History(def, serve, es))
  {
    if es != [] {
      var before := es[..|es| - 1];
      HistoryTells(def, serve, before);
      HistoryIsCoherent(def, serve, before);
      match es[|es| - 1]
      case Fire(trigger) => FireTells(def, serve, History(def, serve, before), trigger);
      case Resolve(k, decision) => ResolveTells(def, serve, History(def, serve, before), k, decision);
    }
  }

  // --- reading the story ------------------------------------------------------------------

  /** A finished dispatched step was dispatched once, any other not at all. */
  lemma {:induction false} AnsweredOnce(def: Def, done: seq<Record>, i: nat)
    requires |done| <= |def.steps|
    ensures multiset(Answered(def, done))[i] ==
            if i < |done| && done[i].Done? && def.steps[i].action.Dispatch? then 1 else 0
  {
    if done != [] {
      AnsweredOnce(def, done[..|done| - 1], i);
    }
  }

  ghost predicate DecidedAt(def: Def, n: nat, done: seq<Record>, i: nat, x: Item)
    requires |done| <= |def.steps|
  {
    && i < |done| && done[i].Done? && def.steps[i].action.Human?
    && x == Item(n, def.steps[i].action.prompt, Resolved(done[i].value))
  }

  lemma {:induction false} DecidedFrom(def: Def, n: nat, done: seq<Record>, x: Item)
    requires |done| <= |def.steps|
    ensures x in Decided(def, n, done) <==> exists i :: 0 <= i < |done| && DecidedAt(def, n, done, i, x)
  {
    if done != [] {
      var last := |done| - 1;
      var before := done[..last];
      DecidedFrom(def, n, before, x);
      if x in Decided(def, n, before) {
        var i :| 0 <= i < last && DecidedAt(def, n, before, i, x);
        assert DecidedAt(def, n, done, i, x);
      } else if exists i :: 0 <= i < |done| && DecidedAt(def, n, done, i, x) {
        var i :| 0 <= i < |done| && DecidedAt(def, n, done, i, x);
        if i < last { assert DecidedAt(def, n, before, i, x); }
      }
      assert x in Decided(def, n, done) && x !in Decided(def, n, before) ==> DecidedAt(def, n, done, last, x);
    }
  }

  /** Over any history, each step of a run reaches its participant at most once. */
  lemma EachStepOnce(def: Def, serve: Service, es: seq<Event>, n: nat, i: nat)
    requires n < |History(def, serve, es).runs|
    ensures multiset(StepsOf(History(def, serve, es).log, n))[i] <= 1
  {
    HistoryTells(def, serve, es);
    var e := History(def, serve, es);
    assert Told(def, serve, e, n);
    AnsweredOnce(def, e.runs[n].done, i);
  }
}
