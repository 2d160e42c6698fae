/** What each participant was asked, and what its answer became, for every history. */
module WorkflowAsks {
  import opened Options
  import opened Workflow
  import opened WorkflowEnv
  import opened WorkflowStory

  /**
   * The i-th contact asked the participant of its step for exactly what the step's payload says,
   * given the run's trigger and the steps before; its answer is the record of the step, and a
   * failure ended the run there.
   */
  ghost predicate AskedAt(def: Def, serve: Service, trigger: Value, done: seq<Record>, log: seq<Contact>, i: nat)
    requires i < |log|
  {
    var c := log[i];
    && c.step < |def.steps| && c.step <= |done| && |done| <= |def.steps| && def.steps[c.step].action.Dispatch?
    && ResolveAll(def, trigger, done[..c.step], def.steps[c.step].action.payload) == Some(c.payload)
    && serve(def.steps[c.step].id, c.payload, log[..i])
       == (if c.step < |done| && done[c.step].Done? then Some(done[c.step].value) else None)
  }

  /** Every contact of run `n` from position `from` on is such a one. */
  ghost predicate AsksOf(def: Def, serve: Service, n: nat, trigger: Value, done: seq<Record>, log: seq<Contact>,
                         from: nat) {
    forall i :: from <= i < |log| && log[i].run == n ==> AskedAt(def, serve, trigger, done, log, i)
  }

  /** More records, a longer log: what was asked and answered stays so. */
  lemma AskedLonger(def: Def, serve: Service, trigger: Value, done: seq<Record>, done': seq<Record>,
                    log: seq<Contact>, log': seq<Contact>, i: nat)
    requires i < |log| && log <= log' && done <= done' && |done'| <= |def.steps|
    requires AskedAt(def, serve, trigger, done, log, i) && log[i].step < |done|
    ensures AskedAt(def, serve, trigger, done', log', i)
  {
    assert log'[..i] == log[..i] && done'[..log[i].step] == done[..log[i].step];
  }

  /** No contact waits for its record: all of them are of finished steps. */
  ghost predicate Recorded(n: nat, done: seq<Record>, log: seq<Contact>, from: nat) {
    forall i :: from <= i < |log| && log[i].run == n ==> log[i].step < |done| && done[log[i].step].Done?
  }

  lemma ContactedAsks(def: Def, serve: Service, n: nat, trigger: Value, p: Progress, from: nat)
    requires |p.done| < |def.steps| && def.steps[|p.done|].action.Dispatch? && from <= |p.log|
    requires AsksOf(def, serve, n, trigger, p.done, p.log, from) && Recorded(n, p.done, p.log, from)
    ensures var (p', ok) := Contacted(def, serve, n, trigger, p);
            && p.log <= p'.log && AsksOf(def, serve, n, trigger, p'.done, p'.log, from)
            && (ok ==> Recorded(n, p'.done, p'.log, from) && |p'.done| == |p.done| + 1)
            && p.done <= p'.done && |p'.done| <= |def.steps|
  {
    var (p', ok) := Contacted(def, serve, n, trigger, p);
    assert p'.done[..|p.done|] == p.done;
    forall i | from <= i < |p'.log| && p'.log[i].run == n ensures AskedAt(def, serve, trigger, p'.done, p'.log, i) {
      if i < |p.log| {
        assert p'.log[i] == p.log[i];
        AskedLonger(def, serve, trigger, p.done, p'.done, p.log, p'.log, i);
      } else {
        assert p'.log[..i] == p.log;
      }
    }
  }

  lemma SkipAsks(def: Def, serve: Service, n: nat, trigger: Value, p: Progress, from: nat)
    requires |p.done| < |def.steps| && from <= |p.log|
    requires AsksOf(def, serve, n, trigger, p.done, p.log, from) && Recorded(n, p.done, p.log, from)
    ensures AsksOf(def, serve, n, trigger, Skip(p).done, p.log, from) && Recorded(n, Skip(p).done, p.log, from)
  {
    forall i | from <= i < |p.log| && p.log[i].run == n ensures AskedAt(def, serve, trigger, Skip(p).done, p.log, i) {
      AskedLonger(def, serve, trigger, p.done, Skip(p).done, p.log, p.log, i);
    }
  }

  lemma {:induction false} AdvanceAsks(def: Def, serve: Service, n: nat, trigger: Value, p: Progress, from: nat)
    requires |p.done| <= |def.steps| && from <= |p.log|
    requires AsksOf(def, serve, n, trigger, p.done, p.log, from) && Recorded(n, p.done, p.log, from)
    ensures var o := Advance(def, serve, n, trigger, p);
            && p.log <= o.at.log && AsksOf(def, serve, n, trigger, o.at.done, o.at.log, from)
            && (!o.Broken? ==> Recorded(n, o.at.done, o.at.log, from))
    decreases |def.steps| - |p.done|
  {
    if |p.done| == |def.steps| {
    } else if !Passes(def, trigger, p.done) {
      SkipAsks(def, serve, n, trigger, p, from);
      AdvanceAsks(def, serve, n, trigger, Skip(p), from);
    } else if def.steps[|p.done|].action.Dispatch? {
      ContactedAsks(def, serve, n, trigger, p, from);
      var (p', ok) := Contacted(def, serve, n, trigger, p);
      if ok { AdvanceAsks(def, serve, n, trigger, p', from); }
    }
  }

  // --- every history ---------------------------------------------------------------------------

  ghost predicate RunAsked(def: Def, serve: Service, e: Env, n: nat)
    requires n < |e.runs|
  {
    && AsksOf(def, serve, n, e.runs[n].trigger, e.runs[n].done, e.log, 0)
    && (e.runs[n].stage.Waiting? ==> Recorded(n, e.runs[n].done, e.log, 0))
  }

  ghost predicate AllAsked(def: Def, serve: Service, e: Env) {
    && (forall n :: 0 <= n < |e.runs| ==> RunAsked(def, serve, e, n))
    && (forall i :: 0 <= i < |e.log| ==> e.log[i].run < |e.runs|)
  }

  /** A log that grew by contacts of another run says the same about this one. */
  lemma OtherAsked(def: Def, serve: Service, n: nat, trigger: Value, done: seq<Record>,
                   log: seq<Contact>, log': seq<Contact>)
    requires AsksOf(def, serve, n, trigger, done, log, 0) && log <= log'
    requires forall i :: |log| <= i < |log'| ==> log'[i].run != n
    ensures AsksOf(def, serve, n, trigger, done, log', 0)
  {
    forall i | 0 <= i < |log'| && log'[i].run == n ensures AskedAt(def, serve, trigger, done, log', i) {
      assert log'[i] == log[i] && log'[..i] == log[..i];
      assert AskedAt(def, serve, trigger, done, log, i);
    }
  }

  lemma {:induction false} AdvanceOnlyOwn(def: Def, serve: Service, n: nat, trigger: Value, p: Progress)
    requires |p.done| <= |def.steps|
    ensures OnlyOf(p.log, Advance(def, serve, n, trigger, p).at.log, n)
    decreases |def.steps| - |p.done|
  {
    if |p.done| == |def.steps| {
    } else if !Passes(def, trigger, p.done) {
      AdvanceOnlyOwn(def, serve, n, trigger, Skip(p));
    } else if def.steps[|p.done|].action.Dispatch? {
      var (p', ok) := Contacted(def, serve, n, trigger, p);
      if ok { AdvanceOnlyOwn(def, serve, n, trigger, p'); }
    }
  }

  lemma ProceedAsks(def: Def, serve: Service, e: Env, n: nat, done: seq<Record>)
    requires n < |e.runs| && |done| <= |def.steps|
    requires AsksOf(def, serve, n, e.runs[n].trigger, done, e.log, 0) && Recorded(n, done, e.log, 0)
    requires forall m :: 0 <= m < |e.runs| && m != n ==> RunAsked(def, serve, e, m)
    requires forall i :: 0 <= i < |e.log| ==> e.log[i].run < |e.runs|
    ensures AllAsked(def, serve, Proceed(def, serve, e, n, done))
  {
    var p := Progress(done, e.log, |e.inbox|);
    var e' := Proceed(def, serve, e, n, done);
    AdvanceParks(def, serve, n, e.runs[n].trigger, p);
    AdvanceAsks(def, serve, n, e.runs[n].trigger, p, 0);
    AdvanceOnlyOwn(def, serve, n, e.runs[n].trigger, p);
    forall m | 0 <= m < |e'.runs| ensures RunAsked(def, serve, e', m) {
      if m != n {
        assert RunAsked(def, serve, e, m);
        OtherAsked(def, serve, m, e.runs[m].trigger, e.runs[m].done, e.log, e'.log);
      }
    }
  }

  lemma FireAsks(def: Def, serve: Service, e: Env, trigger: Value)
    requires AllAsked(def, serve, e)
    ensures AllAsked(def, serve, FireStep(def, serve, e, trigger))
  {
    var e' := e.(runs := e.runs + [Run(trigger, [], Ended(Failed))]);
    forall m | 0 <= m < |e.runs| ensures RunAsked(def, serve, e', m) { assert RunAsked(def, serve, e, m); }
    ProceedAsks(def, serve, e', |e.runs|, []);
  }

  lemma ResolveAsks(def: Def, serve: Service, e: Env, k: nat, decision: Value)
    requires Coherent(def, e) && AllAsked(def, serve, e)
    ensures AllAsked(def, serve, ResolveStep(def, serve, e, k, decision))
  {
    if !CanResolve(def, e, k) { return; }
    assert ItemOk(def, e, k);
    var n := e.inbox[k].run;
    assert RunOk(def, e, n) && RunAsked(def, serve, e, n);
    var run, a := e.runs[n], Answer(e, k, decision);
    var done := run.done + [Done(decision)];
    forall i | 0 <= i < |e.log| && e.log[i].run == n ensures AskedAt(def, serve, run.trigger, done, e.log, i) {
      AskedLonger(def, serve, run.trigger, run.done, done, e.log, e.log, i);
    }
    forall m | 0 <= m < |a.runs| && m != n ensures RunAsked(def, serve, a, m) { assert RunAsked(def, serve, e, m); }
    ProceedAsks(def, serve, a, n, done);
  }

  /** After any history every contact asked for exactly what its step's payload says. */
  lemma {:induction false} HistoryAsks(def: Def, serve: Service, es: seq<Event>)
    ensures AllAsked(def, serve, History(def, serve, es))
  {
    if es != [] {
      var before := es[..|es| - 1];
      HistoryAsks(def, serve, before);
      HistoryIsCoherent(def, serve, before);
      match es[|es| - 1]
      case Fire(trigger) => FireAsks(def, serve, History(def, serve, before), trigger);
      case Resolve(k, decision) => ResolveAsks(def, serve, History(def, serve, before), k, decision);
    }
  }
}
