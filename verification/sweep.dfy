/**
 * Long-running remote reviews as workflow steps: a review parks with a poll counter, its run
 * parks behind it, and a sweep resumes every parked row once, in any order.  Firing a run takes
 * three stretches: its review's row, the review's suspended result, the run's row.
 */
module Sweep {
  import opened Numbers

  datatype RowId = Review(job: nat) | RunOf(job: nat)

  /** What the firing of a run still has to do: record that its review waits, then park the run. */
  datatype Firing = Recording | Parking | Fired

  /** A review settles at its `need`-th poll; `polls` is how often the remote was asked. */
  datatype Job = Job(need: nat, polls: nat, firing: Firing)

  /**
   * `parked` holds the attempt a review carries (a run carries none); `results` the settled
   * reviews, `ended` the finished runs; `sent` and `archive` log the effects.
   */
  datatype World = World(
    jobs: seq<Job>,
    parked: map<RowId, nat>,
    results: map<nat, bool>,
    ended: map<nat, bool>,
    sent: seq<nat>,
    archive: seq<nat>)

  /** A run is fired, or its firing goes on. */
  datatype Aside = Fire(need: nat) | GoOn(job: nat)

  /** Within a sweep a row is resumed, or a firing moves in between. */
  datatype Tick = Row(row: RowId) | Amid(move: Aside)

  datatype Event = Between(move: Aside) | SweepAll(ticks: seq<Tick>)

  const Empty := World([], map[], map[], map[], [], [])

  /** The trigger fires: one `message/send`, the remote suspends, the review parks. */
  function FireStep(w: World, need: nat): World {
    var n := |w.jobs|;
    w.(jobs := w.jobs + [Job(need, 0, Recording)], sent := w.sent + [n], parked := w.parked[Review(n) := 1])
  }

  /** The review's suspended result becomes its latest; then the run parks behind it. */
  function GoOnStep(w: World, n: nat): World {
    if n >= |w.jobs| then w
    else
      match w.jobs[n].firing
      case Recording => w.(jobs := w.jobs[n := w.jobs[n].(firing := Parking)], results := w.results - {n})
      case Parking => w.(jobs := w.jobs[n := w.jobs[n].(firing := Fired)], parked := w.parked[RunOf(n) := 0])
      case Fired => w
  }

  function AsideStep(w: World, a: Aside): World {
    match a case Fire(need) => FireStep(w, need) case GoOn(n) => GoOnStep(w, n)
  }

  /** One `tasks/get`: settle, poll again later, or fail closed at the last attempt. */
  function ResumeReview(max: nat, w: World, n: nat): World
    requires n < |w.jobs| && Review(n) in w.parked
  {
    var job := w.jobs[n].(polls := w.jobs[n].polls + 1);
    var w' := w.(jobs := w.jobs[n := job]);
    if job.polls >= job.need then w'.(results := w.results[n := true], parked := w.parked - {Review(n)})
    else if w.parked[Review(n)] + 1 > max then w'.(results := w.results[n := false], parked := w.parked - {Review(n)})
    else w'.(parked := w.parked[Review(n) := w.parked[Review(n)] + 1])
  }

  /** The run folds its review's result: wait on, run the archive step, or fail. */
  function ResumeRun(w: World, n: nat): World {
    if n !in w.results then w.(parked := w.parked[RunOf(n) := 0])
    else if w.results[n] then
      w.(archive := w.archive + [n], ended := w.ended[n := true], parked := w.parked - {RunOf(n)})
    else w.(ended := w.ended[n := false], parked := w.parked - {RunOf(n)})
  }

  function ResumeRow(max: nat, w: World, row: RowId): World {
    if row !in w.parked || row.job >= |w.jobs| then w
    else match row case Review(n) => ResumeReview(max, w, n) case RunOf(n) => ResumeRun(w, n)
  }

  function TickStep(max: nat, w: World, t: Tick): World {
    match t case Row(row) => ResumeRow(max, w, row) case Amid(a) => AsideStep(w, a)
  }

  /** A sweep over the rows in the given order, with whatever firings move in between. */
  function SweepStep(max: nat, w: World, ticks: seq<Tick>): World {
    if ticks == [] then w
    else TickStep(max, SweepStep(max, w, ticks[..|ticks| - 1]), ticks[|ticks| - 1])
  }

  /** The sweep goes over the rows parked when it begins, each once. */
  ghost predicate Snapshot(w: World, ticks: seq<Tick>) {
    && (forall row :: Row(row) in ticks <==> row in w.parked)
    && (forall i, j :: 0 <= i < j < |ticks| && ticks[i].Row? ==> ticks[i] != ticks[j])
  }

  function Step(max: nat, w: World, e: Event): World {
    match e case Between(a) => AsideStep(w, a) case SweepAll(ticks) => SweepStep(max, w, ticks)
  }

  function Run(max: nat, es: seq<Event>): World {
    if es == [] then Empty else Step(max, Run(max, es[..|es| - 1]), es[|es| - 1])
  }

  /** Every sweep of the history goes over exactly the rows parked at its start. */
  ghost predicate FullSweeps(max: nat, es: seq<Event>) {
    es != [] ==>
      && FullSweeps(max, es[..|es| - 1])
      && (es[|es| - 1].SweepAll? ==> Snapshot(Run(max, es[..|es| - 1]), es[|es| - 1].ticks))
  }

  // --- where a job can be -----------------------------------------------------------------

  function AtLeastOne(n: nat): nat { if n == 0 then 1 else n }

  /** The poll at which a review settles, one way or the other. */
  function Last(max: nat, need: nat): nat { Min(AtLeastOne(need), max) }

  /** It settles well exactly if the remote is done within the attempts. */
  predicate Succeeds(max: nat, need: nat) { AtLeastOne(need) <= max }

  ghost function Count(log: seq<nat>, n: nat): nat { multiset(log)[n] }

  /** The review has settled. */
  ghost predicate Settled(max: nat, w: World, n: nat)
    requires n < |w.jobs|
  {
    w.jobs[n].polls == Last(max, w.jobs[n].need)
  }

  /** The suspended result was recorded over the settled one: the run will wait for ever. */
  ghost predicate Overwritten(max: nat, w: World, n: nat)
    requires n < |w.jobs|
  {
    Settled(max, w, n) && !w.jobs[n].firing.Recording? && n !in w.results
  }

  ghost predicate JobOk(max: nat, w: World, n: nat)
    requires n < |w.jobs|
  {
    var r := w.jobs[n];
    var k := Last(max, r.need);
    && r.polls <= k
    && (r.polls < k ==> Review(n) in w.parked && w.parked[Review(n)] == r.polls + 1 && n !in w.results)
    && (r.polls == k ==> Review(n) !in w.parked && (r.firing.Recording? ==> n in w.results))
    && (n in w.results ==> w.results[n] == Succeeds(max, r.need))
    && (RunOf(n) in w.parked <==> r.firing.Fired? && n !in w.ended)
    && (n in w.ended ==> r.firing.Fired? && n in w.results && w.ended[n] == Succeeds(max, r.need))
    && Count(w.archive, n) == (if n in w.ended && w.ended[n] then 1 else 0)
    && Count(w.sent, n) == 1
  }

  ghost predicate Inv(max: nat, w: World) {
    && (forall n :: 0 <= n < |w.jobs| ==> JobOk(max, w, n))
    && (forall row :: row in w.parked ==> row.job < |w.jobs|)
    && (forall n :: n >= |w.jobs| ==> Count(w.sent, n) == 0 && Count(w.archive, n) == 0
                                      && n !in w.results && n !in w.ended)
  }

  /** Only job `n` moved. */
  ghost predicate Only(w: World, w': World, n: nat) {
    && |w.jobs| == |w'.jobs| && n < |w.jobs| && w'.sent == w.sent
    && (forall m :: 0 <= m < |w.jobs| && m != n ==> w'.jobs[m] == w.jobs[m])
    && (forall row: RowId :: row.job != n ==> (row in w'.parked <==> row in w.parked))
    && (forall row: RowId :: row.job != n && row in w.parked ==> w'.parked[row] == w.parked[row])
    && (forall m :: m != n ==> (m in w'.results <==> m in w.results) && (m in w'.ended <==> m in w.ended))
    && (forall m :: m != n && m in w.results ==> w'.results[m] == w.results[m])
    && (forall m :: m != n && m in w.ended ==> w'.ended[m] == w.ended[m])
    && (forall m :: m != n ==> Count(w'.archive, m) == Count(w.archive, m))
  }

  lemma ResumeReviewOk(max: nat, w: World, n: nat)
    requires max >= 1 && Inv(max, w) && n < |w.jobs| && Review(n) in w.parked
    ensures var w' := ResumeReview(max, w, n);
            && Only(w, w', n) && JobOk(max, w', n)
            && w'.jobs[n] == w.jobs[n].(polls := w.jobs[n].polls + 1) && w'.ended == w.ended
            && (Settled(max, w', n) ==> n in w'.results) && (n in w.results ==> n in w'.results)
  {
    assert JobOk(max, w, n);
  }

  lemma ResumeRunOk(max: nat, w: World, n: nat)
    requires max >= 1 && Inv(max, w) && n < |w.jobs| && RunOf(n) in w.parked
    ensures var w' := ResumeRun(w, n);
            && Only(w, w', n) && JobOk(max, w', n) && w'.jobs == w.jobs && w'.results == w.results
            && (n in w'.ended <==> n in w.results) && (n in w.ended ==> n in w'.ended)
  {
    assert JobOk(max, w, n);
  }

  lemma GoOnOk(max: nat, w: World, n: nat)
    requires max >= 1 && Inv(max, w) && n < |w.jobs|
    ensures var w' := GoOnStep(w, n);
            && Only(w, w', n) && JobOk(max, w', n) && w'.ended == w.ended
            && w'.jobs[n].(firing := Fired) == w.jobs[n].(firing := Fired)
            && (w.jobs[n].firing.Fired? ==> w' == w) && !w'.jobs[n].firing.Recording?
            && (!w.jobs[n].firing.Recording? ==> w'.results == w.results)
            && (w.jobs[n].firing.Recording? ==> (Overwritten(max, w', n) <==> Settled(max, w, n)))
            && (forall row :: row in w.parked ==> row in w'.parked)
  {
    assert JobOk(max, w, n);
  }

  lemma OnlyKeeps(max: nat, w: World, w': World, n: nat)
    requires Inv(max, w) && Only(w, w', n) && JobOk(max, w', n)
    ensures Inv(max, w')
  {
    forall m | 0 <= m < |w'.jobs| ensures JobOk(max, w', m) {
      if m != n { assert JobOk(max, w, m); }
    }
  }

  lemma FireOk(max: nat, w: World, need: nat)
    requires max >= 1 && Inv(max, w)
    ensures Inv(max, FireStep(w, need))
  {
    var w' := FireStep(w, need);
    assert forall m: nat :: Count(w'.sent, m) == Count(w.sent, m) + (if m == |w.jobs| then 1 else 0);
    forall n | 0 <= n < |w'.jobs| ensures JobOk(max, w', n) {
      if n < |w.jobs| { assert JobOk(max, w, n); }
    }
  }

  // --- one step of anything, seen from one job ----------------------------------------------

  /** The review settles in this step although its firing has not recorded that it waits. */
  ghost predicate SettlesEarly(max: nat, w: World, t: Tick, n: nat) {
    && n < |w.jobs| && t == Row(Review(n)) && Review(n) in w.parked && w.jobs[n].firing.Recording?
    && w.jobs[n].polls + 1 == Last(max, w.jobs[n].need)
  }

  /** The review settled too early: the firing will record, or has recorded, the wait over its result. */
  ghost predicate Doomed(max: nat, w: World, n: nat) {
    n < |w.jobs| && Settled(max, w, n) && (w.jobs[n].firing.Recording? || n !in w.results)
  }

  /** From one moment to a later one: what a job never takes back. */
  ghost predicate Forth(max: nat, w: World, w': World, n: nat) {
    && n < |w.jobs| && n < |w'.jobs| && w'.jobs[n].need == w.jobs[n].need && w'.jobs[n].polls >= w.jobs[n].polls
    && (!w.jobs[n].firing.Recording? ==> !w'.jobs[n].firing.Recording?)
    && (w.jobs[n].firing.Fired? ==> w'.jobs[n].firing.Fired?)
    && (!w.jobs[n].firing.Recording? && n in w.results ==> n in w'.results)
    && (n in w.ended ==> n in w'.ended)
    && (Doomed(max, w, n) ==> Doomed(max, w', n))
  }

  /** What a tick does to job `n`. */
  ghost predicate Ticked(max: nat, w: World, w': World, t: Tick, n: nat) {
    && Forth(max, w, w', n)
    && w'.jobs[n].polls == w.jobs[n].polls + (if t == Row(Review(n)) && Review(n) in w.parked then 1 else 0)
    && (t == Row(RunOf(n)) && RunOf(n) in w.parked && n in w.results ==> n in w'.ended)
    && (Doomed(max, w', n) <==> Doomed(max, w, n) || SettlesEarly(max, w, t, n))
  }

  lemma MovedOnly(max: nat, w: World, w': World, m: nat, n: nat, t: Tick)
    requires Inv(max, w) && Only(w, w', m) && n < |w.jobs| && n != m && t != Row(Review(n)) && t != Row(RunOf(n))
    ensures Ticked(max, w, w', t, n)
  {}

  lemma TickOk(max: nat, w: World, t: Tick)
    requires max >= 1 && Inv(max, w)
    ensures Inv(max, TickStep(max, w, t)) && |w.jobs| <= |TickStep(max, w, t).jobs|
    ensures forall n :: 0 <= n < |w.jobs| ==> Ticked(max, w, TickStep(max, w, t), t, n)
    ensures forall row :: row in w.parked && t != Row(row) ==> row in TickStep(max, w, t).parked
  {
    match t
    case Row(row) => RowTick(max, w, row);
    case Amid(Fire(need)) =>
      FireOk(max, w, need);
      forall n | 0 <= n < |w.jobs| ensures Ticked(max, w, FireStep(w, need), t, n) { assert JobOk(max, w, n); }
    case Amid(GoOn(n)) => GoOnTick(max, w, n);
  }

  lemma RowTick(max: nat, w: World, row: RowId)
    requires max >= 1 && Inv(max, w)
    ensures var w' := ResumeRow(max, w, row);
            && Inv(max, w') && |w.jobs| == |w'.jobs|
            && (forall n :: 0 <= n < |w.jobs| ==> Ticked(max, w, w', Row(row), n))
            && (forall other :: other in w.parked && other != row ==> other in w'.parked)
  {
    var w' := ResumeRow(max, w, row);
    if row in w.parked {
      var m := row.job;
      match row {
        case Review(_) => ResumeReviewOk(max, w, m);
        case RunOf(_) => ResumeRunOk(max, w, m);
      }
      OnlyKeeps(max, w, w', m);
      forall n | 0 <= n < |w.jobs| ensures Ticked(max, w, w', Row(row), n) {
        if n != m { MovedOnly(max, w, w', m, n, Row(row)); } else { assert JobOk(max, w, n) && JobOk(max, w', n); }
      }
    }
  }

  lemma GoOnTick(max: nat, w: World, m: nat)
    requires max >= 1 && Inv(max, w)
    ensures var w' := GoOnStep(w, m);
            && Inv(max, w') && |w.jobs| == |w'.jobs|
            && (forall n :: 0 <= n < |w.jobs| ==> Ticked(max, w, w', Amid(GoOn(m)), n))
            && (forall row :: row in w.parked ==> row in w'.parked)
  {
    var w' := GoOnStep(w, m);
    if m < |w.jobs| {
      GoOnOk(max, w, m);
      OnlyKeeps(max, w, w', m);
      forall n | 0 <= n < |w.jobs| ensures Ticked(max, w, w', Amid(GoOn(m)), n) {
        if n != m { MovedOnly(max, w, w', m, n, Amid(GoOn(m))); } else { assert JobOk(max, w, n) && JobOk(max, w', n); }
      }
    }
  }

  // --- one sweep ----------------------------------------------------------------------------

  /** What a sweep over `ticks` has done to job `n`, compared with `w` at its start. */
  ghost predicate SweptTo(max: nat, w: World, w': World, ticks: seq<Tick>, n: nat) {
    && Forth(max, w, w', n)
    && w'.jobs[n].polls == w.jobs[n].polls + (if Row(Review(n)) in ticks then 1 else 0)
    && (w.jobs[n].firing.Fired? && n in w.results && Row(RunOf(n)) in ticks ==> n in w'.ended)
  }

  lemma ForthOn(max: nat, a: World, b: World, c: World, n: nat)
    requires Forth(max, a, b, n) && Forth(max, b, c, n)
    ensures Forth(max, a, c, n)
  {}

  lemma TickedOn(max: nat, w: World, w1: World, w': World, before: seq<Tick>, t: Tick, n: nat)
    requires SweptTo(max, w, w1, before, n) && Ticked(max, w1, w', t, n)
    requires t.Row? ==> t !in before && t.row in w1.parked
    ensures SweptTo(max, w, w', before + [t], n)
  {
    ForthOn(max, w, w1, w', n);
  }

  lemma {:induction false} SweepOk(max: nat, w: World, ticks: seq<Tick>, all: seq<Tick>)
    requires max >= 1 && Inv(max, w) && Snapshot(w, all) && ticks <= all
    ensures var w' := SweepStep(max, w, ticks);
            && Inv(max, w') && |w.jobs| <= |w'.jobs|
            && (forall n :: 0 <= n < |w.jobs| ==> SweptTo(max, w, w', ticks, n))
            && (forall row :: Row(row) in all && Row(row) !in ticks ==> row in w'.parked)
  {
    if ticks != [] {
      var i := |ticks| - 1;
      var t, before := ticks[i], ticks[..i];
      var w1 := SweepStep(max, w, before);
      SweepOk(max, w, before, all);
      assert ticks == before + [t] && all[i] == t;
      if t.Row? { NotYet(all, before, t); }
      TickOk(max, w1, t);
      forall n | 0 <= n < |w.jobs| ensures SweptTo(max, w, TickStep(max, w1, t), ticks, n) {
        TickedOn(max, w, w1, TickStep(max, w1, t), before, t, n);
      }
    }
  }

  lemma NotYet(all: seq<Tick>, before: seq<Tick>, t: Tick)
    requires |before| < |all| && before <= all && all[|before|] == t && t.Row?
    requires forall i, j :: 0 <= i < j < |all| && all[i].Row? ==> all[i] != all[j]
    ensures t !in before && t in all
  {
    assert forall i :: 0 <= i < |before| ==> before[i] == all[i];
  }

  // --- reviews that settle too early --------------------------------------------------------

  /** In this sweep the review of job `n` settles before its firing has recorded that it waits. */
  ghost predicate EarlyIn(max: nat, w: World, ticks: seq<Tick>, n: nat) {
    ticks != [] &&
    var before := ticks[..|ticks| - 1];
    EarlyIn(max, w, before, n) || SettlesEarly(max, SweepStep(max, w, before), ticks[|ticks| - 1], n)
  }

  /** In some sweep of the history it does. */
  ghost predicate SettledEarly(max: nat, es: seq<Event>, n: nat) {
    es != [] &&
    var before, e := es[..|es| - 1], es[|es| - 1];
    SettledEarly(max, before, n) || (e.SweepAll? && EarlyIn(max, Run(max, before), e.ticks, n))
  }

  lemma DoomedTick(max: nat, w: World, t: Tick, n: nat)
    requires max >= 1 && Inv(max, w)
    ensures Doomed(max, TickStep(max, w, t), n) <==> Doomed(max, w, n) || SettlesEarly(max, w, t, n)
  {
    TickOk(max, w, t);
    if n < |w.jobs| {
      assert Ticked(max, w, TickStep(max, w, t), t, n);
    } else {
      assert !Doomed(max, TickStep(max, w, t), n) by { NewIsUnpolled(max, w, t, n); }
    }
  }

  lemma NewIsUnpolled(max: nat, w: World, t: Tick, n: nat)
    requires max >= 1 && Inv(max, w) && n >= |w.jobs|
    ensures n < |TickStep(max, w, t).jobs| ==> TickStep(max, w, t).jobs[n].polls == 0
  {}

  lemma {:induction false} DoomedSweep(max: nat, w: World, ticks: seq<Tick>, all: seq<Tick>, n: nat)
    requires max >= 1 && Inv(max, w) && Snapshot(w, all) && ticks <= all
    ensures Doomed(max, SweepStep(max, w, ticks), n) <==> Doomed(max, w, n) || EarlyIn(max, w, ticks, n)
  {
    if ticks != [] {
      var before := ticks[..|ticks| - 1];
      DoomedSweep(max, w, before, all, n);
      SweepOk(max, w, before, all);
      DoomedTick(max, SweepStep(max, w, before), ticks[|ticks| - 1], n);
    }
  }

  // --- all histories ------------------------------------------------------------------------

  lemma StepOk(max: nat, w: World, e: Event)
    requires max >= 1 && Inv(max, w) && (e.SweepAll? ==> Snapshot(w, e.ticks))
    ensures Inv(max, Step(max, w, e)) && |w.jobs| <= |Step(max, w, e).jobs|
    ensures forall n :: 0 <= n < |w.jobs| ==> Forth(max, w, Step(max, w, e), n)
  {
    match e
    case Between(a) =>
      TickOk(max, w, Amid(a));
      forall n | 0 <= n < |w.jobs| ensures Forth(max, w, Step(max, w, e), n) {
        assert Ticked(max, w, AsideStep(w, a), Amid(a), n);
      }
    case SweepAll(ticks) =>
      SweepOk(max, w, ticks, ticks);
      forall n | 0 <= n < |w.jobs| ensures Forth(max, w, Step(max, w, e), n) {
        assert SweptTo(max, w, SweepStep(max, w, ticks), ticks, n);
      }
  }

  lemma {:induction false} RunOk(max: nat, es: seq<Event>)
    requires max >= 1 && FullSweeps(max, es)
    ensures Inv(max, Run(max, es))
  {
    if es != [] {
      RunOk(max, es[..|es| - 1]);
      StepOk(max, Run(max, es[..|es| - 1]), es[|es| - 1]);
    }
  }

  /** A review is doomed exactly if it settled too early. */
  lemma {:induction false} DoomedIff(max: nat, es: seq<Event>, n: nat)
    requires max >= 1 && FullSweeps(max, es)
    ensures Doomed(max, Run(max, es), n) <==> SettledEarly(max, es, n)
  {
    if es != [] {
      var before := es[..|es| - 1];
      RunOk(max, before);
      DoomedIff(max, before, n);
      match es[|es| - 1]
      case Between(a) => DoomedTick(max, Run(max, before), Amid(a), n);
      case SweepAll(ticks) => DoomedSweep(max, Run(max, before), ticks, ticks, n);
    }
  }

  /** The sweeps that began after job `n` was fired. */
  function Age(max: nat, es: seq<Event>, n: nat): nat {
    if es == [] then 0
    else
      var before := es[..|es| - 1];
      if n >= |Run(max, before).jobs| then 0 else Age(max, before, n) + (if es[|es| - 1].SweepAll? then 1 else 0)
  }

  /** The sweeps that began when the run of job `n` was parked, or done. */
  function RunAge(max: nat, es: seq<Event>, n: nat): nat {
    if es == [] then 0
    else
      var before, w := es[..|es| - 1], Run(max, es[..|es| - 1]);
      if n >= |w.jobs| || !w.jobs[n].firing.Fired? then 0
      else RunAge(max, before, n) + (if es[|es| - 1].SweepAll? then 1 else 0)
  }

  /**
   * A job that has seen `a` sweeps was polled that often, until it settled; one sweep more, with
   * its run parked, ends the run, unless the job is doomed.
   */
  ghost predicate Aged(max: nat, w: World, n: nat, a: nat, r: nat) {
    && n < |w.jobs|
    && var k := Last(max, w.jobs[n].need);
       && w.jobs[n].polls == Min(a, k)
       && (r >= 1 ==> w.jobs[n].firing.Fired?)
       && (a >= k + 1 && r >= 1 && !Doomed(max, w, n) ==> n in w.ended)
  }

  /** One sweep ages a job. */
  lemma SweepAges(max: nat, w: World, w': World, ticks: seq<Tick>, n: nat, a: nat, r: nat)
    requires max >= 1 && Inv(max, w) && Inv(max, w') && Snapshot(w, ticks) && n < |w.jobs|
    requires SweptTo(max, w, w', ticks, n) && Aged(max, w, n, a, r)
    ensures Aged(max, w', n, a + 1, if w.jobs[n].firing.Fired? then r + 1 else 0)
  {
    assert JobOk(max, w, n);
  }

  lemma {:induction false} RunAged(max: nat, es: seq<Event>, n: nat)
    requires max >= 1 && FullSweeps(max, es) && n < |Run(max, es).jobs|
    ensures Aged(max, Run(max, es), n, Age(max, es, n), RunAge(max, es, n))
  {
    var before, e := es[..|es| - 1], es[|es| - 1];
    var w := Run(max, before);
    RunOk(max, before);
    StepOk(max, w, e);
    if n < |w.jobs| {
      RunAged(max, before, n);
      match e
      case Between(a) =>
        TickOk(max, w, Amid(a));
        assert Ticked(max, w, Run(max, es), Amid(a), n);
      case SweepAll(ticks) =>
        SweepOk(max, w, ticks, ticks);
        SweepAges(max, w, Run(max, es), ticks, n, Age(max, before, n), RunAge(max, before, n));
    } else {
      NewInStep(max, w, e, n);
    }
  }

  /** A job that is new in a step was not polled in it. */
  lemma NewInStep(max: nat, w: World, e: Event, n: nat)
    requires max >= 1 && Inv(max, w) && (e.SweepAll? ==> Snapshot(w, e.ticks))
    requires |w.jobs| <= n < |Step(max, w, e).jobs|
    ensures Step(max, w, e).jobs[n].polls == 0
  {
    match e
    case Between(a) => NewIsUnpolled(max, w, Amid(a), n);
    case SweepAll(ticks) => NewInSweep(max, w, ticks, ticks, n);
  }

  lemma {:induction false} NewInSweep(max: nat, w: World, ticks: seq<Tick>, all: seq<Tick>, n: nat)
    requires max >= 1 && Inv(max, w) && Snapshot(w, all) && ticks <= all && n >= |w.jobs|
    ensures n < |SweepStep(max, w, ticks).jobs| ==> SweepStep(max, w, ticks).jobs[n].polls == 0
  {
    if ticks != [] {
      var before, t := ticks[..|ticks| - 1], ticks[|ticks| - 1];
      var w1 := SweepStep(max, w, before);
      NewInSweep(max, w, before, all, n);
      SweepOk(max, w, before, all);
      TickOk(max, w1, t);
      assert all[|before|] == t && Row(Review(n)) !in all;
      if n < |w1.jobs| { assert Ticked(max, w1, TickStep(max, w1, t), t, n); } else { NewIsUnpolled(max, w1, t, n); }
    }
  }

  /**
   * For any number of jobs, fired at any time, with sweeps between and within the stretches of a
   * firing, and any row order in each sweep: each remote task is sent once and asked exactly until
   * it settles.  After one sweep more than that, with its run parked, the job is done, none of its
   * rows is parked and the archive step ran exactly once if the remote settled within the attempts,
   * unless the review settled before its firing had recorded that it waits: then, and only then,
   * the run stays parked and the archive step never runs.
   */
  lemma EveryJobDrains(max: nat, es: seq<Event>, n: nat)
    requires max >= 1 && FullSweeps(max, es) && n < |Run(max, es).jobs|
    ensures var w := Run(max, es);
            var need := w.jobs[n].need;
            var a := Age(max, es, n);
            && w.jobs[n].polls == Min(a, Last(max, need))
            && Count(w.sent, n) == 1 && Count(w.archive, n) <= 1
            && (Count(w.archive, n) == 1 ==> w.jobs[n].polls >= need && Succeeds(max, need))
            && (a > Last(max, need) && RunAge(max, es, n) >= 1 ==>
                  && Review(n) !in w.parked && (RunOf(n) in w.parked <==> SettledEarly(max, es, n))
                  && Count(w.archive, n) == if Succeeds(max, need) && !SettledEarly(max, es, n) then 1 else 0)
  {
    RunOk(max, es);
    RunAged(max, es, n);
    DoomedIff(max, es, n);
    assert JobOk(max, Run(max, es), n);
  }

  /** No firing is recording when a sweep begins. */
  ghost predicate SweepsRested(max: nat, es: seq<Event>) {
    es != [] ==>
      var before := es[..|es| - 1];
      && SweepsRested(max, before)
      && (es[|es| - 1].SweepAll? ==>
            var w := Run(max, before); forall n :: 0 <= n < |w.jobs| ==> !w.jobs[n].firing.Recording?)
  }

  /** Then no review settles too early. */
  lemma {:induction false} RestedIsNeverEarly(max: nat, es: seq<Event>, n: nat)
    requires max >= 1 && FullSweeps(max, es) && SweepsRested(max, es)
    ensures !SettledEarly(max, es, n)
  {
    if es != [] {
      var before, e := es[..|es| - 1], es[|es| - 1];
      RestedIsNeverEarly(max, before, n);
      RunOk(max, before);
      if e.SweepAll? { RestedSweep(max, Run(max, before), e.ticks, e.ticks, n); }
    }
  }

  lemma {:induction false} RestedSweep(max: nat, w: World, ticks: seq<Tick>, all: seq<Tick>, n: nat)
    requires max >= 1 && Inv(max, w) && Snapshot(w, all) && ticks <= all
    requires forall m :: 0 <= m < |w.jobs| ==> !w.jobs[m].firing.Recording?
    ensures !EarlyIn(max, w, ticks, n)
  {
    if ticks != [] {
      var before, t := ticks[..|ticks| - 1], ticks[|ticks| - 1];
      RestedSweep(max, w, before, all, n);
      SweepOk(max, w, before, all);
      assert all[|before|] == t;
      if t == Row(Review(n)) {
        assert t in all;
        assert n < |w.jobs| && SweptTo(max, w, SweepStep(max, w, before), before, n);
      }
    }
  }

  /** When every job has seen enough sweeps and none settled too early, nothing is parked. */
  lemma AllDrained(max: nat, es: seq<Event>)
    requires max >= 1 && FullSweeps(max, es)
    requires forall n :: 0 <= n < |Run(max, es).jobs| ==>
               Age(max, es, n) > max && RunAge(max, es, n) >= 1 && !SettledEarly(max, es, n)
    ensures Run(max, es).parked == map[]
  {
    RunOk(max, es);
    var w := Run(max, es);
    forall row | row in w.parked ensures false {
      EveryJobDrains(max, es, row.job);
    }
  }

  // --- a review that settles too early ------------------------------------------------------

  /** Fired, swept before the wait is recorded, and then parked: the remote is done at once. */
  const Early: seq<Event> :=
    [] + [Between(Fire(1))] + [SweepAll([Row(Review(0))])] + [Between(GoOn(0))] + [Between(GoOn(0))]

  lemma Reach(max: nat, es: seq<Event>, w: World, e: Event, w': World)
    requires Run(max, es) == w && Step(max, w, e) == w'
    ensures Run(max, es + [e]) == w'
    ensures FullSweeps(max, es) && (e.SweepAll? ==> Snapshot(w, e.ticks)) ==> FullSweeps(max, es + [e])
  {
    assert (es + [e])[..|es|] == es;
  }

  /** The completed review is overwritten with suspended: its run waits for a result that nobody will bring again. */
  lemma EarlySettlingStrands(max: nat)
    requires max >= 1
    ensures FullSweeps(max, Early)
    ensures Run(max, Early) == World([Job(1, 1, Fired)], map[RunOf(0) := 0], map[], map[], [0], [])
  {
    var w1 := World([Job(1, 0, Recording)], map[Review(0) := 1], map[], map[], [0], []);
    var w2 := World([Job(1, 1, Recording)], map[], map[0 := true], map[], [0], []);
    var w3 := World([Job(1, 1, Parking)], map[], map[], map[], [0], []);
    var w4 := World([Job(1, 1, Fired)], map[RunOf(0) := 0], map[], map[], [0], []);
    var sweep := [Row(Review(0))];
    Reach(max, [], Empty, Between(Fire(1)), w1);
    assert SweepStep(max, w1, sweep) == ResumeRow(max, w1, Review(0)) by { assert sweep[..0] == []; }
    assert map[Review(0) := 1] - {Review(0)} == map[];
    Reach(max, [] + [Between(Fire(1))], w1, SweepAll(sweep), w2);
    assert map[0 := true] - {0} == map[];
    Reach(max, [] + [Between(Fire(1))] + [SweepAll(sweep)], w2, Between(GoOn(0)), w3);
    Reach(max, [] + [Between(Fire(1))] + [SweepAll(sweep)] + [Between(GoOn(0))], w3, Between(GoOn(0)), w4);
  }
}
