/**
 * What is left when nothing is running, over every run of lessons, resolvers and wakes: the
 * state is coherent (pending items, parked gates and unfinished runs match one to one)
 * exactly when no stretch of code came too early or too late, and no decision was of a kind
 * the gate cannot use.
 */
module FederationQuiescence {
  import opened Text
  import opened Federation
  import opened FederationSafety

  ghost predicate HasGate(w: World, n: nat) { GateTask(n) in w.parked }
  ghost predicate HasRun(w: World, n: nat) { RunTask(n) in w.parked }

  /** The item is decided, and this is where the resolver that decided it is. */
  ghost predicate At(w: World, n: nat, pc: CallPc) {
    n in w.inbox && w.inbox[n].Resolved? && w.inbox[n].call < |w.calls| && w.calls[w.inbox[n].call].pc == pc
  }

  /** The gate's row is owed: the item waits for a decision, or its resolver has not dropped the row. */
  ghost predicate GateDue(w: World, n: nat) {
    n in w.inbox &&
    match w.inbox[n]
    case Pending => true
    case Resolved(_, r) =>
      r < |w.calls| &&
      var pc := w.calls[r].pc;
      pc.Resume? || pc.Repark? || pc == Waiting(0) || pc.Record? || pc.Drop? || pc == Stranded(true)
  }

  /** How far the resolver that owns item `n` has brought its run. */
  ghost predicate ResolverQ(w: World, n: nat)
    requires n < |w.lessons|
  {
    n in w.inbox && w.inbox[n].Resolved? && w.inbox[n].call < |w.calls| ==>
      var l := w.lessons[n];
      var d := w.inbox[n].decision;
      match w.calls[w.inbox[n].call].pc
      case Waiting(k) => l.status == InFlight && (k > 0 ==> l.pc == Left)
      case Record(result) => l.status == InFlight && Deserved(d, result)
      case Drop => l.status == InFlight && n in w.results && (Deserved(d, w.results[n]) || w.results[n].Suspended?)
      case Over =>
        && l.pc == Left
        && (d.OtherKind? ==> l.status == InFlight)
        && (d == Approval(true) && l.status != InFlight ==> l.started >= 1)
      case _ => l.status == InFlight
  }

  /** What a resumed gate answers to a decision. */
  ghost predicate Deserved(d: Decision, result: Result) {
    match d
    case Approval(true) => result.Ok? || result.Failed?
    case Approval(false) => result.Failed?
    case OtherKind => result.Suspended?
  }

  ghost predicate RowsQ(w: World, n: nat)
    requires n < |w.lessons|
  {
    var l := w.lessons[n];
    if l.clear then !HasGate(w, n) && !HasRun(w, n)
    else
      match l.pc
      case WriteItem => !HasGate(w, n) && !HasRun(w, n)
      case ParkGate =>
        && n in w.inbox && !HasGate(w, n) && !HasRun(w, n)
        && (w.inbox[n].Resolved? ==> At(w, n, Resume) || At(w, n, Stranded(true)))
      case RecordGate => n in w.inbox && !HasRun(w, n) && (GateDue(w, n) ==> HasGate(w, n))
      case ParkRun => n in w.inbox && n in w.results && !HasRun(w, n) && (GateDue(w, n) ==> HasGate(w, n))
      case Left =>
        && n in w.inbox && n in w.results
        && (HasRun(w, n) <==> l.status == InFlight) && (GateDue(w, n) ==> HasGate(w, n))
      case Fresh(_) => false
  }

  ghost predicate LessonQ(w: World, n: nat)
    requires n < |w.lessons|
  {
    RowsQ(w, n) && ResolverQ(w, n)
  }

  /** The gate's row has been parked. */
  ghost predicate Gated(w: World, n: nat) {
    n < |w.lessons| && !w.lessons[n].clear &&
    (w.lessons[n].pc.RecordGate? || w.lessons[n].pc.ParkRun? || w.lessons[n].pc.Left?)
  }

  ghost predicate QInv(w: World) {
    && (forall n :: 0 <= n < |w.lessons| ==> LessonQ(w, n))
    && (forall n: nat :: RunTask(n) in w.parked ==> n < |w.lessons|)
    && (forall i :: 0 <= i < |w.wakes| ==> Gated(w, w.wakes[i].item))
  }

  // --- the invariant, step by step --------------------------------------------------------

  /** A step touched nothing of any lesson but `n`. */
  ghost predicate Apart(w: World, w': World, n: nat) {
    && n < |w.lessons| == |w'.lessons| && |w.calls| <= |w'.calls|
    && (forall m :: 0 <= m < |w.lessons| && m != n ==> w'.lessons[m] == w.lessons[m])
    && (forall m :: m != n ==> (m in w'.inbox <==> m in w.inbox))
    && (forall m :: m != n && m in w.inbox ==> w'.inbox[m] == w.inbox[m])
    && (forall m :: m != n ==> (m in w'.results <==> m in w.results))
    && (forall m :: m != n && m in w.results ==> w'.results[m] == w.results[m])
    && (forall m: nat :: m != n ==> (GateTask(m) in w'.parked <==> GateTask(m) in w.parked))
    && (forall m: nat :: m != n ==> (RunTask(m) in w'.parked <==> RunTask(m) in w.parked))
    && (forall q :: 0 <= q < |w.calls| && w.calls[q].item != n ==> w'.calls[q] == w.calls[q])
  }

  lemma QApart(cfg: Config, w: World, w': World, n: nat)
    requires Inv(cfg, w) && QInv(w) && Apart(w, w', n) && LessonQ(w', n)
    requires Gated(w, n) ==> Gated(w', n)
    requires forall i :: 0 <= i < |w'.wakes| ==>
               (i < |w.wakes| && w'.wakes[i].item == w.wakes[i].item) || Gated(w', w'.wakes[i].item)
    ensures QInv(w')
  {
    forall m | 0 <= m < |w'.lessons| ensures LessonQ(w', m) {
      if m != n { assert LessonQ(w, m) && LessonInv(cfg, w, m); }
    }
    forall i | 0 <= i < |w'.wakes| ensures Gated(w', w'.wakes[i].item) {
      if i < |w.wakes| && w'.wakes[i].item == w.wakes[i].item { assert Gated(w, w.wakes[i].item); }
    }
  }

  lemma QGrow(cfg: Config, w: World, w': World, l: Lesson)
    requires Inv(cfg, w) && QInv(w)
    requires w' == w.(lessons := w.lessons + [l], sent := w'.sent)
    requires l.status == InFlight && (l.clear || l.pc.WriteItem?)
    ensures QInv(w')
  {
    forall m | 0 <= m < |w'.lessons| ensures LessonQ(w', m) {
      if m < |w.lessons| { assert LessonQ(w, m); }
    }
    forall i | 0 <= i < |w'.wakes| ensures Gated(w', w'.wakes[i].item) { assert Gated(w, w.wakes[i].item); }
  }

  lemma QAsk(cfg: Config, w: World, clear: bool)
    requires Inv(cfg, w) && QInv(w)
    ensures QInv(AskStep(w, clear))
  {
    var w' := AskStep(w, clear);
    var l := if clear then Lesson(true, InFlight, 1, Fresh(0)) else Lesson(false, InFlight, 0, WriteItem);
    var grown := w.lessons + [l];
    assert w'.lessons == grown by {
      var asked := w.lessons + [Lesson(true, InFlight, 0, Fresh(0))];
      assert asked[|w.lessons| := asked[|w.lessons|].(started := 1)] ==
             w.lessons + [Lesson(true, InFlight, 1, Fresh(0))];
    }
    assert w' == w.(lessons := grown, sent := w'.sent);
    QGrow(cfg, w, w', l);
  }

  lemma QLessonStep(cfg: Config, w: World, n: nat, ok: bool)
    requires Inv(cfg, w) && QInv(w) && n < |w.lessons| && !w.lessons[n].pc.Fresh?
    ensures QInv(LessonStep(cfg, w, n, ok))
  {
    assert LessonQ(w, n) && LessonInv(cfg, w, n);
    QApart(cfg, w, LessonStep(cfg, w, n, ok), n);
  }

  lemma QFreshEnds(cfg: Config, w: World, w1: World, n: nat, status: Status, pc: LessonPc)
    requires Inv(cfg, w) && QInv(w) && n < |w.lessons| && w.lessons[n].clear
    requires |w1.lessons| == |w.lessons| && w1.lessons == w.lessons[n := w1.lessons[n]] && w1.lessons[n].clear
    requires w1 == w.(admitted := w1.admitted, sent := w1.sent, lessons := w1.lessons)
    ensures QInv(SetLesson(w1, n, status, pc))
  {
    assert LessonQ(w, n) && LessonInv(cfg, w, n);
    QApart(cfg, w, SetLesson(w1, n, status, pc), n);
  }

  lemma QFresh(cfg: Config, w: World, n: nat, ok: bool)
    requires Inv(cfg, w) && QInv(w) && n < |w.lessons| && w.lessons[n].pc.Fresh?
    ensures QInv(FreshStep(cfg, w, n, w.lessons[n].pc.step, ok))
  {
    assert LessonInv(cfg, w, n);
    var k := w.lessons[n].pc.step;
    var w1 := Admit(cfg, w, n, k);
    assert w.lessons[n := w.lessons[n]] == w.lessons;
    if !Admitted(cfg, w, k, ok) {
      QFreshEnds(cfg, w, w1, n, Halted, Left);
    } else if k < |cfg.tail| {
      QFreshEnds(cfg, w, Send(w1, n, k + 1), n, InFlight, Fresh(k + 1));
    } else {
      QFreshEnds(cfg, w, w1, n, Done, Left);
    }
  }

  lemma QFlip(cfg: Config, w: World, r: nat)
    requires Inv(cfg, w) && QInv(w) && r < |w.calls| && w.calls[r].item < |w.lessons| && w.calls[r].pc.Flip?
    ensures QInv(FlipStep(w, r, w.calls[r].item))
  {
    var n := w.calls[r].item;
    assert LessonQ(w, n) && LessonInv(cfg, w, n) && CallInv(cfg, w, r);
    QApart(cfg, w, FlipStep(w, r, n), n);
  }

  lemma QResume(cfg: Config, w: World, r: nat)
    requires Inv(cfg, w) && QInv(w) && r < |w.calls| && w.calls[r].item < |w.lessons| && w.calls[r].pc.Resume?
    ensures QInv(ResumeStep(w, r, w.calls[r].item))
  {
    var n := w.calls[r].item;
    assert LessonQ(w, n) && LessonInv(cfg, w, n) && CallInv(cfg, w, r);
    QApart(cfg, w, ResumeStep(w, r, n), n);
  }

  lemma QRepark(cfg: Config, w: World, r: nat)
    requires Inv(cfg, w) && QInv(w) && r < |w.calls| && w.calls[r].item < |w.lessons| && w.calls[r].pc.Repark?
    ensures QInv(ReparkStep(w, r, w.calls[r].item))
  {
    var n := w.calls[r].item;
    assert LessonQ(w, n) && LessonInv(cfg, w, n) && CallInv(cfg, w, r);
    QApart(cfg, w, ReparkStep(w, r, n), n);
  }

  lemma QRecord(cfg: Config, w: World, r: nat)
    requires Inv(cfg, w) && QInv(w) && r < |w.calls| && w.calls[r].item < |w.lessons| && w.calls[r].pc.Record?
    ensures QInv(RecordStep(w, r, w.calls[r].item, w.calls[r].pc.result))
  {
    var n := w.calls[r].item;
    assert LessonQ(w, n) && LessonInv(cfg, w, n) && CallInv(cfg, w, r);
    QApart(cfg, w, RecordStep(w, r, n, w.calls[r].pc.result), n);
  }

  /** The run goes on behind the gate, or behind a later step. */
  ghost predicate Walking(cfg: Config, w: World, r: nat, n: nat) {
    && Inv(cfg, w) && QInv(w) && r < |w.calls| && w.calls[r].item == n && n < |w.lessons|
    && (w.calls[r].pc.Drop? || (w.calls[r].pc.Waiting? && w.calls[r].pc.step > 0))
    && HasRun(w, n)
  }

  lemma QNextStep(cfg: Config, w: World, w1: World, r: nat, n: nat, k: nat)
    requires Walking(cfg, w, r, n) && Approves(w.calls[r].decision) && w.lessons[n].started == k + 1
    requires w1 == w.(admitted := w1.admitted, parked := w1.parked)
    requires w1.parked == w.parked - {GateTask(n)} || (w1.parked == w.parked && w.calls[r].pc.Waiting?)
    ensures QInv(NextStep(cfg, w1, r, n, k))
  {
    assert LessonQ(w, n) && LessonInv(cfg, w, n) && CallInv(cfg, w, r);
    QApart(cfg, w, NextStep(cfg, w1, r, n, k), n);
  }

  lemma QEndRun(cfg: Config, w: World, w1: World, r: nat, n: nat, status: Status)
    requires Walking(cfg, w, r, n) && w.calls[r].decision.Approval? && status != InFlight
    requires w1 == w.(admitted := w1.admitted, parked := w1.parked)
    requires w1.parked == w.parked - {GateTask(n)} || (w1.parked == w.parked && w.calls[r].pc.Waiting?)
    ensures QInv(EndRun(w1, r, n, status))
  {
    assert LessonQ(w, n) && LessonInv(cfg, w, n) && CallInv(cfg, w, r);
    QApart(cfg, w, EndRun(w1, r, n, status), n);
  }

  lemma QWaiting(cfg: Config, w: World, r: nat, ok: bool)
    requires Inv(cfg, w) && QInv(w) && r < |w.calls| && w.calls[r].item < |w.lessons| && w.calls[r].pc.Waiting?
    ensures QInv(WaitStep(cfg, w, r, w.calls[r].item, w.calls[r].pc.step, ok))
  {
    var n, k := w.calls[r].item, w.calls[r].pc.step;
    assert LessonQ(w, n) && LessonInv(cfg, w, n) && CallInv(cfg, w, r);
    var w1 := Admit(cfg, w, n, k);
    if k == 0 {
      QApart(cfg, w, WaitStep(cfg, w, r, n, k, ok), n);
    } else if Admitted(cfg, w, k, ok) {
      QNextStep(cfg, w, w1, r, n, k);
    } else {
      QEndRun(cfg, w, w1, r, n, Halted);
    }
  }

  lemma QDrop(cfg: Config, w: World, r: nat)
    requires Inv(cfg, w) && QInv(w) && r < |w.calls| && w.calls[r].item < |w.lessons| && w.calls[r].pc.Drop?
    ensures QInv(DropStep(cfg, w, r, w.calls[r].item))
  {
    var n := w.calls[r].item;
    assert LessonQ(w, n) && LessonInv(cfg, w, n) && CallInv(cfg, w, r);
    var w1 := w.(parked := w.parked - {GateTask(n)});
    if !HasRun(w, n) || w.results[n].Suspended? {
      QApart(cfg, w, DropStep(cfg, w, r, n), n);
    } else if w.results[n].Failed? {
      QEndRun(cfg, w, w1, r, n, Halted);
    } else {
      QNextStep(cfg, w, w1, r, n, 0);
    }
  }

  lemma QCallStep(cfg: Config, w: World, r: nat, ok: bool)
    requires Inv(cfg, w) && QInv(w)
    ensures QInv(CallStep(cfg, w, r, ok))
  {
    if r < |w.calls| && w.calls[r].item < |w.lessons| {
      match w.calls[r].pc {
        case Flip => QFlip(cfg, w, r);
        case Resume => QResume(cfg, w, r);
        case Repark => QRepark(cfg, w, r);
        case Record(_) => QRecord(cfg, w, r);
        case Waiting(_) => QWaiting(cfg, w, r, ok);
        case Drop => QDrop(cfg, w, r);
        case _ =>
      }
    }
  }

  lemma QResolve(cfg: Config, w: World, item: nat, decision: Decision)
    requires Inv(cfg, w) && QInv(w)
    ensures QInv(ResolveStep(w, item, decision))
  {
    var w' := ResolveStep(w, item, decision);
    forall m | 0 <= m < |w'.lessons| ensures LessonQ(w', m) {
      assert LessonQ(w, m) && LessonInv(cfg, w, m);
    }
    forall i | 0 <= i < |w'.wakes| ensures Gated(w', w'.wakes[i].item) { assert Gated(w, w.wakes[i].item); }
  }

  lemma QStartWake(cfg: Config, w: World, n: nat)
    requires Inv(cfg, w) && QInv(w)
    ensures QInv(StartWakeStep(w, n))
  {
    if n < |w.lessons| && HasGate(w, n) {
      assert LessonQ(w, n) && LessonInv(cfg, w, n);
      assert Gated(w, n);
      QApart(cfg, w, StartWakeStep(w, n), n);
    }
  }

  lemma QWakeStep(cfg: Config, w: World, i: nat, ok: bool)
    requires Inv(cfg, w) && QInv(w)
    ensures QInv(WakeStep(cfg, w, i, ok))
  {
    if i < |w.wakes| {
      var n := w.wakes[i].item;
      assert Gated(w, n);
      assert LessonQ(w, n) && LessonInv(cfg, w, n);
      match w.wakes[i].pc
      case WakeRepark(_) => QApart(cfg, w, WakeStep(cfg, w, i, ok), n);
      case WakeRecord(_) => QApart(cfg, w, WakeStep(cfg, w, i, ok), n);
      case _ =>
    }
  }

  lemma QStep(cfg: Config, w: World, e: Event)
    requires Inv(cfg, w) && QInv(w)
    ensures QInv(Step(cfg, w, e))
  {
    match e {
      case Ask(topic) => QAsk(cfg, w, Trim(topic) in cfg.whitelist);
      case Resolve(item, decision) => QResolve(cfg, w, item, decision);
      case StepLesson(n, ok) =>
        if n < |w.lessons| {
          if w.lessons[n].pc.Fresh? { QFresh(cfg, w, n, ok); } else { QLessonStep(cfg, w, n, ok); }
        }
      case StepCall(r, ok) => QCallStep(cfg, w, r, ok);
      case StartWake(n) => QStartWake(cfg, w, n);
      case StepWake(i, ok) => QWakeStep(cfg, w, i, ok);
    }
  }

  lemma {:induction false} QRun(cfg: Config, es: seq<Event>)
    ensures Inv(cfg, Run(cfg, es)) && QInv(Run(cfg, es))
  {
    InvRun(cfg, es);
    if es != [] {
      QRun(cfg, es[..|es| - 1]);
      QStep(cfg, Run(cfg, es[..|es| - 1]), es[|es| - 1]);
    }
  }
}
