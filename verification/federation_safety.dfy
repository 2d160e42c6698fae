/**
 * Safety of the gate over every run, under every interleaving of lessons, resolvers and
 * answerless wakes: a gated task crosses at most once, only after its own item was
 * approved, steps run in order, and the receiving hub stays within its quota.
 */
module FederationSafety {
  import opened Options
  import opened Text
  import opened Federation

  /** The steps lesson `n` has sent, oldest first. */
  function StepsOf(log: seq<Effect>, n: nat): seq<nat> {
    if log == [] then []
    else
      var e := log[|log| - 1];
      StepsOf(log[..|log| - 1], n) + (if e.lesson == n then [e.step] else [])
  }

  function UpTo(m: nat): (r: seq<nat>)
    ensures |r| == m && forall k :: 0 <= k < m ==> r[k] == k
  {
    if m == 0 then [] else UpTo(m - 1) + [m - 1]
  }

  lemma StepsOfSend(log: seq<Effect>, n: nat, k: nat, other: nat)
    ensures StepsOf(log + [Effect(n, k)], other) == StepsOf(log, other) + (if other == n then [k] else [])
  {
    assert (log + [Effect(n, k)])[..|log|] == log;
  }

  predicate Approves(d: Decision) { d == Approval(true) }

  /** What holds of lesson `n` between steps. */
  ghost predicate LessonInv(cfg: Config, w: World, n: nat)
    requires n < |w.lessons|
  {
    var l := w.lessons[n];
    && StepsOf(w.sent, n) == UpTo(l.started)
    && l.started <= |cfg.tail| + 1
    && (n in w.inbox ==> !l.clear)
    && (l.pc.Fresh? ==> l.clear && l.status == InFlight && l.started == l.pc.step + 1 && l.pc.step <= |cfg.tail|)
    && (l.clear ==> l.pc.Fresh? || (l.pc.Left? && l.status != InFlight))
    && (!l.clear && n !in w.inbox ==> l.pc.WriteItem? && l.started == 0 && l.status == InFlight)
    && (l.pc.WriteItem? ==> n !in w.inbox && GateTask(n) !in w.parked)
    && (n in w.inbox ==>
          match w.inbox[n]
          case Pending => l.started == 0 && l.status == InFlight
          case Resolved(d, r) =>
            && r < |w.calls| && w.calls[r].item == n && w.calls[r].decision == d
            && !w.calls[r].pc.Flip? && !w.calls[r].pc.Refused?
            && (!Approves(d) ==> l.started == 0))
    && (l.status == Done ==> l.started == |cfg.tail| + 1)
  }

  /** What holds of resolver call `r` between steps. */
  ghost predicate CallInv(cfg: Config, w: World, r: nat)
    requires r < |w.calls|
  {
    var c := w.calls[r];
    c.pc.Refused? ||
    (&& c.item in w.inbox && c.item < |w.lessons|
     && (c.pc.Flip? || w.inbox[c.item] == Resolved(c.decision, r))
     && var l := w.lessons[c.item];
        && (c.pc.Resume? ==> l.started == 0 && l.status == InFlight)
        && (c.pc.Repark? ==> c.decision.OtherKind? && l.started == 0 && l.status == InFlight)
        && (c.pc.Record? ==> && l.status == InFlight && l.started == (if Approves(c.decision) then 1 else 0)
                             && (!Approves(c.decision) ==> c.pc.result != Ok))
        && (c.pc.Waiting? ==> && Approves(c.decision) && l.status == InFlight
                              && l.started == c.pc.step + 1 && c.pc.step <= |cfg.tail|)
        && (c.pc.Drop? ==> && l.status == InFlight
                           && l.started == (if Approves(c.decision) then 1 else 0)
                           && (!Approves(c.decision) ==> c.item in w.results && w.results[c.item] != Ok)))
  }

  /** No stored gate state and no wake ever carries an approval decision. */
  ghost predicate NoStoredApproval(w: World) {
    && (forall n: nat :: GateTask(n) in w.parked ==>
          n < |w.lessons| && w.parked[GateTask(n)].GateState? && Harmless(w.parked[GateTask(n)].answer))
    && (forall i :: 0 <= i < |w.wakes| ==>
          && w.wakes[i].item in w.inbox
          && !w.wakes[i].pc.WakeWaiting?
          && (w.wakes[i].pc.WakeRecord? ==> w.wakes[i].pc.result == Suspended)
          && (w.wakes[i].pc.WakeRepark? ==> Harmless(w.wakes[i].pc.answer)))
  }

  predicate Harmless(answer: Option<Decision>) {
    answer.Some? ==> answer.value.OtherKind?
  }

  ghost predicate Inv(cfg: Config, w: World) {
    && (forall n :: n in w.inbox ==> n < |w.lessons|)
    && (forall n :: 0 <= n < |w.lessons| ==> LessonInv(cfg, w, n))
    && (forall r :: 0 <= r < |w.calls| ==> CallInv(cfg, w, r))
    && NoStoredApproval(w)
    && (forall n: nat :: GateTask(n) in w.parked ==> n in w.inbox)
    && (forall e :: e in w.sent ==> e.lesson < |w.lessons|)
    && |w.admitted| <= cfg.budget
  }

  lemma UnsentIsEmpty(log: seq<Effect>, n: nat)
    requires forall e :: e in log ==> e.lesson != n
    ensures StepsOf(log, n) == []
  {}

  /** Sending step `k` when steps 0..k-1 were sent keeps the log of the lesson in order. */
  lemma SendSteps(w: World, n: nat, k: nat)
    requires n < |w.lessons|
    ensures StepsOf(w.sent, n) == UpTo(k) ==> StepsOf(Send(w, n, k).sent, n) == UpTo(k + 1)
    ensures forall m: nat :: m != n ==> StepsOf(Send(w, n, k).sent, m) == StepsOf(w.sent, m)
  {
    StepsOfSend(w.sent, n, k, n);
    forall m: nat | m != n ensures StepsOf(Send(w, n, k).sent, m) == StepsOf(w.sent, m) {
      StepsOfSend(w.sent, n, k, m);
    }
  }

  /** A world with one more lesson keeps what held of the lessons and calls it had. */
  lemma InvGrow(cfg: Config, w: World, w': World, l: Lesson)
    requires Inv(cfg, w)
    requires w' == w.(lessons := w.lessons + [l], sent := w'.sent)
    requires forall n: nat :: n < |w.lessons| ==> StepsOf(w'.sent, n) == StepsOf(w.sent, n)
    requires forall e :: e in w'.sent ==> e in w.sent || e.lesson == |w.lessons|
    requires LessonInv(cfg, w', |w.lessons|)
    ensures Inv(cfg, w')
  {
    forall m | 0 <= m < |w'.lessons| ensures LessonInv(cfg, w', m) {
      if m < |w.lessons| { assert LessonInv(cfg, w, m); }
    }
    forall r | 0 <= r < |w'.calls| ensures CallInv(cfg, w', r) {
      assert CallInv(cfg, w, r);
    }
  }

  lemma InvAsk(cfg: Config, w: World, clear: bool)
    requires Inv(cfg, w)
    ensures Inv(cfg, AskStep(w, clear))
  {
    var n := |w.lessons|;
    UnsentIsEmpty(w.sent, n);
    if clear {
      var w1 := w.(lessons := w.lessons + [Lesson(true, InFlight, 0, Fresh(0))]);
      SendSteps(w1, n, 0);
      assert Send(w1, n, 0).lessons == w.lessons + [Lesson(true, InFlight, 1, Fresh(0))];
      InvGrow(cfg, w, Send(w1, n, 0), Lesson(true, InFlight, 1, Fresh(0)));
    } else {
      InvGrow(cfg, w, AskStep(w, clear), Lesson(false, InFlight, 0, WriteItem));
    }
  }

  /** Everything but lesson `n` and call `r` is as before. */
  ghost predicate Only(w: World, w': World, n: nat, r: nat) {
    && |w'.lessons| == |w.lessons| && |w'.calls| == |w.calls| && w'.wakes == w.wakes
    && n < |w.lessons|
    && (forall m :: 0 <= m < |w.lessons| && m != n ==> w'.lessons[m] == w.lessons[m])
    && w'.lessons[n].clear == w.lessons[n].clear
    && (forall q :: 0 <= q < |w.calls| && q != r ==> w'.calls[q] == w.calls[q])
    && (forall m :: m != n ==> (m in w'.inbox <==> m in w.inbox))
    && (forall m :: m != n && m in w.inbox ==> w'.inbox[m] == w.inbox[m])
    && (forall m :: m != n && m in w.results ==> m in w'.results && w'.results[m] == w.results[m])
    && (forall m: nat :: m != n ==> (GateTask(m) in w'.parked <==> GateTask(m) in w.parked))
    && (forall m: nat :: m != n && GateTask(m) in w.parked ==> w'.parked[GateTask(m)] == w.parked[GateTask(m)])
    && (forall m: nat :: m != n ==> StepsOf(w'.sent, m) == StepsOf(w.sent, m))
    && (forall e :: e in w'.sent ==> e in w.sent || e.lesson == n)
  }

  /** Enough to carry the invariant over a step of call `r` on its own item `n`. */
  lemma InvOnly(cfg: Config, w: World, w': World, n: nat, r: nat)
    requires Inv(cfg, w) && Only(w, w', n, r)
    requires r < |w.calls| && w.calls[r].item == n && w'.calls[r].item == n
    requires w'.calls[r].decision == w.calls[r].decision
    requires n in w.inbox && n in w'.inbox
    requires w.inbox[n] == w'.inbox[n] == Resolved(w.calls[r].decision, r) || w'.calls[r].pc.Refused?
             || (w.inbox[n] == Pending && w'.inbox[n] == Resolved(w.calls[r].decision, r))
    requires w'.calls[r].pc.Refused? ==>
               w'.inbox == w.inbox && w'.lessons == w.lessons && w'.results == w.results && w.calls[r].pc.Flip?
    requires LessonInv(cfg, w', n) && CallInv(cfg, w', r)
    requires GateTask(n) in w'.parked ==> w'.parked[GateTask(n)].GateState? && Harmless(w'.parked[GateTask(n)].answer)
    requires |w'.admitted| <= cfg.budget
    ensures Inv(cfg, w')
  {
    forall m | 0 <= m < |w'.lessons| ensures LessonInv(cfg, w', m) {
      assert LessonInv(cfg, w, m);
    }
    forall q | 0 <= q < |w'.calls| ensures CallInv(cfg, w', q) {
      assert CallInv(cfg, w, q);
    }
  }

  /** Enough to carry the invariant over a step of lesson `n` itself. */
  lemma InvOnlyLesson(cfg: Config, w: World, w': World, n: nat)
    requires Inv(cfg, w) && Only(w, w', n, |w.calls|) && LessonInv(cfg, w', n)
    requires n in w.inbox ==>
               w'.lessons[n].status == w.lessons[n].status && w'.lessons[n].started == w.lessons[n].started
    requires n in w.inbox ==> n in w'.inbox && w'.inbox[n] == w.inbox[n]
    requires n in w.results ==> n in w'.results && (w'.results[n] == w.results[n] || w'.results[n] != Ok)
    requires GateTask(n) in w'.parked ==>
               n in w'.inbox && w'.parked[GateTask(n)].GateState? && Harmless(w'.parked[GateTask(n)].answer)
    requires |w'.admitted| <= cfg.budget
    ensures Inv(cfg, w')
  {
    forall m | 0 <= m < |w'.lessons| ensures LessonInv(cfg, w', m) {
      assert LessonInv(cfg, w, m);
    }
    forall q | 0 <= q < |w'.calls| ensures CallInv(cfg, w', q) {
      assert CallInv(cfg, w, q);
    }
  }

  lemma InvLessonPark(cfg: Config, w: World, n: nat, ok: bool)
    requires Inv(cfg, w) && n < |w.lessons| && (w.lessons[n].pc.WriteItem? || w.lessons[n].pc.ParkRun?)
    ensures Inv(cfg, LessonStep(cfg, w, n, ok))
  {
    assert LessonInv(cfg, w, n);
    InvOnlyLesson(cfg, w, LessonStep(cfg, w, n, ok), n);
  }

  lemma InvLessonParkGate(cfg: Config, w: World, n: nat, ok: bool)
    requires Inv(cfg, w) && n < |w.lessons| && (w.lessons[n].pc.ParkGate? || w.lessons[n].pc.RecordGate?)
    ensures Inv(cfg, LessonStep(cfg, w, n, ok))
  {
    assert LessonInv(cfg, w, n);
    InvOnlyLesson(cfg, w, LessonStep(cfg, w, n, ok), n);
  }

  lemma OnlyFresh(w: World, w1: World, n: nat, k: nat, status: Status, pc: LessonPc)
    requires n < |w.lessons| && w1 == w.(admitted := w1.admitted)
    ensures Only(w, SetLesson(w1, n, status, pc), n, |w.calls|)
    ensures Only(w, SetLesson(Send(w1, n, k), n, status, pc), n, |w.calls|)
  {
    SendSteps(w1, n, k);
  }

  lemma InvFreshEnds(cfg: Config, w: World, w1: World, n: nat, status: Status)
    requires Inv(cfg, w) && n < |w.lessons| && w.lessons[n].pc.Fresh?
    requires w1 == w.(admitted := w1.admitted) && |w1.admitted| <= cfg.budget
    requires status == Halted || (status == Done && w.lessons[n].started == |cfg.tail| + 1)
    ensures Inv(cfg, SetLesson(w1, n, status, Left))
  {
    assert LessonInv(cfg, w, n);
    OnlyFresh(w, w1, n, 0, status, Left);
    InvOnlyLesson(cfg, w, SetLesson(w1, n, status, Left), n);
  }

  lemma InvFreshGoesOn(cfg: Config, w: World, w1: World, n: nat, k: nat)
    requires Inv(cfg, w) && n < |w.lessons| && w.lessons[n].pc == Fresh(k) && k < |cfg.tail|
    requires w1 == w.(admitted := w1.admitted) && |w1.admitted| <= cfg.budget
    ensures Inv(cfg, SetLesson(Send(w1, n, k + 1), n, InFlight, Fresh(k + 1)))
  {
    assert LessonInv(cfg, w, n);
    SendSteps(w1, n, k + 1);
    OnlyFresh(w, w1, n, k + 1, InFlight, Fresh(k + 1));
    InvOnlyLesson(cfg, w, SetLesson(Send(w1, n, k + 1), n, InFlight, Fresh(k + 1)), n);
  }

  lemma InvLessonFresh(cfg: Config, w: World, n: nat, ok: bool)
    requires Inv(cfg, w) && n < |w.lessons| && w.lessons[n].pc.Fresh?
    ensures Inv(cfg, FreshStep(cfg, w, n, w.lessons[n].pc.step, ok))
  {
    assert LessonInv(cfg, w, n);
    var k := w.lessons[n].pc.step;
    var w1 := Admit(cfg, w, n, k);
    if !Admitted(cfg, w, k, ok) {
      InvFreshEnds(cfg, w, w1, n, Halted);
    } else if k < |cfg.tail| {
      InvFreshGoesOn(cfg, w, w1, n, k);
    } else {
      InvFreshEnds(cfg, w, w1, n, Done);
    }
  }

  lemma InvFlip(cfg: Config, w: World, r: nat)
    requires Inv(cfg, w) && r < |w.calls| && w.calls[r].item < |w.lessons| && w.calls[r].pc.Flip?
    ensures Inv(cfg, FlipStep(w, r, w.calls[r].item))
  {
    assert CallInv(cfg, w, r);
    var n := w.calls[r].item;
    assert LessonInv(cfg, w, n);
    InvOnly(cfg, w, FlipStep(w, r, n), n, r);
  }

  lemma OnlySend(w: World, r: nat, n: nat, k: nat, pc: CallPc)
    requires r < |w.calls| && n < |w.lessons|
    ensures Only(w, SetCall(Send(w, n, k), r, pc), n, r)
  {
    SendSteps(w, n, k);
  }

  lemma InvResume(cfg: Config, w: World, r: nat)
    requires Inv(cfg, w) && r < |w.calls| && w.calls[r].item < |w.lessons| && w.calls[r].pc.Resume?
    ensures Inv(cfg, ResumeStep(w, r, w.calls[r].item))
  {
    assert CallInv(cfg, w, r);
    var n := w.calls[r].item;
    assert LessonInv(cfg, w, n);
    if GateTask(n) in w.parked && w.calls[r].decision == Approval(true) {
      SendSteps(w, n, 0);
      OnlySend(w, r, n, 0, Waiting(0));
    }
    InvOnly(cfg, w, ResumeStep(w, r, n), n, r);
  }

  lemma InvAfterGate(cfg: Config, w: World, r: nat, ok: bool)
    requires Inv(cfg, w) && r < |w.calls| && w.calls[r].item < |w.lessons|
    requires w.calls[r].pc.Repark? || w.calls[r].pc.Record?
    ensures Inv(cfg, CallStep(cfg, w, r, ok))
  {
    assert CallInv(cfg, w, r);
    var n := w.calls[r].item;
    assert LessonInv(cfg, w, n);
    InvOnly(cfg, w, CallStep(cfg, w, r, ok), n, r);
  }

  lemma InvEndRun(cfg: Config, w: World, w1: World, r: nat, n: nat, status: Status)
    requires Inv(cfg, w) && r < |w.calls| && w.calls[r].item == n && n < |w.lessons|
    requires (w.calls[r].pc.Waiting? || w.calls[r].pc.Drop?)
    requires w1 == w.(admitted := w1.admitted, parked := w1.parked) && |w1.admitted| <= cfg.budget
    requires w1.parked == w.parked || w1.parked == w.parked - {GateTask(n)}
    requires status == Halted || (status == Done && w.lessons[n].started == |cfg.tail| + 1)
    ensures Inv(cfg, EndRun(w1, r, n, status))
  {
    assert CallInv(cfg, w, r) && LessonInv(cfg, w, n);
    InvOnly(cfg, w, EndRun(w1, r, n, status), n, r);
  }

  lemma InvNextStep(cfg: Config, w: World, w1: World, r: nat, n: nat, k: nat)
    requires Inv(cfg, w) && r < |w.calls| && w.calls[r].item == n && n < |w.lessons|
    requires (w.calls[r].pc.Waiting? || w.calls[r].pc.Drop?) && Approves(w.calls[r].decision)
    requires w1 == w.(admitted := w1.admitted, parked := w1.parked) && |w1.admitted| <= cfg.budget
    requires w1.parked == w.parked || w1.parked == w.parked - {GateTask(n)}
    requires w.lessons[n].started == k + 1 <= |cfg.tail| + 1
    ensures Inv(cfg, NextStep(cfg, w1, r, n, k))
  {
    if k < |cfg.tail| {
      InvSendNext(cfg, w, w1, r, n, k);
    } else {
      InvEndRun(cfg, w, w1, r, n, Done);
    }
  }

  lemma InvSendNext(cfg: Config, w: World, w1: World, r: nat, n: nat, k: nat)
    requires Inv(cfg, w) && r < |w.calls| && w.calls[r].item == n && n < |w.lessons|
    requires (w.calls[r].pc.Waiting? || w.calls[r].pc.Drop?) && Approves(w.calls[r].decision)
    requires w1 == w.(admitted := w1.admitted, parked := w1.parked) && |w1.admitted| <= cfg.budget
    requires w1.parked == w.parked || w1.parked == w.parked - {GateTask(n)}
    requires w.lessons[n].started == k + 1 <= |cfg.tail|
    ensures Inv(cfg, SetCall(Send(w1, n, k + 1), r, Waiting(k + 1)))
  {
    assert CallInv(cfg, w, r) && LessonInv(cfg, w, n);
    SendSteps(w1, n, k + 1);
    InvOnly(cfg, w, SetCall(Send(w1, n, k + 1), r, Waiting(k + 1)), n, r);
  }

  lemma InvWaiting(cfg: Config, w: World, r: nat, ok: bool)
    requires Inv(cfg, w) && r < |w.calls| && w.calls[r].item < |w.lessons| && w.calls[r].pc.Waiting?
    ensures Inv(cfg, WaitStep(cfg, w, r, w.calls[r].item, w.calls[r].pc.step, ok))
  {
    assert CallInv(cfg, w, r);
    var n, k := w.calls[r].item, w.calls[r].pc.step;
    var w1 := Admit(cfg, w, n, k);
    if k == 0 {
      assert LessonInv(cfg, w, n);
      InvOnly(cfg, w, WaitStep(cfg, w, r, n, k, ok), n, r);
    } else if !Admitted(cfg, w, k, ok) {
      InvEndRun(cfg, w, w1, r, n, Halted);
    } else {
      InvNextStep(cfg, w, w1, r, n, k);
    }
  }

  lemma InvDrop(cfg: Config, w: World, r: nat)
    requires Inv(cfg, w) && r < |w.calls| && w.calls[r].item < |w.lessons| && w.calls[r].pc.Drop?
    ensures Inv(cfg, DropStep(cfg, w, r, w.calls[r].item))
  {
    assert CallInv(cfg, w, r);
    var n := w.calls[r].item;
    var w1 := w.(parked := w.parked - {GateTask(n)});
    assert LessonInv(cfg, w, n);
    if RunTask(n) !in w1.parked || n !in w.results || w.results[n].Suspended? {
      InvOnly(cfg, w, DropStep(cfg, w, r, n), n, r);
    } else if w.results[n].Failed? {
      InvEndRun(cfg, w, w1, r, n, Halted);
    } else {
      InvNextStep(cfg, w, w1, r, n, 0);
    }
  }

  lemma InvLessonStep(cfg: Config, w: World, n: nat, ok: bool)
    requires Inv(cfg, w)
    ensures Inv(cfg, LessonStep(cfg, w, n, ok))
  {
    if n < |w.lessons| {
      match w.lessons[n].pc {
        case Fresh(_) => InvLessonFresh(cfg, w, n, ok);
        case ParkGate => InvLessonParkGate(cfg, w, n, ok);
        case RecordGate => InvLessonParkGate(cfg, w, n, ok);
        case WriteItem => InvLessonPark(cfg, w, n, ok);
        case ParkRun => InvLessonPark(cfg, w, n, ok);
        case Left =>
      }
    }
  }

  lemma InvCallStep(cfg: Config, w: World, r: nat, ok: bool)
    requires Inv(cfg, w)
    ensures Inv(cfg, CallStep(cfg, w, r, ok))
  {
    if r < |w.calls| && w.calls[r].item < |w.lessons| {
      match w.calls[r].pc {
        case Flip => InvFlip(cfg, w, r);
        case Resume => InvResume(cfg, w, r);
        case Repark => InvAfterGate(cfg, w, r, ok);
        case Record(_) => InvAfterGate(cfg, w, r, ok);
        case Waiting(_) => InvWaiting(cfg, w, r, ok);
        case Drop => InvDrop(cfg, w, r);
        case _ =>
      }
    }
  }

  /** A wake and a new call change no lesson and no call already made. */
  lemma InvOutside(cfg: Config, w: World, w': World)
    requires Inv(cfg, w) && NoStoredApproval(w')
    requires w' == w.(calls := w'.calls, wakes := w'.wakes, parked := w'.parked, results := w'.results)
    requires w'.calls == w.calls ||
             (exists c :: w'.calls == w.calls + [c] && (c.pc.Refused? || (c.pc.Flip? && c.item in w.inbox)))
    requires forall n: nat :: GateTask(n) in w'.parked ==> n in w.inbox
    requires forall n :: n in w.results ==> n in w'.results && (w'.results[n] == w.results[n] || w'.results[n] != Ok)
    ensures Inv(cfg, w')
  {
    forall m | 0 <= m < |w'.lessons| ensures LessonInv(cfg, w', m) {
      assert LessonInv(cfg, w, m);
    }
    forall q | 0 <= q < |w'.calls| ensures CallInv(cfg, w', q) {
      if q < |w.calls| { assert CallInv(cfg, w, q); }
    }
  }

  lemma InvStep(cfg: Config, w: World, e: Event)
    requires Inv(cfg, w)
    ensures Inv(cfg, Step(cfg, w, e))
  {
    match e {
      case Ask(topic) => InvAsk(cfg, w, Trim(topic) in cfg.whitelist);
      case StepLesson(n, ok) => InvLessonStep(cfg, w, n, ok);
      case StepCall(r, ok) => InvCallStep(cfg, w, r, ok);
      case Resolve(_, _) => InvOutside(cfg, w, Step(cfg, w, e));
      case StartWake(_) => InvOutside(cfg, w, Step(cfg, w, e));
      case StepWake(_, _) => InvOutside(cfg, w, Step(cfg, w, e));
    }
  }

  lemma {:induction false} InvRun(cfg: Config, es: seq<Event>)
    ensures Inv(cfg, Run(cfg, es))
  {
    if es != [] {
      InvRun(cfg, es[..|es| - 1]);
      InvStep(cfg, Run(cfg, es[..|es| - 1]), es[|es| - 1]);
    }
  }

  /** In every reachable state a wake sends nothing: the gate gets a state without an answer, and will park again. */
  lemma WakeSendsNothing(cfg: Config, es: seq<Event>, n: nat)
    ensures var w, w' := Run(cfg, es), Run(cfg, es + [StartWake(n)]);
            && (GateTask(n) !in w.parked ==> w' == w)
            && (GateTask(n) in w.parked ==>
                  var state := w.parked[GateTask(n)];
                  && state.GateState? && (state.answer.None? || state.answer.value.OtherKind?)
                  && w' == w.(wakes := w.wakes + [Wake(n, WakeRepark(state.answer))]))
  {
    InvRun(cfg, es);
    assert (es + [StartWake(n)])[..|es|] == es;
  }

  // --- what the runs have to do with the events that started them -----------------------

  /** The topics asked for, in the order the lessons were started. */
  function Topics(es: seq<Event>): seq<string> {
    if es == [] then []
    else Topics(es[..|es| - 1]) + (if es[|es| - 1].Ask? then [es[|es| - 1].topic] else [])
  }

  /** No step of a resolver moves the dispatch of a lesson or changes its whitelist verdict. */
  ghost predicate SameLessons(w: World, w': World) {
    |w'.lessons| == |w.lessons| && forall n :: 0 <= n < |w.lessons| ==>
      w'.lessons[n].clear == w.lessons[n].clear && w'.lessons[n].pc == w.lessons[n].pc
  }

  /** No step changes the item or the decision of a call already made. */
  ghost predicate SameCalls(w: World, w': World) {
    |w'.calls| == |w.calls| && forall r :: 0 <= r < |w.calls| ==>
      w'.calls[r].item == w.calls[r].item && w'.calls[r].decision == w.calls[r].decision
  }

  lemma FlipShape(w: World, r: nat, n: nat)
    requires r < |w.calls|
    ensures SameLessons(w, FlipStep(w, r, n)) && SameCalls(w, FlipStep(w, r, n))
  {}

  lemma ResumeShape(w: World, r: nat, n: nat)
    requires r < |w.calls| && n < |w.lessons|
    ensures SameLessons(w, ResumeStep(w, r, n)) && SameCalls(w, ResumeStep(w, r, n))
  {}

  lemma NextStepShape(cfg: Config, w: World, r: nat, n: nat, k: nat)
    requires r < |w.calls| && n < |w.lessons|
    ensures SameLessons(w, NextStep(cfg, w, r, n, k)) && SameCalls(w, NextStep(cfg, w, r, n, k))
  {}

  lemma EndRunShape(w: World, r: nat, n: nat, status: Status)
    requires r < |w.calls| && n < |w.lessons|
    ensures SameLessons(w, EndRun(w, r, n, status)) && SameCalls(w, EndRun(w, r, n, status))
  {}

  lemma WaitShape(cfg: Config, w: World, r: nat, n: nat, k: nat, ok: bool)
    requires r < |w.calls| && n < |w.lessons|
    ensures SameLessons(w, WaitStep(cfg, w, r, n, k, ok)) && SameCalls(w, WaitStep(cfg, w, r, n, k, ok))
  {
    var w1 := Admit(cfg, w, n, k);
    assert w1.lessons == w.lessons && w1.calls == w.calls;
    EndRunShape(w1, r, n, Halted);
    NextStepShape(cfg, w1, r, n, k);
  }

  lemma DropShape(cfg: Config, w: World, r: nat, n: nat)
    requires r < |w.calls| && n < |w.lessons|
    ensures SameLessons(w, DropStep(cfg, w, r, n)) && SameCalls(w, DropStep(cfg, w, r, n))
  {
    NextStepShape(cfg, w.(parked := w.parked - {GateTask(n)}), r, n, 0);
  }

  lemma CallStepShape(cfg: Config, w: World, r: nat, ok: bool)
    ensures SameLessons(w, CallStep(cfg, w, r, ok)) && SameCalls(w, CallStep(cfg, w, r, ok))
  {
    if r < |w.calls| && w.calls[r].item < |w.lessons| {
      var n := w.calls[r].item;
      match w.calls[r].pc {
        case Flip => FlipShape(w, r, n);
        case Resume => ResumeShape(w, r, n);
        case Waiting(k) => WaitShape(cfg, w, r, n, k, ok);
        case Drop => DropShape(cfg, w, r, n);
        case _ =>
      }
    }
  }

  lemma FreshShape(cfg: Config, w: World, n: nat, k: nat, ok: bool)
    requires n < |w.lessons|
    ensures var w' := FreshStep(cfg, w, n, k, ok);
            && w'.calls == w.calls && |w'.lessons| == |w.lessons|
            && w'.lessons[n].clear == w.lessons[n].clear
            && (forall m :: 0 <= m < |w.lessons| && m != n ==> w'.lessons[m] == w.lessons[m])
  {}

  lemma LessonStepShape(cfg: Config, w: World, n: nat, ok: bool)
    ensures var w' := LessonStep(cfg, w, n, ok);
            && w'.calls == w.calls && |w'.lessons| == |w.lessons|
            && (n < |w.lessons| ==> w'.lessons[n].clear == w.lessons[n].clear)
            && (forall m :: 0 <= m < |w.lessons| && m != n ==> w'.lessons[m] == w.lessons[m])
  {
    if n < |w.lessons| && w.lessons[n].pc.Fresh? { FreshShape(cfg, w, n, w.lessons[n].pc.step, ok); }
  }

  ghost predicate Extends(w: World, w': World) {
    && |w.lessons| <= |w'.lessons| && |w.calls| <= |w'.calls|
    && (forall n :: 0 <= n < |w.lessons| ==> w'.lessons[n].clear == w.lessons[n].clear)
    && (forall r :: 0 <= r < |w.calls| ==>
          w'.calls[r].item == w.calls[r].item && w'.calls[r].decision == w.calls[r].decision)
  }

  lemma StepExtends(cfg: Config, w: World, e: Event)
    ensures var w' := Step(cfg, w, e);
            && Extends(w, w')
            && |w'.lessons| == |w.lessons| + (if e.Ask? then 1 else 0)
            && (e.Ask? ==> (w'.lessons[|w.lessons|].clear <==> Trim(e.topic) in cfg.whitelist))
            && |w'.calls| == |w.calls| + (if e.Resolve? then 1 else 0)
            && (e.Resolve? ==> w'.calls[|w.calls|].item == e.item && w'.calls[|w.calls|].decision == e.decision)
  {
    match e {
      case StepCall(r, ok) => CallStepShape(cfg, w, r, ok);
      case StepLesson(n, ok) => LessonStepShape(cfg, w, n, ok);
      case _ =>
    }
  }

  lemma {:induction false} LessonsAreTopics(cfg: Config, es: seq<Event>)
    ensures |Run(cfg, es).lessons| == |Topics(es)|
    ensures forall n :: 0 <= n < |Topics(es)| ==>
              (Run(cfg, es).lessons[n].clear <==> Trim(Topics(es)[n]) in cfg.whitelist)
  {
    if es != [] {
      LessonsAreTopics(cfg, es[..|es| - 1]);
      StepExtends(cfg, Run(cfg, es[..|es| - 1]), es[|es| - 1]);
    }
  }

  /** Every resolver call is one of the calls that were made, with its own decision. */
  lemma {:induction false} CallsWereMade(cfg: Config, es: seq<Event>, r: nat)
    requires r < |Run(cfg, es).calls|
    ensures Resolve(Run(cfg, es).calls[r].item, Run(cfg, es).calls[r].decision) in es
  {
    var before, e := es[..|es| - 1], es[|es| - 1];
    StepExtends(cfg, Run(cfg, before), e);
    if r < |Run(cfg, before).calls| {
      CallsWereMade(cfg, before, r);
    } else {
      assert e == es[|es| - 1];
    }
  }

  lemma CountSteps(log: seq<Effect>, n: nat, k: nat)
    ensures multiset(log)[Effect(n, k)] == multiset(StepsOf(log, n))[k]
  {
    if log != [] {
      CountSteps(log[..|log| - 1], n, k);
      assert log == log[..|log| - 1] + [log[|log| - 1]];
    }
  }

  lemma UpToOnce(m: nat, k: nat)
    ensures multiset(UpTo(m))[k] == if k < m then 1 else 0
  {}

  /**
   * The safety theorem.  Whatever the interleaving, the gated task of lesson `n` reaches the
   * peer at most once, and only if its topic is on the whitelist or its inbox item was
   * resolved with an approval that some caller submitted for exactly this item.
   */
  lemma CrossesAtMostOnceAndOnlyIfApproved(cfg: Config, es: seq<Event>, n: nat)
    ensures var w := Run(cfg, es);
            && multiset(w.sent)[Effect(n, 0)] <= 1
            && (Effect(n, 0) in w.sent ==>
                  && n < |Topics(es)|
                  && (Trim(Topics(es)[n]) in cfg.whitelist ||
                      (&& n in w.inbox && w.inbox[n].Resolved? && w.inbox[n].decision == Approval(true)
                       && Resolve(n, Approval(true)) in es)))
  {
    var w := Run(cfg, es);
    InvRun(cfg, es);
    LessonsAreTopics(cfg, es);
    CountSteps(w.sent, n, 0);
    if n < |w.lessons| {
      assert LessonInv(cfg, w, n);
      UpToOnce(w.lessons[n].started, 0);
      if n in w.inbox && w.inbox[n].Resolved? {
        CallsWereMade(cfg, es, w.inbox[n].call);
      }
    } else {
      UnsentIsEmpty(w.sent, n);
    }
  }

  /**
   * A run's effects are always the steps 0, 1, 2, … in order, each once; all of them when it
   * is done, none when its item was not approved.  A whitelisted lesson has no inbox item.
   */
  lemma EffectsAreAPrefix(cfg: Config, es: seq<Event>, n: nat)
    requires n < |Topics(es)|
    ensures var w := Run(cfg, es);
            && |w.lessons| == |Topics(es)|
            && (exists m: nat :: m <= |cfg.tail| + 1 && StepsOf(w.sent, n) == UpTo(m))
            && (w.lessons[n].status == Done ==> StepsOf(w.sent, n) == UpTo(|cfg.tail| + 1))
            && (Trim(Topics(es)[n]) in cfg.whitelist ==> n !in w.inbox)
            && (n in w.inbox && (w.inbox[n].Pending? || w.inbox[n].decision != Approval(true)) ==>
                  StepsOf(w.sent, n) == [])
  {
    InvRun(cfg, es);
    LessonsAreTopics(cfg, es);
    assert LessonInv(cfg, Run(cfg, es), n);
  }

  // --- the quota ---------------------------------------------------------------------------

  /** Step `k` of lesson `n` has been sent and is not being waited for. */
  ghost predicate Behind(w: World, e: Effect) {
    && e.lesson < |w.lessons|
    && e.step < w.lessons[e.lesson].started
    && (w.lessons[e.lesson].pc.Fresh? ==> e.step < w.lessons[e.lesson].pc.step)
    && (forall r :: 0 <= r < |w.calls| && w.calls[r].item == e.lesson && w.calls[r].pc.Waiting? ==>
          e.step < w.calls[r].pc.step)
  }

  ghost predicate QuotaInv(cfg: Config, w: World) {
    && (forall e :: e in w.admitted ==> Behind(w, e) && Crosses(cfg, e.step))
    && (forall i, j :: 0 <= i < j < |w.admitted| ==> w.admitted[i] != w.admitted[j])
  }

  /** Steps begun never shrink, and a step newly waited for was not begun before. */
  ghost predicate Ahead(w: World, w': World) {
    && |w.lessons| <= |w'.lessons|
    && (forall n :: 0 <= n < |w.lessons| ==>
          && w.lessons[n].started <= w'.lessons[n].started
          && (w'.lessons[n].pc.Fresh? ==>
                w'.lessons[n].pc == w.lessons[n].pc || w.lessons[n].started <= w'.lessons[n].pc.step))
    && (forall r :: 0 <= r < |w'.calls| && w'.calls[r].pc.Waiting? && w'.calls[r].item < |w.lessons| ==>
          || (r < |w.calls| && w'.calls[r] == w.calls[r])
          || w.lessons[w'.calls[r].item].started <= w'.calls[r].pc.step)
  }

  lemma QuotaKept(cfg: Config, w: World, w': World)
    requires QuotaInv(cfg, w) && Ahead(w, w') && w'.admitted == w.admitted
    ensures QuotaInv(cfg, w')
  {
    forall e | e in w'.admitted ensures Behind(w', e) && Crosses(cfg, e.step) {
      assert Behind(w, e);
    }
  }

  lemma QuotaAdmits(cfg: Config, w: World, w': World, e: Effect)
    requires QuotaInv(cfg, w) && Ahead(w, w') && w'.admitted == w.admitted + [e]
    requires Behind(w', e) && Crosses(cfg, e.step) && !Behind(w, e)
    ensures QuotaInv(cfg, w')
  {
    forall a | a in w'.admitted ensures Behind(w', a) && Crosses(cfg, a.step) {
      if a in w.admitted { assert Behind(w, a); }
    }
  }

  lemma AheadFlip(w: World, r: nat, n: nat)
    requires r < |w.calls|
    ensures Ahead(w, FlipStep(w, r, n))
  {}

  lemma AheadResume(w: World, r: nat, n: nat)
    requires r < |w.calls| && n < |w.lessons| && w.lessons[n].started == 0 && w.calls[r].item == n
    ensures Ahead(w, ResumeStep(w, r, n))
  {}

  lemma AheadNextStep(cfg: Config, w: World, r: nat, n: nat, k: nat)
    requires r < |w.calls| && n < |w.lessons| && w.lessons[n].started == k + 1 && w.calls[r].item == n
    requires !w.lessons[n].pc.Fresh?
    ensures Ahead(w, NextStep(cfg, w, r, n, k))
  {}

  lemma AheadEndRun(w: World, r: nat, n: nat, status: Status)
    requires r < |w.calls| && n < |w.lessons|
    ensures Ahead(w, EndRun(w, r, n, status))
  {}

  lemma AheadResumeRun(cfg: Config, w: World, r: nat, n: nat)
    requires r < |w.calls| && n < |w.lessons| && w.calls[r].item == n && !w.lessons[n].pc.Fresh?
    requires w.lessons[n].started == 1 || (n in w.results && w.results[n] != Ok)
    ensures Ahead(w, ResumeRun(cfg, w, r, n))
  {
    AheadEndRun(w, r, n, Halted);
    if w.lessons[n].started == 1 { AheadNextStep(cfg, w, r, n, 0); }
  }

  lemma AheadDrop(cfg: Config, w: World, r: nat)
    requires Inv(cfg, w) && r < |w.calls| && w.calls[r].pc.Drop? && w.calls[r].item < |w.lessons|
    ensures Ahead(w, DropStep(cfg, w, r, w.calls[r].item))
  {
    var n := w.calls[r].item;
    assert CallInv(cfg, w, r) && LessonInv(cfg, w, n);
    AheadResumeRun(cfg, w.(parked := w.parked - {GateTask(n)}), r, n);
  }

  lemma AheadWaiting(cfg: Config, w: World, r: nat, ok: bool)
    requires Inv(cfg, w) && r < |w.calls| && w.calls[r].pc.Waiting? && w.calls[r].item < |w.lessons|
    ensures Ahead(w, WaitStep(cfg, w, r, w.calls[r].item, w.calls[r].pc.step, ok))
  {
    var n, k := w.calls[r].item, w.calls[r].pc.step;
    assert CallInv(cfg, w, r) && LessonInv(cfg, w, n);
    var w1 := Admit(cfg, w, n, k);
    if k == 0 {
    } else if Admitted(cfg, w, k, ok) {
      AheadNextStep(cfg, w1, r, n, k);
    } else {
      AheadEndRun(w1, r, n, Halted);
    }
  }

  lemma QuotaWaiting(cfg: Config, w: World, r: nat, ok: bool)
    requires Inv(cfg, w) && QuotaInv(cfg, w) && r < |w.calls| && w.calls[r].pc.Waiting? && w.calls[r].item < |w.lessons|
    ensures QuotaInv(cfg, WaitStep(cfg, w, r, w.calls[r].item, w.calls[r].pc.step, ok))
  {
    assert CallInv(cfg, w, r);
    var n, k := w.calls[r].item, w.calls[r].pc.step;
    var w' := WaitStep(cfg, w, r, n, k, ok);
    AheadWaiting(cfg, w, r, ok);
    assert LessonInv(cfg, w, n);
    forall q | 0 <= q < |w.calls| && q != r && w.calls[q].item == n ensures !w.calls[q].pc.Waiting? {
      assert CallInv(cfg, w, q);
    }
    if w'.admitted == w.admitted {
      QuotaKept(cfg, w, w');
    } else {
      QuotaAdmits(cfg, w, w', Effect(n, k));
    }
  }

  lemma QuotaCallStep(cfg: Config, w: World, r: nat, ok: bool)
    requires Inv(cfg, w) && QuotaInv(cfg, w)
    ensures QuotaInv(cfg, CallStep(cfg, w, r, ok))
  {
    if r < |w.calls| && w.calls[r].item < |w.lessons| {
      assert CallInv(cfg, w, r);
      var n := w.calls[r].item;
      match w.calls[r].pc {
        case Flip => AheadFlip(w, r, n); QuotaKept(cfg, w, FlipStep(w, r, n));
        case Resume => AheadResume(w, r, n); QuotaKept(cfg, w, ResumeStep(w, r, n));
        case Waiting(k) => QuotaWaiting(cfg, w, r, ok);
        case Drop => AheadDrop(cfg, w, r); QuotaKept(cfg, w, DropStep(cfg, w, r, n));
        case Repark => QuotaKept(cfg, w, ReparkStep(w, r, n));
        case Record(result) => QuotaKept(cfg, w, RecordStep(w, r, n, result));
        case _ =>
      }
    }
  }

  lemma AheadFresh(cfg: Config, w: World, n: nat, k: nat, ok: bool)
    requires n < |w.lessons| && w.lessons[n].started == k + 1
    ensures Ahead(w, FreshStep(cfg, w, n, k, ok))
  {}

  lemma AheadLesson(cfg: Config, w: World, n: nat, ok: bool)
    requires Inv(cfg, w) && n < |w.lessons|
    ensures Ahead(w, LessonStep(cfg, w, n, ok))
  {
    assert LessonInv(cfg, w, n);
    if w.lessons[n].pc.Fresh? { AheadFresh(cfg, w, n, w.lessons[n].pc.step, ok); }
  }

  lemma QuotaLessonStep(cfg: Config, w: World, n: nat, ok: bool)
    requires Inv(cfg, w) && QuotaInv(cfg, w) && n < |w.lessons|
    ensures QuotaInv(cfg, LessonStep(cfg, w, n, ok))
  {
    assert LessonInv(cfg, w, n);
    var w' := LessonStep(cfg, w, n, ok);
    AheadLesson(cfg, w, n, ok);
    if w'.admitted == w.admitted {
      QuotaKept(cfg, w, w');
    } else {
      forall q | 0 <= q < |w.calls| && w.calls[q].item == n ensures !w.calls[q].pc.Waiting? {
        assert CallInv(cfg, w, q);
      }
      QuotaAdmits(cfg, w, w', Effect(n, w.lessons[n].pc.step));
    }
  }

  lemma QuotaStep(cfg: Config, w: World, e: Event)
    requires Inv(cfg, w) && QuotaInv(cfg, w)
    ensures QuotaInv(cfg, Step(cfg, w, e))
  {
    match e {
      case StepCall(r, ok) => QuotaCallStep(cfg, w, r, ok);
      case StepLesson(n, ok) => if n < |w.lessons| { QuotaLessonStep(cfg, w, n, ok); }
      case Ask(_) => QuotaKept(cfg, w, Step(cfg, w, e));
      case Resolve(_, _) => QuotaKept(cfg, w, Step(cfg, w, e));
      case StartWake(_) => QuotaKept(cfg, w, Step(cfg, w, e));
      case StepWake(_, _) => QuotaKept(cfg, w, Step(cfg, w, e));
    }
  }

  lemma {:induction false} QuotaRun(cfg: Config, es: seq<Event>)
    ensures QuotaInv(cfg, Run(cfg, es))
  {
    if es != [] {
      QuotaRun(cfg, es[..|es| - 1]);
      InvRun(cfg, es[..|es| - 1]);
      QuotaStep(cfg, Run(cfg, es[..|es| - 1]), es[|es| - 1]);
    }
  }

  lemma PrefixHasStep(log: seq<Effect>, n: nat, m: nat, k: nat)
    requires StepsOf(log, n) == UpTo(m) && k < m
    ensures Effect(n, k) in log
  {
    CountSteps(log, n, k);
    UpToOnce(m, k);
  }

  /** The peer admits at most `budget` tasks; each one crossed to it and is admitted once. */
  lemma QuotaHolds(cfg: Config, es: seq<Event>)
    ensures var w := Run(cfg, es);
            && |w.admitted| <= cfg.budget
            && (forall e :: e in w.admitted ==> e in w.sent && Crosses(cfg, e.step))
            && (forall i, j :: 0 <= i < j < |w.admitted| ==> w.admitted[i] != w.admitted[j])
  {
    var w := Run(cfg, es);
    InvRun(cfg, es);
    QuotaRun(cfg, es);
    forall e | e in w.admitted ensures e in w.sent {
      assert Behind(w, e) && LessonInv(cfg, w, e.lesson);
      PrefixHasStep(w.sent, e.lesson, w.lessons[e.lesson].started, e.step);
    }
  }
}
