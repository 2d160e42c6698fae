/**
 * What the answers to the steps of a lesson decide: a run goes on exactly behind an answer of
 * success that the receiving hub had room for, and it halts behind any other.
 */
module FederationAnswers {
  import opened Options
  import opened Federation
  import opened FederationSafety
  import opened FederationQuiescence
  import opened FederationCoherence
  import Text

  /** Step `k` is dispatched to the peer's hub. */
  ghost predicate OverLink(cfg: Config, k: nat) { k == 0 || (k <= |cfg.tail| && cfg.tail[k - 1] == Remote) }

  /** The event brings the answer to step `k` of lesson `n`, to whoever waits for it. */
  ghost predicate Answers(w: World, e: Event, n: nat, k: nat) {
    match e
    case StepLesson(m, _) => m == n && n < |w.lessons| && w.lessons[n].pc == Fresh(k)
    case StepCall(r, _) => r < |w.calls| && w.calls[r].item == n && n < |w.lessons| && w.calls[r].pc == Waiting(k)
    case StepWake(i, _) => i < |w.wakes| && w.wakes[i].item == n && w.wakes[i].pc.WakeWaiting? && k == 0
    case _ => false
  }

  /** What the answer says. */
  ghost predicate Says(e: Event) {
    match e case StepLesson(_, ok) => ok case StepCall(_, ok) => ok case StepWake(_, ok) => ok case _ => false
  }

  /** Success, and the peer's hub had room for the step. */
  ghost predicate Taken(cfg: Config, w: World, e: Event, k: nat) {
    Says(e) && (OverLink(cfg, k) ==> |w.admitted| < cfg.budget)
  }

  // --- the answers of a run --------------------------------------------------------------------

  ghost predicate AnswersAt(cfg: Config, es: seq<Event>, m: nat, n: nat, k: nat) {
    m < |es| && Answers(Run(cfg, es[..m]), es[m], n, k)
  }

  ghost predicate TakenAt(cfg: Config, es: seq<Event>, m: nat, k: nat) {
    m < |es| && Taken(cfg, Run(cfg, es[..m]), es[m], k)
  }

  /** Some event of the run answered step `k` of lesson `n` with success, within the quota. */
  ghost predicate Passed(cfg: Config, es: seq<Event>, n: nat, k: nat) {
    exists m: nat :: AnswersAt(cfg, es, m, n, k) && TakenAt(cfg, es, m, k)
  }

  /** Some event answered it with a failure, or beyond the quota. */
  ghost predicate Denied(cfg: Config, es: seq<Event>, n: nat, k: nat) {
    exists m: nat :: AnswersAt(cfg, es, m, n, k) && !TakenAt(cfg, es, m, k)
  }

  lemma LastAnswers(cfg: Config, es: seq<Event>, n: nat, k: nat)
    requires es != []
    ensures var before, e := es[..|es| - 1], es[|es| - 1]; var w := Run(cfg, before);
            && (Passed(cfg, es, n, k) <==> Passed(cfg, before, n, k) || (Answers(w, e, n, k) && Taken(cfg, w, e, k)))
            && (Denied(cfg, es, n, k) <==> Denied(cfg, before, n, k) || (Answers(w, e, n, k) && !Taken(cfg, w, e, k)))
  {
    var before, last := es[..|es| - 1], |es| - 1;
    forall m: nat | m < last
      ensures AnswersAt(cfg, es, m, n, k) <==> AnswersAt(cfg, before, m, n, k)
      ensures TakenAt(cfg, es, m, k) <==> TakenAt(cfg, before, m, k)
    {
      assert before[..m] == es[..m];
    }
    assert AnswersAt(cfg, es, last, n, k) <==> Answers(Run(cfg, before), es[last], n, k);
    assert TakenAt(cfg, es, last, k) <==> Taken(cfg, Run(cfg, before), es[last], k);
    assert forall m: nat :: AnswersAt(cfg, es, m, n, k) ==> m < last || m == last;
    assert forall m: nat :: AnswersAt(cfg, before, m, n, k) ==> m < last;
  }

  ghost function Yes(cfg: Config, es: seq<Event>): (nat, nat) -> bool { (n: nat, k: nat) => Passed(cfg, es, n, k) }
  ghost function No(cfg: Config, es: seq<Event>): (nat, nat) -> bool { (n: nat, k: nat) => Denied(cfg, es, n, k) }

  // --- what a state owes to the answers so far -------------------------------------------------

  ghost predicate SomeNo(no: (nat, nat) -> bool, n: nat) { exists k: nat :: no(n, k) }

  /** What lesson `n` owes: its end, and the latest result of its gate. */
  ghost predicate LessonEarned(cfg: Config, w: World, yes: (nat, nat) -> bool, no: (nat, nat) -> bool, n: nat)
    requires n < |w.lessons|
  {
    && (w.lessons[n].status == Done ==> yes(n, |cfg.tail|))
    && (w.lessons[n].status == Halted && w.lessons[n].started > 0 ==> SomeNo(no, n))
    && (n in w.results ==>
          match w.results[n]
          case Suspended => true
          case Ok => yes(n, 0) && n in w.inbox && w.inbox[n].Resolved?
          case Failed => n in w.inbox && w.inbox[n].Resolved? && (Approves(w.inbox[n].decision) ==> no(n, 0)))
  }

  ghost predicate CallEarned(w: World, yes: (nat, nat) -> bool, no: (nat, nat) -> bool, r: nat)
    requires r < |w.calls|
  {
    && (w.calls[r].pc == Record(Ok) ==> yes(w.calls[r].item, 0))
    && (w.calls[r].pc == Record(Failed) && Approves(w.calls[r].decision) ==> no(w.calls[r].item, 0))
  }

  ghost predicate Earned(cfg: Config, w: World, yes: (nat, nat) -> bool, no: (nat, nat) -> bool) {
    && (forall x :: x in w.sent && x.step > 0 ==> yes(x.lesson, x.step - 1))
    && (forall n :: 0 <= n < |w.lessons| ==> LessonEarned(cfg, w, yes, no, n))
    && (forall r :: 0 <= r < |w.calls| ==> CallEarned(w, yes, no, r))
    && (forall n :: n in w.results ==> n < |w.lessons|)
  }

  /** The answer that the event brings, if any, is known. */
  ghost predicate Known(cfg: Config, w: World, e: Event, yes: (nat, nat) -> bool, no: (nat, nat) -> bool) {
    forall n, k: nat :: Answers(w, e, n, k) ==> if Taken(cfg, w, e, k) then yes(n, k) else no(n, k)
  }

  lemma EarnedMore(cfg: Config, w: World, yes: (nat, nat) -> bool, no: (nat, nat) -> bool,
                   yes': (nat, nat) -> bool, no': (nat, nat) -> bool)
    requires Earned(cfg, w, yes, no)
    requires forall n, k: nat :: yes(n, k) ==> yes'(n, k)
    requires forall n, k: nat :: no(n, k) ==> no'(n, k)
    ensures Earned(cfg, w, yes', no')
  {
    forall n | 0 <= n < |w.lessons| ensures LessonEarned(cfg, w, yes', no', n) {
      assert LessonEarned(cfg, w, yes, no, n);
      if SomeNo(no, n) {
        var k: nat :| no(n, k);
        assert no'(n, k);
      }
    }
    forall r | 0 <= r < |w.calls| ensures CallEarned(w, yes', no', r) { assert CallEarned(w, yes, no, r); }
  }

  // --- step by step ------------------------------------------------------------------------------

  lemma EarnedAsk(cfg: Config, w: World, clear: bool, yes: (nat, nat) -> bool, no: (nat, nat) -> bool)
    requires Inv(cfg, w) && Earned(cfg, w, yes, no)
    ensures Earned(cfg, AskStep(w, clear), yes, no)
  {
    var w' := AskStep(w, clear);
    forall n | 0 <= n < |w'.lessons| ensures LessonEarned(cfg, w', yes, no, n) {
      if n < |w.lessons| { assert LessonEarned(cfg, w, yes, no, n); }
    }
    forall r | 0 <= r < |w'.calls| ensures CallEarned(w', yes, no, r) { assert CallEarned(w, yes, no, r); }
  }

  /** Only lesson `n` and call `r` moved, nothing was recorded, and what was sent is earned. */
  ghost predicate Moved(w: World, w': World, n: nat, r: nat, yes: (nat, nat) -> bool) {
    && |w'.lessons| == |w.lessons| && |w'.calls| == |w.calls| && w'.inbox == w.inbox && w'.results == w.results
    && (forall m :: 0 <= m < |w.lessons| && m != n ==> w'.lessons[m] == w.lessons[m])
    && (forall q :: 0 <= q < |w.calls| && q != r ==> w'.calls[q] == w.calls[q])
    && (forall x :: x in w'.sent ==> x in w.sent || (x.lesson == n && (x.step > 0 ==> yes(n, x.step - 1))))
  }

  lemma EarnedMoved(cfg: Config, w: World, w': World, n: nat, r: nat, yes: (nat, nat) -> bool, no: (nat, nat) -> bool)
    requires Earned(cfg, w, yes, no) && n < |w.lessons| && Moved(w, w', n, r, yes)
    requires LessonEarned(cfg, w', yes, no, n) && (r < |w.calls| ==> CallEarned(w', yes, no, r))
    ensures Earned(cfg, w', yes, no)
  {
    forall m | 0 <= m < |w'.lessons| ensures LessonEarned(cfg, w', yes, no, m) {
      if m != n { assert LessonEarned(cfg, w, yes, no, m); }
    }
    forall q | 0 <= q < |w'.calls| ensures CallEarned(w', yes, no, q) {
      if q != r { assert CallEarned(w, yes, no, q); }
    }
  }

  lemma EarnedFreshEnds(cfg: Config, w: World, w1: World, n: nat, status: Status,
                        yes: (nat, nat) -> bool, no: (nat, nat) -> bool)
    requires Earned(cfg, w, yes, no) && n < |w.lessons| && w1 == w.(admitted := w1.admitted)
    requires (status == Halted && SomeNo(no, n)) || (status == Done && yes(n, |cfg.tail|))
    ensures Earned(cfg, SetLesson(w1, n, status, Left), yes, no)
  {
    assert LessonEarned(cfg, w, yes, no, n);
    EarnedMoved(cfg, w, SetLesson(w1, n, status, Left), n, |w.calls|, yes, no);
  }

  lemma EarnedFreshGoes(cfg: Config, w: World, w1: World, n: nat, k: nat,
                        yes: (nat, nat) -> bool, no: (nat, nat) -> bool)
    requires Earned(cfg, w, yes, no) && n < |w.lessons| && w1 == w.(admitted := w1.admitted) && yes(n, k)
    ensures Earned(cfg, SetLesson(Send(w1, n, k + 1), n, InFlight, Fresh(k + 1)), yes, no)
  {
    assert LessonEarned(cfg, w, yes, no, n);
    EarnedMoved(cfg, w, SetLesson(Send(w1, n, k + 1), n, InFlight, Fresh(k + 1)), n, |w.calls|, yes, no);
  }

  lemma EarnedFresh(cfg: Config, w: World, n: nat, ok: bool, yes: (nat, nat) -> bool, no: (nat, nat) -> bool)
    requires Inv(cfg, w) && Earned(cfg, w, yes, no) && n < |w.lessons| && w.lessons[n].pc.Fresh?
    requires Known(cfg, w, StepLesson(n, ok), yes, no)
    ensures Earned(cfg, LessonStep(cfg, w, n, ok), yes, no)
  {
    var k := w.lessons[n].pc.step;
    assert LessonInv(cfg, w, n);
    assert Answers(w, StepLesson(n, ok), n, k);
    var w1 := Admit(cfg, w, n, k);
    if !Admitted(cfg, w, k, ok) {
      EarnedFreshEnds(cfg, w, w1, n, Halted, yes, no);
    } else if k < |cfg.tail| {
      EarnedFreshGoes(cfg, w, w1, n, k, yes, no);
    } else {
      EarnedFreshEnds(cfg, w, w1, n, Done, yes, no);
    }
  }

  /** Only rows were written, or the suspension of a gate that is not decided otherwise, or a new item. */
  lemma EarnedRows(cfg: Config, w: World, w': World, yes: (nat, nat) -> bool, no: (nat, nat) -> bool)
    requires Earned(cfg, w, yes, no) && w'.sent == w.sent && w'.calls == w.calls && |w'.lessons| == |w.lessons|
    requires forall m :: 0 <= m < |w.lessons| ==>
               w'.lessons[m].status == w.lessons[m].status && w'.lessons[m].started == w.lessons[m].started
    requires forall m :: m in w'.results ==>
               m < |w.lessons| && (w'.results[m].Suspended? || (m in w.results && w'.results[m] == w.results[m]))
    requires forall m :: m in w.inbox ==> m in w'.inbox && w'.inbox[m] == w.inbox[m]
    ensures Earned(cfg, w', yes, no)
  {
    forall m | 0 <= m < |w'.lessons| ensures LessonEarned(cfg, w', yes, no, m) {
      assert LessonEarned(cfg, w, yes, no, m);
    }
    forall q | 0 <= q < |w'.calls| ensures CallEarned(w', yes, no, q) { assert CallEarned(w, yes, no, q); }
  }

  lemma EarnedPark(cfg: Config, w: World, n: nat, ok: bool, yes: (nat, nat) -> bool, no: (nat, nat) -> bool)
    requires Inv(cfg, w) && Earned(cfg, w, yes, no) && n < |w.lessons| && !w.lessons[n].pc.Fresh?
    ensures Earned(cfg, LessonStep(cfg, w, n, ok), yes, no)
  {
    assert LessonInv(cfg, w, n);
    EarnedRows(cfg, w, LessonStep(cfg, w, n, ok), yes, no);
  }

  lemma EarnedFlip(cfg: Config, w: World, r: nat, n: nat, yes: (nat, nat) -> bool, no: (nat, nat) -> bool)
    requires Inv(cfg, w) && Earned(cfg, w, yes, no) && r < |w.calls| && w.calls[r].item == n && n < |w.lessons|
    requires w.calls[r].pc.Flip?
    ensures Earned(cfg, FlipStep(w, r, n), yes, no)
  {
    var w' := FlipStep(w, r, n);
    forall m | 0 <= m < |w'.lessons| ensures LessonEarned(cfg, w', yes, no, m) {
      assert LessonEarned(cfg, w, yes, no, m);
    }
    forall q | 0 <= q < |w'.calls| ensures CallEarned(w', yes, no, q) { assert CallEarned(w, yes, no, q); }
  }

  lemma EarnedResume(cfg: Config, w: World, r: nat, n: nat, yes: (nat, nat) -> bool, no: (nat, nat) -> bool)
    requires Inv(cfg, w) && Earned(cfg, w, yes, no) && r < |w.calls| && w.calls[r].item == n && n < |w.lessons|
    requires w.calls[r].pc.Resume?
    ensures Earned(cfg, ResumeStep(w, r, n), yes, no)
  {
    assert CallInv(cfg, w, r) && LessonInv(cfg, w, n) && LessonEarned(cfg, w, yes, no, n);
    EarnedMoved(cfg, w, ResumeStep(w, r, n), n, r, yes, no);
  }

  lemma EarnedRecord(cfg: Config, w: World, r: nat, n: nat, result: Result,
                     yes: (nat, nat) -> bool, no: (nat, nat) -> bool)
    requires Inv(cfg, w) && Earned(cfg, w, yes, no) && r < |w.calls| && w.calls[r].item == n && n < |w.lessons|
    requires w.calls[r].pc == Record(result)
    ensures Earned(cfg, RecordStep(w, r, n, result), yes, no)
  {
    var w' := RecordStep(w, r, n, result);
    assert CallInv(cfg, w, r) && CallEarned(w, yes, no, r);
    forall m | 0 <= m < |w'.lessons| ensures LessonEarned(cfg, w', yes, no, m) {
      assert LessonEarned(cfg, w, yes, no, m);
    }
    forall q | 0 <= q < |w'.calls| ensures CallEarned(w', yes, no, q) { assert CallEarned(w, yes, no, q); }
  }

  lemma EarnedNext(cfg: Config, w: World, w1: World, r: nat, n: nat, k: nat,
                   yes: (nat, nat) -> bool, no: (nat, nat) -> bool)
    requires Earned(cfg, w, yes, no) && r < |w.calls| && w.calls[r].item == n && n < |w.lessons|
    requires w1 == w.(admitted := w1.admitted, parked := w1.parked) && k <= |cfg.tail| && yes(n, k)
    requires w.lessons[n].status == InFlight
    ensures Earned(cfg, NextStep(cfg, w1, r, n, k), yes, no)
  {
    assert LessonEarned(cfg, w, yes, no, n);
    EarnedMoved(cfg, w, NextStep(cfg, w1, r, n, k), n, r, yes, no);
  }

  lemma EarnedHalt(cfg: Config, w: World, w1: World, r: nat, n: nat, yes: (nat, nat) -> bool, no: (nat, nat) -> bool)
    requires Earned(cfg, w, yes, no) && r < |w.calls| && w.calls[r].item == n && n < |w.lessons|
    requires w1 == w.(admitted := w1.admitted, parked := w1.parked)
    requires w.lessons[n].started > 0 ==> SomeNo(no, n)
    ensures Earned(cfg, EndRun(w1, r, n, Halted), yes, no)
  {
    assert LessonEarned(cfg, w, yes, no, n);
    EarnedMoved(cfg, w, EndRun(w1, r, n, Halted), n, r, yes, no);
  }

  lemma EarnedStay(cfg: Config, w: World, w': World, r: nat, yes: (nat, nat) -> bool, no: (nat, nat) -> bool)
    requires Earned(cfg, w, yes, no) && |w'.calls| == |w.calls| && r < |w.calls| && CallEarned(w', yes, no, r)
    requires w'.lessons == w.lessons && w'.inbox == w.inbox && w'.results == w.results && w'.sent == w.sent
    requires forall q :: 0 <= q < |w.calls| && q != r ==> w'.calls[q] == w.calls[q]
    requires w'.calls[r].item < |w.lessons|
    ensures Earned(cfg, w', yes, no)
  {
    assert LessonEarned(cfg, w, yes, no, w'.calls[r].item);
    EarnedMoved(cfg, w, w', w'.calls[r].item, r, yes, no);
  }

  lemma EarnedWait(cfg: Config, w: World, r: nat, n: nat, k: nat, ok: bool,
                   yes: (nat, nat) -> bool, no: (nat, nat) -> bool)
    requires Inv(cfg, w) && Earned(cfg, w, yes, no) && r < |w.calls| && w.calls[r].item == n && n < |w.lessons|
    requires w.calls[r].pc == Waiting(k) && Known(cfg, w, StepCall(r, ok), yes, no)
    ensures Earned(cfg, WaitStep(cfg, w, r, n, k, ok), yes, no)
  {
    assert CallInv(cfg, w, r) && LessonInv(cfg, w, n);
    assert Answers(w, StepCall(r, ok), n, k);
    var w1 := Admit(cfg, w, n, k);
    if k == 0 {
      EarnedStay(cfg, w, WaitStep(cfg, w, r, n, k, ok), r, yes, no);
    } else if Admitted(cfg, w, k, ok) {
      EarnedNext(cfg, w, w1, r, n, k, yes, no);
    } else {
      EarnedHalt(cfg, w, w1, r, n, yes, no);
    }
  }

  lemma EarnedDrop(cfg: Config, w: World, r: nat, n: nat, yes: (nat, nat) -> bool, no: (nat, nat) -> bool)
    requires Inv(cfg, w) && Earned(cfg, w, yes, no) && r < |w.calls| && w.calls[r].item == n && n < |w.lessons|
    requires w.calls[r].pc.Drop?
    ensures Earned(cfg, DropStep(cfg, w, r, n), yes, no)
  {
    assert CallInv(cfg, w, r) && LessonInv(cfg, w, n) && LessonEarned(cfg, w, yes, no, n);
    var w1 := w.(parked := w.parked - {GateTask(n)});
    if RunTask(n) in w1.parked && n in w.results && w.results[n] == Ok {
      EarnedNext(cfg, w, w1, r, n, 0, yes, no);
    } else if RunTask(n) in w1.parked && n in w.results && w.results[n] == Failed {
      EarnedHalt(cfg, w, w1, r, n, yes, no);
    } else {
      EarnedStay(cfg, w, DropStep(cfg, w, r, n), r, yes, no);
    }
  }

  lemma EarnedCall(cfg: Config, w: World, r: nat, ok: bool, yes: (nat, nat) -> bool, no: (nat, nat) -> bool)
    requires Inv(cfg, w) && Earned(cfg, w, yes, no) && Known(cfg, w, StepCall(r, ok), yes, no)
    ensures Earned(cfg, CallStep(cfg, w, r, ok), yes, no)
  {
    if r < |w.calls| && w.calls[r].item < |w.lessons| {
      var n := w.calls[r].item;
      match w.calls[r].pc
      case Flip => EarnedFlip(cfg, w, r, n, yes, no);
      case Resume => EarnedResume(cfg, w, r, n, yes, no);
      case Repark => EarnedStay(cfg, w, ReparkStep(w, r, n), r, yes, no);
      case Waiting(k) => EarnedWait(cfg, w, r, n, k, ok, yes, no);
      case Record(result) => EarnedRecord(cfg, w, r, n, result, yes, no);
      case Drop => EarnedDrop(cfg, w, r, n, yes, no);
      case _ =>
    }
  }

  lemma EarnedResolve(cfg: Config, w: World, item: nat, d: Decision, yes: (nat, nat) -> bool, no: (nat, nat) -> bool)
    requires Earned(cfg, w, yes, no)
    ensures Earned(cfg, ResolveStep(w, item, d), yes, no)
  {
    var w' := ResolveStep(w, item, d);
    forall n | 0 <= n < |w'.lessons| ensures LessonEarned(cfg, w', yes, no, n) {
      assert LessonEarned(cfg, w, yes, no, n);
    }
    forall q | 0 <= q < |w'.calls| ensures CallEarned(w', yes, no, q) {
      if q < |w.calls| { assert CallEarned(w, yes, no, q); }
    }
  }

  lemma EarnedWake(cfg: Config, w: World, i: nat, ok: bool, yes: (nat, nat) -> bool, no: (nat, nat) -> bool)
    requires Inv(cfg, w) && Earned(cfg, w, yes, no)
    ensures Earned(cfg, WakeStep(cfg, w, i, ok), yes, no)
  {
    var w' := WakeStep(cfg, w, i, ok);
    forall n | 0 <= n < |w'.lessons| ensures LessonEarned(cfg, w', yes, no, n) {
      assert LessonEarned(cfg, w, yes, no, n);
    }
    forall q | 0 <= q < |w'.calls| ensures CallEarned(w', yes, no, q) { assert CallEarned(w, yes, no, q); }
  }

  lemma EarnedStartWake(cfg: Config, w: World, n: nat, yes: (nat, nat) -> bool, no: (nat, nat) -> bool)
    requires Inv(cfg, w) && Earned(cfg, w, yes, no)
    ensures Earned(cfg, StartWakeStep(w, n), yes, no)
  {
    var w' := StartWakeStep(w, n);
    assert w' == w.(wakes := w'.wakes);
    forall m | 0 <= m < |w'.lessons| ensures LessonEarned(cfg, w', yes, no, m) {
      assert LessonEarned(cfg, w, yes, no, m);
    }
    forall q | 0 <= q < |w'.calls| ensures CallEarned(w', yes, no, q) { assert CallEarned(w, yes, no, q); }
  }

  lemma EarnedStep(cfg: Config, w: World, e: Event, yes: (nat, nat) -> bool, no: (nat, nat) -> bool)
    requires Inv(cfg, w) && Earned(cfg, w, yes, no) && Known(cfg, w, e, yes, no)
    ensures Earned(cfg, Step(cfg, w, e), yes, no)
  {
    match e
    case Ask(topic) => EarnedAsk(cfg, w, Text.Trim(topic) in cfg.whitelist, yes, no);
    case Resolve(item, d) => EarnedResolve(cfg, w, item, d, yes, no);
    case StartWake(n) => EarnedStartWake(cfg, w, n, yes, no);
    case StepLesson(n, ok) =>
      if n < |w.lessons| {
        if w.lessons[n].pc.Fresh? { EarnedFresh(cfg, w, n, ok, yes, no); } else { EarnedPark(cfg, w, n, ok, yes, no); }
      }
    case StepCall(r, ok) => EarnedCall(cfg, w, r, ok, yes, no);
    case StepWake(i, ok) => EarnedWake(cfg, w, i, ok, yes, no);
  }

  lemma {:induction false} EarnedRun(cfg: Config, es: seq<Event>)
    ensures Earned(cfg, Run(cfg, es), Yes(cfg, es), No(cfg, es))
  {
    if es != [] {
      var before, e := es[..|es| - 1], es[|es| - 1];
      EarnedRun(cfg, before);
      InvRun(cfg, before);
      forall n, k: nat
        ensures Yes(cfg, before)(n, k) ==> Yes(cfg, es)(n, k)
        ensures No(cfg, before)(n, k) ==> No(cfg, es)(n, k)
        ensures Answers(Run(cfg, before), e, n, k) ==>
                  if Taken(cfg, Run(cfg, before), e, k) then Yes(cfg, es)(n, k) else No(cfg, es)(n, k)
      {
        LastAnswers(cfg, es, n, k);
      }
      EarnedMore(cfg, Run(cfg, before), Yes(cfg, before), No(cfg, before), Yes(cfg, es), No(cfg, es));
      EarnedStep(cfg, Run(cfg, before), e, Yes(cfg, es), No(cfg, es));
    }
  }

  // --- each step is answered once ------------------------------------------------------------------

  /** Whoever waits for an answer waits for a step that is not behind it. */
  lemma WaitersAreNotBehind(w: World, e: Event, n: nat, k: nat)
    requires Answers(w, e, n, k) && !e.StepWake?
    ensures !Behind(w, Effect(n, k))
  {}

  lemma AheadCall(cfg: Config, w: World, r: nat, ok: bool)
    requires Inv(cfg, w)
    ensures Ahead(w, CallStep(cfg, w, r, ok))
  {
    if r < |w.calls| && w.calls[r].item < |w.lessons| {
      var n := w.calls[r].item;
      assert CallInv(cfg, w, r);
      match w.calls[r].pc
      case Flip => AheadFlip(w, r, n);
      case Resume => AheadResume(w, r, n);
      case Waiting(_) => AheadWaiting(cfg, w, r, ok);
      case Drop => AheadDrop(cfg, w, r);
      case _ =>
    }
  }

  lemma AheadStep(cfg: Config, w: World, e: Event)
    requires Inv(cfg, w)
    ensures Ahead(w, Step(cfg, w, e))
  {
    match e
    case StepCall(r, ok) => AheadCall(cfg, w, r, ok);
    case StepLesson(n, ok) => if n < |w.lessons| { AheadLesson(cfg, w, n, ok); }
    case _ =>
  }

  lemma BehindStays(w: World, w': World, x: Effect)
    requires Behind(w, x) && Ahead(w, w')
    ensures Behind(w', x)
  {}

  lemma AnsweredCallIsBehind(cfg: Config, w: World, r: nat, n: nat, k: nat, ok: bool)
    requires r < |w.calls| && w.calls[r].item == n && n < |w.lessons| && w.lessons[n].started == k + 1
    requires !w.lessons[n].pc.Fresh?
    requires forall q :: 0 <= q < |w.calls| && q != r && w.calls[q].item == n ==> !w.calls[q].pc.Waiting?
    ensures Behind(WaitStep(cfg, w, r, n, k, ok), Effect(n, k))
  {}

  /** An answered step is behind. */
  lemma AnsweredIsBehind(cfg: Config, w: World, e: Event, n: nat, k: nat)
    requires Inv(cfg, w) && Answers(w, e, n, k)
    ensures Behind(Step(cfg, w, e), Effect(n, k)) && !e.StepWake?
  {
    match e
    case StepLesson(_, ok) =>
      assert LessonInv(cfg, w, n);
      forall q | 0 <= q < |w.calls| && w.calls[q].item == n ensures !w.calls[q].pc.Waiting? {
        assert CallInv(cfg, w, q);
      }
    case StepCall(r, ok) =>
      assert CallInv(cfg, w, r) && LessonInv(cfg, w, n);
      forall q | 0 <= q < |w.calls| && q != r && w.calls[q].item == n ensures !w.calls[q].pc.Waiting? {
        assert CallInv(cfg, w, q);
      }
      AnsweredCallIsBehind(cfg, w, r, n, k, ok);
    case _ =>
  }

  /** What has been answered is behind in every later state. */
  lemma {:induction false} AnsweredStaysBehind(cfg: Config, es: seq<Event>, m: nat, n: nat, k: nat)
    requires AnswersAt(cfg, es, m, n, k)
    ensures Behind(Run(cfg, es), Effect(n, k))
    decreases |es|
  {
    var before, e := es[..|es| - 1], es[|es| - 1];
    var w := Run(cfg, before);
    InvRun(cfg, before);
    if m < |es| - 1 {
      assert before[..m] == es[..m];
      AnsweredStaysBehind(cfg, before, m, n, k);
      AheadStep(cfg, w, e);
      BehindStays(w, Run(cfg, es), Effect(n, k));
    } else {
      AnsweredIsBehind(cfg, w, e, n, k);
    }
  }

  /** No step of a lesson is answered twice. */
  lemma AnsweredOnce(cfg: Config, es: seq<Event>, i: nat, j: nat, n: nat, k: nat)
    requires i < j && AnswersAt(cfg, es, i, n, k)
    ensures !AnswersAt(cfg, es, j, n, k)
  {
    if AnswersAt(cfg, es, j, n, k) {
      assert es[..j][..i] == es[..i];
      InvRun(cfg, es[..j]);
      AnsweredIsBehind(cfg, Run(cfg, es[..j]), es[j], n, k);
      WaitersAreNotBehind(Run(cfg, es[..j]), es[j], n, k);
      AnsweredStaysBehind(cfg, es[..j], i, n, k);
    }
  }

  lemma NotBoth(cfg: Config, es: seq<Event>, n: nat, k: nat)
    ensures !(Passed(cfg, es, n, k) && Denied(cfg, es, n, k))
  {
    if Passed(cfg, es, n, k) && Denied(cfg, es, n, k) {
      var i: nat :| AnswersAt(cfg, es, i, n, k) && TakenAt(cfg, es, i, k);
      var j: nat :| AnswersAt(cfg, es, j, n, k) && !TakenAt(cfg, es, j, k);
      if i < j { AnsweredOnce(cfg, es, i, j, n, k); } else { AnsweredOnce(cfg, es, j, i, n, k); }
    }
  }

  // --- what the peer's hub admits ------------------------------------------------------------------

  /** The event brings the answer to a step that went over the link while there was room. */
  ghost predicate Enters(cfg: Config, w: World, e: Event, n: nat, k: nat) {
    Answers(w, e, n, k) && OverLink(cfg, k) && |w.admitted| < cfg.budget
  }

  lemma AdmitOne(cfg: Config, w: World, n: nat, k: nat, x: Effect)
    ensures x in Admit(cfg, w, n, k).admitted <==>
              x in w.admitted || (x == Effect(n, k) && OverLink(cfg, k) && |w.admitted| < cfg.budget)
  {}

  lemma AdmittedStep(cfg: Config, w: World, e: Event, x: Effect)
    requires Inv(cfg, w)
    ensures x in Step(cfg, w, e).admitted <==> x in w.admitted || Enters(cfg, w, e, x.lesson, x.step)
  {
    match e
    case StepLesson(n, ok) =>
      if n < |w.lessons| && w.lessons[n].pc.Fresh? { AdmitOne(cfg, w, n, w.lessons[n].pc.step, x); }
    case StepCall(r, ok) =>
      if r < |w.calls| && w.calls[r].item < |w.lessons| {
        var n := w.calls[r].item;
        if w.calls[r].pc.Waiting? {
          AdmitOne(cfg, w, n, w.calls[r].pc.step, x);
          WaitAdmits(cfg, w, r, n, w.calls[r].pc.step, ok);
        } else {
          OthersAdmitNothing(cfg, w, r, ok);
        }
      }
    case _ =>
  }

  lemma WaitAdmits(cfg: Config, w: World, r: nat, n: nat, k: nat, ok: bool)
    requires r < |w.calls| && n < |w.lessons|
    ensures WaitStep(cfg, w, r, n, k, ok).admitted == Admit(cfg, w, n, k).admitted
  {}

  lemma OthersAdmitNothing(cfg: Config, w: World, r: nat, ok: bool)
    requires r < |w.calls| && w.calls[r].item < |w.lessons| && !w.calls[r].pc.Waiting?
    ensures CallStep(cfg, w, r, ok).admitted == w.admitted
  {}

  ghost predicate EntersAt(cfg: Config, es: seq<Event>, m: nat, n: nat, k: nat) {
    m < |es| && Enters(cfg, Run(cfg, es[..m]), es[m], n, k)
  }

  ghost predicate Entered(cfg: Config, es: seq<Event>, n: nat, k: nat) { exists m: nat :: EntersAt(cfg, es, m, n, k) }

  lemma LastEnters(cfg: Config, es: seq<Event>, n: nat, k: nat)
    requires es != []
    ensures Entered(cfg, es, n, k) <==>
              Entered(cfg, es[..|es| - 1], n, k) || Enters(cfg, Run(cfg, es[..|es| - 1]), es[|es| - 1], n, k)
  {
    var before, last := es[..|es| - 1], |es| - 1;
    forall m: nat | m < last ensures EntersAt(cfg, es, m, n, k) <==> EntersAt(cfg, before, m, n, k) {
      assert before[..m] == es[..m];
    }
    assert EntersAt(cfg, es, last, n, k) <==> Enters(cfg, Run(cfg, before), es[last], n, k);
    assert forall m: nat :: EntersAt(cfg, es, m, n, k) ==> m < last || m == last;
    assert forall m: nat :: EntersAt(cfg, before, m, n, k) ==> m < last;
  }

  /** The peer's hub admits a step exactly if it was answered over the link while there was room. */
  lemma {:induction false} AdmittedIff(cfg: Config, es: seq<Event>, n: nat, k: nat)
    ensures Effect(n, k) in Run(cfg, es).admitted <==> Entered(cfg, es, n, k)
  {
    if es != [] {
      var before := es[..|es| - 1];
      AdmittedIff(cfg, before, n, k);
      InvRun(cfg, before);
      AdmittedStep(cfg, Run(cfg, before), es[|es| - 1], Effect(n, k));
      LastEnters(cfg, es, n, k);
    }
  }

  // --- what the answers decide ---------------------------------------------------------------------

  lemma PassedIsAdmitted(cfg: Config, es: seq<Event>, n: nat, k: nat)
    requires Passed(cfg, es, n, k) && OverLink(cfg, k)
    ensures Effect(n, k) in Run(cfg, es).admitted
  {
    var m: nat :| AnswersAt(cfg, es, m, n, k) && TakenAt(cfg, es, m, k);
    assert EntersAt(cfg, es, m, n, k);
    AdmittedIff(cfg, es, n, k);
  }

  lemma AnsweredIsOfALesson(cfg: Config, es: seq<Event>, m: nat, n: nat, k: nat)
    requires AnswersAt(cfg, es, m, n, k)
    ensures n < |Run(cfg, es).lessons|
  {
    AnsweredStaysBehind(cfg, es, m, n, k);
  }

  lemma SentIsEarned(cfg: Config, w: World, yes: (nat, nat) -> bool, no: (nat, nat) -> bool, n: nat, k: nat)
    requires Earned(cfg, w, yes, no) && Effect(n, k + 1) in w.sent
    ensures yes(n, k)
  {
    assert Effect(n, k + 1).step > 0;
  }

  lemma DoneIsEarned(cfg: Config, w: World, yes: (nat, nat) -> bool, no: (nat, nat) -> bool, n: nat, k: nat)
    requires Inv(cfg, w) && Earned(cfg, w, yes, no) && n < |w.lessons| && w.lessons[n].status == Done && k <= |cfg.tail|
    ensures yes(n, k)
  {
    assert LessonInv(cfg, w, n) && LessonEarned(cfg, w, yes, no, n);
    if k < |cfg.tail| {
      PrefixHasStep(w.sent, n, |cfg.tail| + 1, k + 1);
      SentIsEarned(cfg, w, yes, no, n, k);
    }
  }

  lemma OnlyBehindSuccess(cfg: Config, es: seq<Event>, n: nat, k: nat)
    ensures var w := Run(cfg, es);
            && (Effect(n, k + 1) in w.sent ==> Passed(cfg, es, n, k))
            && (n < |w.lessons| && w.lessons[n].status == Done && k <= |cfg.tail| ==> Passed(cfg, es, n, k))
  {
    var w := Run(cfg, es);
    InvRun(cfg, es);
    EarnedRun(cfg, es);
    if Effect(n, k + 1) in w.sent { SentIsEarned(cfg, w, Yes(cfg, es), No(cfg, es), n, k); }
    if n < |w.lessons| && w.lessons[n].status == Done && k <= |cfg.tail| {
      DoneIsEarned(cfg, w, Yes(cfg, es), No(cfg, es), n, k);
    }
  }

  lemma HaltedWasDenied(cfg: Config, es: seq<Event>, n: nat)
    requires n < |Run(cfg, es).lessons| && Run(cfg, es).lessons[n].status == Halted
    requires Effect(n, 0) in Run(cfg, es).sent
    ensures exists j: nat :: Denied(cfg, es, n, j)
  {
    var w := Run(cfg, es);
    InvRun(cfg, es);
    EarnedRun(cfg, es);
    assert LessonInv(cfg, w, n) && LessonEarned(cfg, w, Yes(cfg, es), No(cfg, es), n);
    SentIsStarted(w.sent, n, w.lessons[n].started, 0);
    var j: nat :| No(cfg, es)(n, j);
    assert Denied(cfg, es, n, j);
  }

  lemma SentIsStarted(log: seq<Effect>, n: nat, m: nat, k: nat)
    requires StepsOf(log, n) == UpTo(m) && Effect(n, k) in log
    ensures k < m
  {
    CountSteps(log, n, k);
    UpToOnce(m, k);
  }

  /**
   * Over every run: a step is sent, and a run is done, only behind an answer of success to the
   * step before, which the peer's hub, if it crossed, had room for and has admitted.
   */
  lemma SuccessIsNeeded(cfg: Config, es: seq<Event>, n: nat, k: nat)
    requires var w := Run(cfg, es);
             Effect(n, k + 1) in w.sent || (n < |w.lessons| && w.lessons[n].status == Done && k <= |cfg.tail|)
    ensures Passed(cfg, es, n, k)
    ensures k == 0 || (k <= |cfg.tail| && cfg.tail[k - 1] == Remote) ==> Effect(n, k) in Run(cfg, es).admitted
  {
    OnlyBehindSuccess(cfg, es, n, k);
    if OverLink(cfg, k) { PassedIsAdmitted(cfg, es, n, k); }
  }

  /** Behind a failure or a refusal nothing more is sent, now or later, and the run is never done. */
  lemma FailureIsFinal(cfg: Config, es: seq<Event>, n: nat, k: nat)
    requires Denied(cfg, es, n, k)
    ensures n < |Run(cfg, es).lessons| && Run(cfg, es).lessons[n].status != Done
    ensures Effect(n, k + 1) !in Run(cfg, es).sent
  {
    var m: nat :| AnswersAt(cfg, es, m, n, k) && !TakenAt(cfg, es, m, k);
    AnsweredIsOfALesson(cfg, es, m, n, k);
    NotBoth(cfg, es, n, k);
    OnlyBehindSuccess(cfg, es, n, k);
    WaitedWithin(cfg, es[..m], es[m], n, k);
  }

  lemma WaitedWithin(cfg: Config, es: seq<Event>, e: Event, n: nat, k: nat)
    requires Answers(Run(cfg, es), e, n, k)
    ensures k <= |cfg.tail|
  {
    var w := Run(cfg, es);
    InvRun(cfg, es);
    assert LessonInv(cfg, w, n);
    if e.StepCall? { assert CallInv(cfg, w, e.call); }
  }

  lemma ClearIsHalted(cfg: Config, w: World, n: nat, k: nat)
    requires Inv(cfg, w) && Behind(w, Effect(n, k)) && Effect(n, k + 1) !in w.sent
    requires w.lessons[n].clear && w.lessons[n].status != Done
    ensures w.lessons[n].status == Halted
  {
    assert LessonInv(cfg, w, n);
    if w.lessons[n].status == InFlight { PrefixHasStep(w.sent, n, w.lessons[n].started, k + 1); }
  }

  /** A whitelisted lesson halts with that very answer. */
  lemma FreshHaltsAtOnce(cfg: Config, es: seq<Event>, n: nat, k: nat)
    requires Denied(cfg, es, n, k) && n < |Run(cfg, es).lessons| && Run(cfg, es).lessons[n].clear
    ensures Run(cfg, es).lessons[n].status == Halted
  {
    var m: nat :| AnswersAt(cfg, es, m, n, k) && !TakenAt(cfg, es, m, k);
    FailureIsFinal(cfg, es, n, k);
    AnsweredStaysBehind(cfg, es, m, n, k);
    InvRun(cfg, es);
    ClearIsHalted(cfg, Run(cfg, es), n, k);
  }

  /**
   * At rest and unharmed, a lesson that was begun is done exactly if all its steps were answered
   * with success within the quota, and halted exactly if one was not.
   */
  lemma AnswersDecide(cfg: Config, es: seq<Event>, n: nat)
    requires var w := Run(cfg, es); Settled(w, n) && !Damaged(w, n) && Effect(n, 0) in w.sent
    ensures var status := Run(cfg, es).lessons[n].status;
            && (status == Done <==> forall k: nat :: k <= |cfg.tail| ==> Passed(cfg, es, n, k))
            && (status == Halted <==> exists k: nat :: Denied(cfg, es, n, k))
            && status != InFlight
  {
    var w := Run(cfg, es);
    BegunIsOver(cfg, es, n);
    if w.lessons[n].status == Halted {
      HaltedWasDenied(cfg, es, n);
      var k: nat :| Denied(cfg, es, n, k);
      var m: nat :| AnswersAt(cfg, es, m, n, k) && !TakenAt(cfg, es, m, k);
      WaitedWithin(cfg, es[..m], es[m], n, k);
      NotBoth(cfg, es, n, k);
    } else {
      forall k: nat ensures !Denied(cfg, es, n, k) {
        if Denied(cfg, es, n, k) { FailureIsFinal(cfg, es, n, k); }
      }
      forall k: nat | k <= |cfg.tail| ensures Passed(cfg, es, n, k) { OnlyBehindSuccess(cfg, es, n, k); }
    }
  }

  lemma BegunIsOver(cfg: Config, es: seq<Event>, n: nat)
    requires var w := Run(cfg, es); Settled(w, n) && !Damaged(w, n) && Effect(n, 0) in w.sent
    ensures Run(cfg, es).lessons[n].status != InFlight
  {
    var w := Run(cfg, es);
    QRun(cfg, es);
    assert LessonInv(cfg, w, n) && LessonQ(w, n);
    SentIsStarted(w.sent, n, w.lessons[n].started, 0);
    if n in w.inbox { assert CallInv(cfg, w, w.inbox[n].call); }
  }
}
