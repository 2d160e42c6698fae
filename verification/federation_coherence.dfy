/** The exact condition under which a quiet state is coherent, on schedules and on calls. */
module FederationCoherence {
  import opened Text
  import opened Federation
  import opened FederationSafety
  import opened FederationQuiescence

  // --- quiet and coherent -----------------------------------------------------------------

  predicate Final(pc: CallPc) { pc.Over? || pc.Refused? || pc.Stranded? }

  /** No lesson is being dispatched, no resolver is on its way, no wake is pending. */
  ghost predicate Quiet(w: World) {
    && (forall n :: 0 <= n < |w.lessons| ==> w.lessons[n].pc.Left?)
    && (forall r :: 0 <= r < |w.calls| ==> Final(w.calls[r].pc))
    && (forall i :: 0 <= i < |w.wakes| ==> w.wakes[i].pc.WakeOver?)
  }

  /** Item, gate row, run and run row of lesson `n` match. */
  ghost predicate CoherentAt(w: World, n: nat) {
    && ((n in w.inbox && w.inbox[n].Pending?) <==> HasGate(w, n))
    && ((n < |w.lessons| && w.lessons[n].status == InFlight) <==> HasRun(w, n))
    && (HasRun(w, n) <==> HasGate(w, n))
  }

  /** Pending items, parked gates and unfinished runs with their rows match one to one. */
  ghost predicate Coherent(w: World) { forall n: nat :: CoherentAt(w, n) }

  /** Item `n` was resolved with a decision that is neither an approval nor a rejection. */
  ghost predicate UnusableAt(w: World, n: nat) {
    n in w.inbox && w.inbox[n].Resolved? && w.inbox[n].decision.OtherKind?
  }

  ghost predicate SomeUnusable(w: World) { exists n: nat :: UnusableAt(w, n) }

  // --- what can go wrong ------------------------------------------------------------------

  /** The resolver is about to fold a usable decision into the run. */
  ghost predicate Folding(w: World, n: nat) { At(w, n, Drop) && w.inbox[n].decision.Approval? }

  /**
   * A stretch of code that came at the wrong time for lesson `n`: a resolver that resumes a
   * row not yet parked; a suspended result recorded over the resolver's own, before the run
   * has folded that; a wake that parks the gate's row after the resolver is done with it.
   */
  ghost predicate Mishap(w: World, e: Event, n: nat) {
    match e
    case StepCall(r, _) =>
      && r < |w.calls| && w.calls[r].item == n && n < |w.lessons|
      && ((w.calls[r].pc.Resume? && !HasGate(w, n)) || (w.calls[r].pc.Drop? && !HasRun(w, n)))
    case StepLesson(m, _) => m == n && n < |w.lessons| && w.lessons[n].pc.RecordGate? && Folding(w, n)
    case StepWake(i, _) =>
      && i < |w.wakes| && w.wakes[i].item == n
      && ((w.wakes[i].pc.WakeRepark? && !GateDue(w, n)) || (w.wakes[i].pc.WakeRecord? && Folding(w, n)))
    case _ => false
  }

  /** The mark a mishap leaves on the state. */
  ghost predicate Damaged(w: World, n: nat) {
    && n < |w.lessons| && n in w.inbox && w.inbox[n].Resolved?
    && (|| At(w, n, Stranded(true)) || At(w, n, Stranded(false))
        || (Folding(w, n) && n in w.results && w.results[n].Suspended?)
        || (At(w, n, Over) && w.inbox[n].decision.Approval? && w.lessons[n].status == InFlight)
        || (HasGate(w, n) && !GateDue(w, n)))
  }

  ghost predicate Sound(cfg: Config, w: World) { Inv(cfg, w) && QInv(w) }

  // --- damage comes from mishaps alone, and stays ---------------------------------------------

  lemma DamageApart(cfg: Config, w: World, w': World, m: nat, n: nat)
    requires Sound(cfg, w) && Apart(w, w', m) && m != n
    ensures Damaged(w', n) <==> Damaged(w, n)
  {
    if n < |w.lessons| && n in w.inbox && w.inbox[n].Resolved? { assert LessonInv(cfg, w, n); }
  }

  lemma DamageByLesson(cfg: Config, w: World, n: nat, ok: bool)
    requires Sound(cfg, w) && n < |w.lessons|
    ensures Damaged(LessonStep(cfg, w, n, ok), n) <==> Damaged(w, n) || Mishap(w, StepLesson(n, ok), n)
  {
    assert LessonInv(cfg, w, n) && LessonQ(w, n);
    LessonStepShape(cfg, w, n, ok);
  }

  lemma DamageByResume(cfg: Config, w: World, r: nat, ok: bool)
    requires Sound(cfg, w) && r < |w.calls| && w.calls[r].item < |w.lessons| && w.calls[r].pc.Resume?
    ensures var n := w.calls[r].item;
            Damaged(CallStep(cfg, w, r, ok), n) <==> Damaged(w, n) || Mishap(w, StepCall(r, ok), n)
  {
    var n := w.calls[r].item;
    assert LessonInv(cfg, w, n) && LessonQ(w, n) && CallInv(cfg, w, r);
  }

  lemma DamageByGate(cfg: Config, w: World, r: nat, ok: bool)
    requires Sound(cfg, w) && r < |w.calls| && w.calls[r].item < |w.lessons|
    requires !w.calls[r].pc.Resume? && !w.calls[r].pc.Waiting? && !w.calls[r].pc.Drop?
    ensures var n := w.calls[r].item; Damaged(CallStep(cfg, w, r, ok), n) <==> Damaged(w, n)
  {
    var n := w.calls[r].item;
    assert LessonInv(cfg, w, n) && LessonQ(w, n) && CallInv(cfg, w, r);
  }

  lemma DamageByAnswer(cfg: Config, w: World, r: nat, ok: bool)
    requires Sound(cfg, w) && r < |w.calls| && w.calls[r].item < |w.lessons| && w.calls[r].pc == Waiting(0)
    ensures var n := w.calls[r].item; Damaged(CallStep(cfg, w, r, ok), n) <==> Damaged(w, n)
  {
    var n := w.calls[r].item;
    assert LessonInv(cfg, w, n) && LessonQ(w, n) && CallInv(cfg, w, r);
  }

  lemma DamageByWaiting(cfg: Config, w: World, r: nat, ok: bool)
    requires Sound(cfg, w) && r < |w.calls| && w.calls[r].item < |w.lessons|
    requires w.calls[r].pc.Waiting? && w.calls[r].pc.step > 0
    ensures var n := w.calls[r].item; Damaged(CallStep(cfg, w, r, ok), n) <==> Damaged(w, n)
  {
    var n := w.calls[r].item;
    assert LessonInv(cfg, w, n) && LessonQ(w, n) && CallInv(cfg, w, r);
  }

  lemma DamageByDrop(cfg: Config, w: World, r: nat, ok: bool)
    requires Sound(cfg, w) && r < |w.calls| && w.calls[r].item < |w.lessons| && w.calls[r].pc.Drop?
    ensures var n := w.calls[r].item;
            Damaged(CallStep(cfg, w, r, ok), n) <==> Damaged(w, n) || Mishap(w, StepCall(r, ok), n)
  {
    var n := w.calls[r].item;
    assert LessonInv(cfg, w, n) && LessonQ(w, n) && CallInv(cfg, w, r);
  }

  lemma DamageByWake(cfg: Config, w: World, i: nat, ok: bool)
    requires Sound(cfg, w) && i < |w.wakes|
    ensures var n := w.wakes[i].item;
            Damaged(WakeStep(cfg, w, i, ok), n) <==> Damaged(w, n) || Mishap(w, StepWake(i, ok), n)
  {
    var n := w.wakes[i].item;
    assert Gated(w, n);
    assert LessonInv(cfg, w, n) && LessonQ(w, n);
  }

  lemma FlipApart(w: World, r: nat, n: nat)
    requires r < |w.calls| && w.calls[r].item == n && n < |w.lessons|
    ensures Apart(w, FlipStep(w, r, n), n)
  {}

  lemma ResumeApart(w: World, r: nat, n: nat)
    requires r < |w.calls| && w.calls[r].item == n && n < |w.lessons|
    ensures Apart(w, ResumeStep(w, r, n), n) && Apart(w, ReparkStep(w, r, n), n)
  {}

  lemma RecordApart(w: World, r: nat, n: nat, result: Result)
    requires r < |w.calls| && w.calls[r].item == n && n < |w.lessons|
    ensures Apart(w, RecordStep(w, r, n, result), n)
  {}

  lemma NextApart(cfg: Config, w: World, r: nat, n: nat, k: nat, status: Status)
    requires r < |w.calls| && w.calls[r].item == n && n < |w.lessons|
    ensures Apart(w, NextStep(cfg, w, r, n, k), n) && Apart(w, EndRun(w, r, n, status), n)
  {}

  lemma WaitApart(cfg: Config, w: World, r: nat, n: nat, k: nat, ok: bool)
    requires r < |w.calls| && w.calls[r].item == n && n < |w.lessons|
    ensures Apart(w, WaitStep(cfg, w, r, n, k, ok), n)
  {
    var w1 := Admit(cfg, w, n, k);
    assert w1 == w.(admitted := w1.admitted);
    NextApart(cfg, w1, r, n, k, Halted);
  }

  lemma DropApart(cfg: Config, w: World, r: nat, n: nat)
    requires r < |w.calls| && w.calls[r].item == n && n < |w.lessons|
    ensures Apart(w, DropStep(cfg, w, r, n), n)
  {
    var w1 := w.(parked := w.parked - {GateTask(n)});
    if HasRun(w1, n) && w.lessons[n].status == InFlight && n in w.results && !w.results[n].Suspended? {
      NextApart(cfg, w1, r, n, 0, Halted);
      assert Apart(w1, ResumeRun(cfg, w1, r, n), n);
    }
  }

  lemma CallApart(cfg: Config, w: World, r: nat, ok: bool)
    requires r < |w.calls| && w.calls[r].item < |w.lessons|
    ensures Apart(w, CallStep(cfg, w, r, ok), w.calls[r].item)
  {
    var n := w.calls[r].item;
    match w.calls[r].pc
    case Waiting(k) => WaitApart(cfg, w, r, n, k, ok);
    case Drop => DropApart(cfg, w, r, n);
    case Record(result) => RecordApart(w, r, n, result);
    case Flip => FlipApart(w, r, n);
    case _ => ResumeApart(w, r, n);
  }

  lemma ParkApart(cfg: Config, w: World, n: nat, ok: bool)
    requires n < |w.lessons| && !w.lessons[n].pc.Fresh?
    ensures Apart(w, LessonStep(cfg, w, n, ok), n)
  {}

  lemma FreshApart(cfg: Config, w: World, n: nat, k: nat, ok: bool)
    requires n < |w.lessons|
    ensures Apart(w, FreshStep(cfg, w, n, k, ok), n)
  {
    var w1 := Admit(cfg, w, n, k);
    assert w1 == w.(admitted := w1.admitted);
  }

  lemma LessonApart(cfg: Config, w: World, n: nat, ok: bool)
    requires n < |w.lessons|
    ensures Apart(w, LessonStep(cfg, w, n, ok), n)
  {
    if w.lessons[n].pc.Fresh? { FreshApart(cfg, w, n, w.lessons[n].pc.step, ok); } else { ParkApart(cfg, w, n, ok); }
  }

  lemma WakeApart(cfg: Config, w: World, i: nat, ok: bool)
    requires i < |w.wakes| && w.wakes[i].item < |w.lessons|
    ensures Apart(w, WakeStep(cfg, w, i, ok), w.wakes[i].item)
  {}

  lemma DamageByCall(cfg: Config, w: World, r: nat, ok: bool, n: nat)
    requires Sound(cfg, w)
    ensures Damaged(CallStep(cfg, w, r, ok), n) <==> Damaged(w, n) || Mishap(w, StepCall(r, ok), n)
  {
    if r < |w.calls| && w.calls[r].item < |w.lessons| {
      if w.calls[r].item != n {
        CallApart(cfg, w, r, ok);
        DamageApart(cfg, w, CallStep(cfg, w, r, ok), w.calls[r].item, n);
      } else if w.calls[r].pc == Waiting(0) {
        DamageByAnswer(cfg, w, r, ok);
      } else if w.calls[r].pc.Waiting? {
        DamageByWaiting(cfg, w, r, ok);
      } else if w.calls[r].pc.Resume? {
        DamageByResume(cfg, w, r, ok);
      } else if w.calls[r].pc.Drop? {
        DamageByDrop(cfg, w, r, ok);
      } else {
        DamageByGate(cfg, w, r, ok);
      }
    }
  }

  lemma DamageByOthers(cfg: Config, w: World, e: Event, n: nat)
    requires Sound(cfg, w) && (e.Ask? || e.Resolve? || e.StartWake?)
    ensures Damaged(Step(cfg, w, e), n) <==> Damaged(w, n)
  {
    if n < |w.lessons| && n in w.inbox { assert LessonInv(cfg, w, n); }
    if e.StartWake? && e.item < |w.lessons| && HasGate(w, e.item) { assert LessonInv(cfg, w, e.item); }
    if e.Ask? {
      assert |w.lessons| !in w.inbox;
      StepExtends(cfg, w, e);
    }
  }

  /** A step damages a lesson exactly by a mishap, and damage is never repaired. */
  lemma DamageIsMishap(cfg: Config, w: World, e: Event, n: nat)
    requires Sound(cfg, w)
    ensures Damaged(Step(cfg, w, e), n) <==> Damaged(w, n) || Mishap(w, e, n)
  {
    match e {
      case StepCall(r, ok) => DamageByCall(cfg, w, r, ok, n);
      case StepLesson(m, ok) =>
        if m < |w.lessons| {
          if m == n {
            DamageByLesson(cfg, w, n, ok);
          } else {
            LessonApart(cfg, w, m, ok);
            DamageApart(cfg, w, LessonStep(cfg, w, m, ok), m, n);
          }
        }
      case StepWake(i, ok) =>
        if i < |w.wakes| {
          assert Gated(w, w.wakes[i].item);
          if w.wakes[i].item == n {
            DamageByWake(cfg, w, i, ok);
          } else {
            WakeApart(cfg, w, i, ok);
            DamageApart(cfg, w, WakeStep(cfg, w, i, ok), w.wakes[i].item, n);
          }
        }
      case _ => DamageByOthers(cfg, w, e, n);
    }
  }

  /** No event of the schedule was a mishap for lesson `n`. */
  ghost predicate Unharmed(cfg: Config, es: seq<Event>, n: nat) {
    es != [] ==>
      var before := es[..|es| - 1];
      Unharmed(cfg, before, n) && !Mishap(Run(cfg, before), es[|es| - 1], n)
  }

  lemma {:induction false} DamagedIff(cfg: Config, es: seq<Event>, n: nat)
    ensures Damaged(Run(cfg, es), n) <==> !Unharmed(cfg, es, n)
  {
    if es != [] {
      var before := es[..|es| - 1];
      DamagedIff(cfg, before, n);
      QRun(cfg, before);
      DamageIsMishap(cfg, Run(cfg, before), es[|es| - 1], n);
    }
  }

  // --- the exact condition, on schedules --------------------------------------------------

  /** Lesson `n` rests: dispatched, its resolver if any is done. */
  ghost predicate Settled(w: World, n: nat) {
    && n < |w.lessons| && w.lessons[n].pc.Left?
    && (n in w.inbox && w.inbox[n].Resolved? ==>
          w.inbox[n].call < |w.calls| && Final(w.calls[w.inbox[n].call].pc))
  }

  /** A lesson at rest is coherent exactly if it is undamaged and its decision, if any, was usable. */
  lemma SettledIff(cfg: Config, w: World, n: nat)
    requires Sound(cfg, w) && Settled(w, n)
    ensures CoherentAt(w, n) <==> !Damaged(w, n) && !UnusableAt(w, n)
  {
    assert LessonInv(cfg, w, n) && LessonQ(w, n);
  }

  /** A schedule without a mishap for any lesson. */
  ghost predicate NoMishap(cfg: Config, es: seq<Event>) { forall n: nat :: Unharmed(cfg, es, n) }

  /**
   * Over every schedule of lessons, resolvers and wakes: once nothing runs, pending items,
   * gate rows and unfinished runs match one to one if and only if no stretch came at the
   * wrong time and every decision was usable.
   */
  lemma CoherentIff(cfg: Config, es: seq<Event>)
    requires Quiet(Run(cfg, es))
    ensures Coherent(Run(cfg, es)) <==> NoMishap(cfg, es) && !SomeUnusable(Run(cfg, es))
  {
    var w := Run(cfg, es);
    QRun(cfg, es);
    forall n: nat ensures CoherentAt(w, n) <==> Unharmed(cfg, es, n) && !UnusableAt(w, n) {
      DamagedIff(cfg, es, n);
      if n < |w.lessons| {
        assert LessonInv(cfg, w, n);
        SettledIff(cfg, w, n);
      }
    }
  }

  // --- what is final ----------------------------------------------------------------------

  /** A damaged lesson stays damaged in every continuation. */
  lemma {:induction false} DamagedForever(cfg: Config, es: seq<Event>, more: seq<Event>, n: nat)
    requires Damaged(Run(cfg, es), n)
    ensures Damaged(Run(cfg, es + more), n)
  {
    if more == [] {
      assert es + more == es;
    } else {
      var init, e := more[..|more| - 1], more[|more| - 1];
      assert (es + more)[..|es + more| - 1] == es + init;
      DamagedForever(cfg, es, init, n);
      QRun(cfg, es + init);
      DamageIsMishap(cfg, Run(cfg, es + init), e, n);
    }
  }

  /** A run whose resolver threw is unfinished, in every reachable state. */
  lemma StrandedNeverEnds(cfg: Config, es: seq<Event>, r: nat)
    requires r < |Run(cfg, es).calls| && Run(cfg, es).calls[r].pc.Stranded?
    ensures var w := Run(cfg, es);
            && w.calls[r].item < |w.lessons| && w.lessons[w.calls[r].item].status == InFlight
            && Damaged(w, w.calls[r].item)
  {
    var w := Run(cfg, es);
    QRun(cfg, es);
    assert CallInv(cfg, w, r);
    var n := w.calls[r].item;
    assert LessonInv(cfg, w, n) && LessonQ(w, n);
    assert At(w, n, w.calls[r].pc);
    assert w.calls[r].pc == Stranded(true) || w.calls[r].pc == Stranded(false);
  }

  /** Nor does a run ever end whose item was spent on a decision the gate cannot use. */
  lemma SpentNeverEnds(cfg: Config, es: seq<Event>, n: nat)
    requires UnusableAt(Run(cfg, es), n)
    ensures var w := Run(cfg, es); n < |w.lessons| && w.lessons[n].status == InFlight
  {
    QRun(cfg, es);
    var w := Run(cfg, es);
    assert LessonInv(cfg, w, n) && LessonQ(w, n);
    assert CallInv(cfg, w, w.inbox[n].call);
  }
}
