/** When waking a parked gate is safe: only when there is nothing to wake. */
module FederationWake {
  import opened Options
  import opened Federation
  import opened FederationSafety
  import opened FederationQuiescence
  import opened FederationCoherence
  import opened FederationReady

  /**
   * However it goes on after the state, once lesson `n` and the wakes of its gate are done, the
   * lesson is coherent, unless its item is spent on an unusable decision.
   */
  ghost predicate AlwaysCoherentAwake(cfg: Config, w: World, n: nat) {
    forall more :: Undisturbed(more, n) && RestsUsably(Play(cfg, w, more), n) ==> CoherentAt(Play(cfg, w, more), n)
  }

  ghost predicate RestsUsably(w: World, n: nat) {
    Settled(w, n) && NoWakeUnderWay(w, n) && !UnusableAt(w, n)
  }

  // --- without a row --------------------------------------------------------------------------

  lemma NoRowWakeIsSafe(cfg: Config, w: World, n: nat)
    requires Sound(cfg, w) && Safe(w, n) && !HasGate(w, n)
    ensures AlwaysCoherentAwake(cfg, Step(cfg, w, StartWake(n)), n)
  {
    assert Step(cfg, w, StartWake(n)) == w;
    forall more | Undisturbed(more, n) && RestsUsably(Play(cfg, w, more), n) ensures CoherentAt(Play(cfg, w, more), n) {
      SafePlay(cfg, w, more, n);
      SettledIff(cfg, Play(cfg, w, more), n);
    }
  }

  // --- with a row -----------------------------------------------------------------------------

  /** The wake waits to park again, and no other wake of this gate is under way. */
  ghost predicate Waking(w: World, n: nat, i: nat) {
    && i < |w.wakes| && w.wakes[i].item == n && w.wakes[i].pc.WakeRepark?
    && forall j :: 0 <= j < |w.wakes| && j != i && w.wakes[j].item == n ==> w.wakes[j].pc.WakeOver?
  }

  lemma WakeStarts(cfg: Config, w: World, n: nat)
    requires Sound(cfg, w) && Safe(w, n) && HasGate(w, n) && !UnusableAt(w, n)
    ensures var w' := StartWakeStep(w, n);
            && Waking(w', n, |w.wakes|) && w'.inbox == w.inbox && w'.lessons == w.lessons && w'.calls == w.calls
            && n in w.inbox && !Damaged(w', n)
  {
    assert LessonInv(cfg, w, n) && LessonQ(w, n);
    DamageIsMishap(cfg, w, StartWake(n), n);
  }

  /** A caller rejects the pending item, and its resolver flips it. */
  lemma RejectPending(cfg: Config, w: World, n: nat) returns (more: seq<Event>)
    requires Sound(cfg, w) && n < |w.lessons| && n in w.inbox && w.inbox[n].Pending?
    ensures var w' := Play(cfg, w, more);
            && Undisturbed(more, n) && Sound(cfg, w') && w'.wakes == w.wakes && Owned(w', n)
            && w'.inbox[n].decision == Approval(false)
  {
    var d, r := Approval(false), |w.calls|;
    var entered := ResolveStep(w, n, d);
    EnterCall(w, n, d);
    SoundStep(cfg, w, Resolve(n, d));
    SoundStep(cfg, entered, StepCall(r, false));
    more := [Resolve(n, d)] + [StepCall(r, false)];
    PlayFirst(cfg, w, Resolve(n, d), [StepCall(r, false)]);
    PlayOne(cfg, entered, StepCall(r, false));
    assert Step(cfg, entered, StepCall(r, false)) == FlipStep(entered, r, n);
  }

  /** A late wake damages a lesson at rest: it parks a row that nobody drops. */
  lemma LateWakeHarms(cfg: Config, w: World, n: nat, i: nat)
    requires Sound(cfg, w) && Settled(w, n) && Waking(w, n, i) && Owned(w, n) && !UnusableAt(w, n)
    ensures var w' := WakeStep(cfg, WakeStep(cfg, w, i, false), i, false);
            && Sound(cfg, w') && RestsUsably(w', n) && Damaged(w', n)
  {
    var w1 := WakeStep(cfg, w, i, false);
    var w' := WakeStep(cfg, w1, i, false);
    SoundStep(cfg, w, StepWake(i, false));
    SoundStep(cfg, w1, StepWake(i, false));
    DamageIsMishap(cfg, w, StepWake(i, false), n);
    DamageIsMishap(cfg, w1, StepWake(i, false), n);
    assert LessonInv(cfg, w, n) && LessonQ(w, n);
    if GateDue(w, n) { SettledIsOver(cfg, w, n); }
  }

  /** At rest the gate's row is owed only by a resolver that threw, which is damage. */
  lemma SettledIsOver(cfg: Config, w: World, n: nat)
    requires Sound(cfg, w) && Settled(w, n) && Owned(w, n) && GateDue(w, n)
    ensures Damaged(w, n)
  {
    assert LessonInv(cfg, w, n) && LessonQ(w, n);
  }

  /** A decided lesson whose gate is being woken can come to rest before the wake goes on. */
  lemma OvertakeWake(cfg: Config, w: World, n: nat, i: nat) returns (more: seq<Event>)
    requires Sound(cfg, w) && Owned(w, n) && Waking(w, n, i) && !UnusableAt(w, n)
    ensures var end := Play(cfg, w, more); Undisturbed(more, n) && RestsUsably(end, n) && !CoherentAt(end, n)
  {
    var rest := CanSettle(cfg, w, n);
    var settled := Play(cfg, w, rest);
    var late := [StepWake(i, false)] + [StepWake(i, false)];
    LateWakeHarms(cfg, settled, n, i);
    PlayFirst(cfg, settled, StepWake(i, false), [StepWake(i, false)]);
    PlayOne(cfg, WakeStep(cfg, settled, i, false), StepWake(i, false));
    PlayAppend(cfg, w, rest, late);
    SettledIff(cfg, Play(cfg, settled, late), n);
    more := rest + late;
  }

  /** A wake of a parked gate can be overtaken: whoever resolves the item finishes before the wake parks again. */
  lemma WakeCanHarm(cfg: Config, w: World, n: nat) returns (more: seq<Event>)
    requires Sound(cfg, w) && Safe(w, n) && HasGate(w, n) && !UnusableAt(w, n)
    ensures var end := Play(cfg, Step(cfg, w, StartWake(n)), more);
            Undisturbed(more, n) && RestsUsably(end, n) && !CoherentAt(end, n)
  {
    var woken := Step(cfg, w, StartWake(n));
    SoundStep(cfg, w, StartWake(n));
    WakeStarts(cfg, w, n);
    if w.inbox[n].Pending? {
      var first := RejectPending(cfg, woken, n);
      var rest := OvertakeWake(cfg, Play(cfg, woken, first), n, |w.wakes|);
      PlayAppend(cfg, woken, first, rest);
      more := first + rest;
    } else {
      OwnedAlways(cfg, woken, n);
      more := OvertakeWake(cfg, woken, n, |w.wakes|);
    }
  }

  /**
   * For a lesson whose dispatch has returned unharmed and whose gate nobody is waking: entering a
   * wake is safe, however everything else is scheduled, if and only if the gate has no row, so that
   * there is nothing to wake.
   */
  lemma WakeIsSafeIff(cfg: Config, es: seq<Event>, n: nat)
    requires Safe(Run(cfg, es), n) && !UnusableAt(Run(cfg, es), n)
    ensures AlwaysCoherentAwake(cfg, Step(cfg, Run(cfg, es), StartWake(n)), n) <==> !HasGate(Run(cfg, es), n)
  {
    var w := Run(cfg, es);
    QRun(cfg, es);
    if HasGate(w, n) { var more := WakeCanHarm(cfg, w, n); } else { NoRowWakeIsSafe(cfg, w, n); }
  }
}
