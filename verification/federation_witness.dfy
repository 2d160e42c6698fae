/** Concrete runs, one for each way a quiet state can be incoherent. */
module FederationWitness {
  import opened Options
  import opened Text
  import opened Federation
  import opened FederationSafety
  import opened FederationQuiescence
  import opened FederationCoherence

  /** Every topic is gated; the run is the crossing alone. */
  const Bare := Config([], [], 1)

  const Yes := Approval(true)
  const No := Approval(false)

  lemma Reach(es: seq<Event>, w: World, e: Event, w': World)
    requires Run(Bare, es) == w && Step(Bare, w, e) == w'
    ensures Run(Bare, es + [e]) == w'
  {
    assert (es + [e])[..|es|] == es;
  }

  // --- a gated lesson is dispatched -------------------------------------------------------

  const Asked := World([Lesson(false, InFlight, 0, WriteItem)], map[], map[], map[], [], [], [], [])
  const Written := Asked.(lessons := [Lesson(false, InFlight, 0, ParkGate)], inbox := map[0 := Pending])
  const RowParked := Written.(lessons := [Lesson(false, InFlight, 0, RecordGate)],
                              parked := map[GateTask(0) := GateState(None)])
  const Recorded := RowParked.(lessons := [Lesson(false, InFlight, 0, ParkRun)], results := map[0 := Suspended])
  const Parked := Recorded.(lessons := [Lesson(false, InFlight, 0, Left)],
                            parked := map[GateTask(0) := GateState(None), RunTask(0) := RunState])

  const Go := StepLesson(0, true)
  const Call0 := StepCall(0, true)

  lemma AskGated()
    ensures Step(Bare, Init, Ask("x")) == Asked
  {
    assert Trim("x") !in Bare.whitelist;
  }

  lemma Dispatching()
    ensures Step(Bare, Asked, Go) == Written && Step(Bare, Written, Go) == RowParked
    ensures Step(Bare, RowParked, Go) == Recorded && Step(Bare, Recorded, Go) == Parked
  {}

  const ToWritten := [] + [Ask("x")] + [Go]
  const ToRow := ToWritten + [Go]
  const ToParked := ToRow + [Go] + [Go]

  lemma RunToParked()
    ensures Run(Bare, ToWritten) == Written && Run(Bare, ToRow) == RowParked && Run(Bare, ToParked) == Parked
  {
    AskGated(); Dispatching();
    Reach([], Init, Ask("x"), Asked);
    Reach([] + [Ask("x")], Asked, Go, Written);
    Reach(ToWritten, Written, Go, RowParked);
    Reach(ToRow, RowParked, Go, Recorded);
    Reach(ToRow + [Go], Recorded, Go, Parked);
  }

  // --- an approval that resumes before the gate's row is parked ---------------------------

  const E1 := Written.(calls := [Call(0, Yes, Flip)])
  const E2 := Written.(calls := [Call(0, Yes, Resume)], inbox := map[0 := Resolved(Yes, 0)])
  const E3 := E2.(calls := [Call(0, Yes, Stranded(true))])
  const E4 := RowParked.(calls := E3.calls, inbox := E3.inbox)
  const E5 := Recorded.(calls := E3.calls, inbox := E3.inbox)
  const E6 := Parked.(calls := E3.calls, inbox := E3.inbox)

  const ToStranded := ToWritten + [Resolve(0, Yes)] + [Call0] + [Call0]
  const Early := ToStranded + [Go] + [Go] + [Go]

  lemma EarlySteps()
    ensures Step(Bare, Written, Resolve(0, Yes)) == E1
    ensures Step(Bare, E1, Call0) == E2 && Step(Bare, E2, Call0) == E3
  {}

  lemma RunToStranded()
    ensures Run(Bare, ToStranded) == E3
  {
    RunToParked(); EarlySteps();
    Reach(ToWritten, Written, Resolve(0, Yes), E1);
    Reach(ToWritten + [Resolve(0, Yes)], E1, Call0, E2);
    Reach(ToWritten + [Resolve(0, Yes)] + [Call0], E2, Call0, E3);
  }

  lemma EarlyRest()
    ensures Step(Bare, E3, Go) == E4 && Step(Bare, E4, Go) == E5 && Step(Bare, E5, Go) == E6
  {}

  /** An approval that finds the item but not yet the gate's row is accepted by the inbox and then throws. */
  lemma EarlyResolveStrands()
    ensures var w := Run(Bare, Early); Quiet(w) && !Coherent(w) && !SomeUnusable(w)
  {
    RunToStranded(); EarlyRest();
    Reach(ToStranded, E3, Go, E4);
    Reach(ToStranded + [Go], E4, Go, E5);
    Reach(ToStranded + [Go] + [Go], E5, Go, E6);
    assert !CoherentAt(E6, 0);
  }

  // --- a rejection whose result the dispatch overwrites -----------------------------------

  const O1 := RowParked.(calls := [Call(0, No, Flip)])
  const O2 := RowParked.(calls := [Call(0, No, Resume)], inbox := map[0 := Resolved(No, 0)])
  const O3 := O2.(calls := [Call(0, No, Record(Failed))])
  const O4 := O2.(calls := [Call(0, No, Drop)], results := map[0 := Failed])
  const O5 := O4.(lessons := [Lesson(false, InFlight, 0, ParkRun)], results := map[0 := Suspended])
  const O6 := O5.(lessons := [Lesson(false, InFlight, 0, Left)],
                  parked := map[GateTask(0) := GateState(None), RunTask(0) := RunState])
  const O7 := O6.(calls := [Call(0, No, Over)], parked := map[RunTask(0) := RunState])

  const ToRejected := ToRow + [Resolve(0, No)] + [Call0] + [Call0] + [Call0]
  const Overwritten := ToRejected + [Go] + [Go] + [Call0]

  lemma RejectSteps()
    ensures Step(Bare, RowParked, Resolve(0, No)) == O1
    ensures Step(Bare, O1, Call0) == O2 && Step(Bare, O2, Call0) == O3 && Step(Bare, O3, Call0) == O4
  {}

  lemma RunToRejected()
    ensures Run(Bare, ToRejected) == O4
  {
    RunToParked(); RejectSteps();
    Reach(ToRow, RowParked, Resolve(0, No), O1);
    Reach(ToRow + [Resolve(0, No)], O1, Call0, O2);
    Reach(ToRow + [Resolve(0, No)] + [Call0], O2, Call0, O3);
    Reach(ToRow + [Resolve(0, No)] + [Call0] + [Call0], O3, Call0, O4);
  }

  lemma OverwriteRest()
    ensures Step(Bare, O4, Go) == O5 && Step(Bare, O5, Go) == O6 && Step(Bare, O6, Call0) == O7
  {
    assert O6.parked - {GateTask(0)} == map[RunTask(0) := RunState];
  }

  /**
   * A rejection that finds the gate's row before the dispatch has recorded the suspension: the
   * dispatch records it over the failure, and the run waits for ever for a decided item.
   */
  lemma DispatchOverwritesResult()
    ensures var w := Run(Bare, Overwritten); Quiet(w) && !Coherent(w) && !SomeUnusable(w)
  {
    RunToRejected(); OverwriteRest();
    Reach(ToRejected, O4, Go, O5);
    Reach(ToRejected + [Go], O5, Go, O6);
    Reach(ToRejected + [Go] + [Go], O6, Call0, O7);
    assert !CoherentAt(O7, 0);
  }

  // --- a decision the gate cannot use ----------------------------------------------------

  const U1 := Parked.(calls := [Call(0, OtherKind, Flip)])
  const U2 := Parked.(calls := [Call(0, OtherKind, Resume)], inbox := map[0 := Resolved(OtherKind, 0)])
  const U3 := U2.(calls := [Call(0, OtherKind, Repark)])
  const U4 := U2.(calls := [Call(0, OtherKind, Record(Suspended))],
                  parked := map[GateTask(0) := GateState(Some(OtherKind)), RunTask(0) := RunState])
  const U5 := U4.(calls := [Call(0, OtherKind, Drop)])
  const U6 := U2.(calls := [Call(0, OtherKind, Over)], parked := map[RunTask(0) := RunState])

  const ToUnusable := ToParked + [Resolve(0, OtherKind)] + [Call0] + [Call0]
  const Unusable := ToUnusable + [Call0] + [Call0] + [Call0]

  lemma UnusableFlip()
    ensures Step(Bare, Parked, Resolve(0, OtherKind)) == U1
    ensures Step(Bare, U1, Call0) == U2 && Step(Bare, U2, Call0) == U3
  {}

  lemma RunToUnusable()
    ensures Run(Bare, ToUnusable) == U3
  {
    RunToParked(); UnusableFlip();
    Reach(ToParked, Parked, Resolve(0, OtherKind), U1);
    Reach(ToParked + [Resolve(0, OtherKind)], U1, Call0, U2);
    Reach(ToParked + [Resolve(0, OtherKind)] + [Call0], U2, Call0, U3);
  }

  lemma UnusableRest()
    ensures Step(Bare, U3, Call0) == U4 && Step(Bare, U4, Call0) == U5 && Step(Bare, U5, Call0) == U6
  {
    assert U5.parked - {GateTask(0)} == map[RunTask(0) := RunState];
  }

  /**
   * A `choice` or `edit` decision makes the gate park again, and the resolver then drops the
   * row it parked: the item is spent and the run waits for ever.
   */
  lemma UnusableDecisionWedges()
    ensures var w := Run(Bare, Unusable); Quiet(w) && !Coherent(w) && SomeUnusable(w)
  {
    RunToUnusable(); UnusableRest();
    Reach(ToUnusable, U3, Call0, U4);
    Reach(ToUnusable + [Call0], U4, Call0, U5);
    Reach(ToUnusable + [Call0] + [Call0], U5, Call0, U6);
    assert UnusableAt(U6, 0);
    assert !CoherentAt(U6, 0);
  }

  // --- a wake whose second parking comes after the resolver is done -----------------------

  const S1 := Parked.(wakes := [Wake(0, WakeRepark(None))])
  const S2 := S1.(calls := [Call(0, No, Flip)])
  const S3 := S1.(calls := [Call(0, No, Resume)], inbox := map[0 := Resolved(No, 0)])
  const S4 := S3.(calls := [Call(0, No, Record(Failed))])
  const S5 := S3.(calls := [Call(0, No, Drop)], results := map[0 := Failed])
  const S6 := S5.(calls := [Call(0, No, Over)], lessons := [Lesson(false, Halted, 0, Left)], parked := map[])
  const S7 := S6.(wakes := [Wake(0, WakeRecord(Suspended))], parked := map[GateTask(0) := GateState(None)])
  const S8 := S7.(wakes := [Wake(0, WakeOver)], results := map[0 := Suspended])

  const ToResumed := ToParked + [StartWake(0)] + [Resolve(0, No)] + [Call0] + [Call0]
  const ToDone := ToResumed + [Call0] + [Call0]
  const Stray := ToDone + [StepWake(0, true)] + [StepWake(0, true)]

  lemma StrayStart()
    ensures Step(Bare, Parked, StartWake(0)) == S1 && Step(Bare, S1, Resolve(0, No)) == S2
    ensures Step(Bare, S2, Call0) == S3 && Step(Bare, S3, Call0) == S4
  {}

  lemma RunToResumed()
    ensures Run(Bare, ToResumed) == S4
  {
    RunToParked(); StrayStart();
    Reach(ToParked, Parked, StartWake(0), S1);
    Reach(ToParked + [StartWake(0)], S1, Resolve(0, No), S2);
    Reach(ToParked + [StartWake(0)] + [Resolve(0, No)], S2, Call0, S3);
    Reach(ToParked + [StartWake(0)] + [Resolve(0, No)] + [Call0], S3, Call0, S4);
  }

  lemma StrayDone()
    ensures Step(Bare, S4, Call0) == S5 && Step(Bare, S5, Call0) == S6
  {
    assert S5.parked - {GateTask(0)} == map[RunTask(0) := RunState];
    assert map[RunTask(0) := RunState] - {RunTask(0)} == map[];
  }

  lemma StrayRest()
    ensures Step(Bare, S6, StepWake(0, true)) == S7 && Step(Bare, S7, StepWake(0, true)) == S8
  {}

  lemma RunToDone()
    ensures Run(Bare, ToDone) == S6
  {
    RunToResumed(); StrayDone();
    Reach(ToResumed, S4, Call0, S5);
    Reach(ToResumed + [Call0], S5, Call0, S6);
  }

  /** A stray wake that parks again after the resolver dropped the row leaves a row no item owns. */
  lemma StrayWakeOrphans()
    ensures var w := Run(Bare, Stray); Quiet(w) && !Coherent(w) && !SomeUnusable(w)
  {
    RunToDone(); StrayRest();
    Reach(ToDone, S6, StepWake(0, true), S7);
    Reach(ToDone + [StepWake(0, true)], S7, StepWake(0, true), S8);
    assert !CoherentAt(S8, 0);
  }
}
