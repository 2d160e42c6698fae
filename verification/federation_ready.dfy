/** When a caller may resolve an item: the condition a caller can check when it enters the call. */
module FederationReady {
  import opened Options
  import opened Text
  import opened Federation
  import opened FederationSafety
  import opened FederationQuiescence
  import opened FederationCoherence

  /** Both rows are parked and the suspended result is recorded. */
  ghost predicate Ready(w: World, n: nat) { HasGate(w, n) && HasRun(w, n) && n in w.results }

  /** No wake of the gate of lesson `n` is under way. */
  ghost predicate NoWakeUnderWay(w: World, n: nat) {
    forall i :: 0 <= i < |w.wakes| && w.wakes[i].item == n ==> w.wakes[i].pc.WakeOver?
  }

  /** Nobody wakes that gate. */
  ghost predicate Undisturbed(es: seq<Event>, n: nat) {
    forall i :: 0 <= i < |es| ==> es[i] != StartWake(n)
  }

  /** The state after further events. */
  ghost function Play(cfg: Config, w: World, more: seq<Event>): World
    decreases |more|
  {
    if more == [] then w else Play(cfg, Step(cfg, w, more[0]), more[1..])
  }

  lemma PlayFirst(cfg: Config, w: World, e: Event, rest: seq<Event>)
    ensures Play(cfg, w, [e] + rest) == Play(cfg, Step(cfg, w, e), rest)
  {
    assert ([e] + rest)[1..] == rest;
  }

  lemma {:induction false} PlayAppend(cfg: Config, w: World, a: seq<Event>, b: seq<Event>)
    ensures Play(cfg, w, a + b) == Play(cfg, Play(cfg, w, a), b)
    decreases |a|
  {
    if a == [] {
      assert a + b == b;
    } else {
      var e, rest := a[0], a[1..];
      assert a == [e] + rest && a + b == [e] + (rest + b);
      PlayAppend(cfg, Step(cfg, w, e), rest, b);
      PlayFirst(cfg, w, e, rest);
      PlayFirst(cfg, w, e, rest + b);
    }
  }

  lemma PlayOne(cfg: Config, w: World, e: Event)
    ensures Play(cfg, w, [e]) == Step(cfg, w, e)
  {
    assert [e][1..] == [];
  }

  // --- ready calls do no harm -------------------------------------------------------------

  /** The lesson is parked and unharmed, and no wake can harm it. */
  ghost predicate Safe(w: World, n: nat) {
    n < |w.lessons| && !w.lessons[n].clear && w.lessons[n].pc.Left? && !Damaged(w, n) && NoWakeUnderWay(w, n)
  }

  lemma PcStays(cfg: Config, w: World, e: Event, n: nat)
    requires n < |w.lessons| && w.lessons[n].pc.Left?
    ensures var w' := Step(cfg, w, e);
            n < |w'.lessons| && w'.lessons[n].pc.Left? && w'.lessons[n].clear == w.lessons[n].clear
  {
    match e
    case StepCall(r, ok) => CallStepShape(cfg, w, r, ok);
    case StepLesson(m, ok) => LessonStepShape(cfg, w, m, ok);
    case Ask(_) => StepExtends(cfg, w, e);
    case _ =>
  }

  /** Wakes and every resolver but `r` are as they were. */
  ghost predicate OthersKept(w: World, w': World, r: nat) {
    && w'.wakes == w.wakes && |w'.calls| == |w.calls|
    && forall q :: 0 <= q < |w.calls| && q != r ==> w'.calls[q] == w.calls[q]
  }

  lemma GateLeavesOthers(w: World, r: nat, n: nat, result: Result)
    requires r < |w.calls| && n < |w.lessons|
    ensures OthersKept(w, FlipStep(w, r, n), r) && OthersKept(w, ResumeStep(w, r, n), r)
    ensures OthersKept(w, ReparkStep(w, r, n), r) && OthersKept(w, RecordStep(w, r, n, result), r)
  {}

  lemma NextLeavesOthers(cfg: Config, w: World, r: nat, n: nat, k: nat)
    requires r < |w.calls| && n < |w.lessons|
    ensures OthersKept(w, NextStep(cfg, w, r, n, k), r) && OthersKept(w, EndRun(w, r, n, Halted), r)
  {}

  lemma WaitLeavesOthers(cfg: Config, w: World, r: nat, n: nat, k: nat, ok: bool)
    requires r < |w.calls| && n < |w.lessons|
    ensures OthersKept(w, WaitStep(cfg, w, r, n, k, ok), r)
  {
    NextLeavesOthers(cfg, Admit(cfg, w, n, k), r, n, k);
  }

  lemma DropLeavesOthers(cfg: Config, w: World, r: nat, n: nat)
    requires r < |w.calls| && n < |w.lessons|
    ensures OthersKept(w, DropStep(cfg, w, r, n), r)
  {
    NextLeavesOthers(cfg, w.(parked := w.parked - {GateTask(n)}), r, n, 0);
  }

  lemma CallsLeaveOthers(cfg: Config, w: World, r: nat, ok: bool)
    ensures OthersKept(w, CallStep(cfg, w, r, ok), r)
  {
    if r < |w.calls| && w.calls[r].item < |w.lessons| {
      var n := w.calls[r].item;
      match w.calls[r].pc
      case Waiting(k) => WaitLeavesOthers(cfg, w, r, n, k, ok);
      case Drop => DropLeavesOthers(cfg, w, r, n);
      case Record(result) => GateLeavesOthers(w, r, n, result);
      case _ => GateLeavesOthers(w, r, n, Ok);
    }
  }

  lemma LessonsLeaveWakes(cfg: Config, w: World, m: nat, ok: bool)
    ensures LessonStep(cfg, w, m, ok).wakes == w.wakes
  {}

  lemma NoWakeStays(cfg: Config, w: World, e: Event, n: nat)
    requires NoWakeUnderWay(w, n) && e != StartWake(n)
    ensures NoWakeUnderWay(Step(cfg, w, e), n)
  {
    match e
    case StepCall(r, ok) => CallsLeaveOthers(cfg, w, r, ok);
    case StepLesson(m, ok) => LessonsLeaveWakes(cfg, w, m, ok);
    case _ =>
  }

  lemma SafeStep(cfg: Config, w: World, e: Event, n: nat)
    requires Sound(cfg, w) && Safe(w, n) && e != StartWake(n)
    ensures Safe(Step(cfg, w, e), n)
  {
    PcStays(cfg, w, e, n);
    NoWakeStays(cfg, w, e, n);
    DamageIsMishap(cfg, w, e, n);
    assert LessonInv(cfg, w, n) && LessonQ(w, n);
    if e.StepCall? && e.call < |w.calls| && w.calls[e.call].item == n { assert CallInv(cfg, w, e.call); }
  }

  lemma SoundStep(cfg: Config, w: World, e: Event)
    requires Sound(cfg, w)
    ensures Sound(cfg, Step(cfg, w, e))
  {
    InvStep(cfg, w, e);
    QStep(cfg, w, e);
  }

  lemma {:induction false} SafePlay(cfg: Config, w: World, more: seq<Event>, n: nat)
    requires Sound(cfg, w) && Safe(w, n) && Undisturbed(more, n)
    ensures Sound(cfg, Play(cfg, w, more)) && Safe(Play(cfg, w, more), n)
    decreases |more|
  {
    if more != [] {
      SafeStep(cfg, w, more[0], n);
      SoundStep(cfg, w, more[0]);
      SafePlay(cfg, Step(cfg, w, more[0]), more[1..], n);
    }
  }

  lemma {:induction false} DamagedPlay(cfg: Config, w: World, more: seq<Event>, n: nat)
    requires Sound(cfg, w) && Damaged(w, n)
    ensures Sound(cfg, Play(cfg, w, more)) && Damaged(Play(cfg, w, more), n)
    decreases |more|
  {
    if more != [] {
      DamageIsMishap(cfg, w, more[0], n);
      SoundStep(cfg, w, more[0]);
      DamagedPlay(cfg, Step(cfg, w, more[0]), more[1..], n);
    }
  }

  /** A pending item is ready exactly if its dispatch has returned. */
  lemma ReadyMeansLeft(cfg: Config, w: World, n: nat)
    requires Sound(cfg, w) && n in w.inbox && w.inbox[n].Pending?
    ensures n < |w.lessons| && !w.lessons[n].clear && !Damaged(w, n)
    ensures Ready(w, n) <==> w.lessons[n].pc.Left?
  {
    assert LessonInv(cfg, w, n) && LessonQ(w, n);
  }

  // --- a call that is not ready can be scheduled into damage --------------------------------

  /** How far a resolver is from its end. */
  function Rank(pc: CallPc): nat {
    match pc
    case Resume => 6
    case Repark => 5
    case Waiting(k) => if k == 0 then 4 else 1
    case Record(_) => 3
    case Drop => 2
    case _ => 0
  }

  /** The resolver of item `n`, past its flip. */
  ghost predicate Owned(w: World, n: nat) {
    && n < |w.lessons| && n in w.inbox && w.inbox[n].Resolved?
    && w.inbox[n].call < |w.calls| && w.calls[w.inbox[n].call].item == n
  }

  lemma OwnedAlways(cfg: Config, w: World, n: nat)
    requires Sound(cfg, w) && n in w.inbox && w.inbox[n].Resolved?
    ensures Owned(w, n)
  {
    assert LessonInv(cfg, w, n);
  }

  lemma InboxKept(cfg: Config, w: World, r: nat, ok: bool)
    requires r < |w.calls| && !w.calls[r].pc.Flip?
    ensures CallStep(cfg, w, r, ok).inbox == w.inbox
  {}

  lemma WaitingMoves(cfg: Config, w: World, r: nat, n: nat, k: nat)
    requires r < |w.calls| && n < |w.lessons|
    ensures Rank(WaitStep(cfg, w, r, n, k, false).calls[r].pc) == if k == 0 then 3 else 0
  {}

  lemma DropMoves(cfg: Config, w: World, r: nat, n: nat)
    requires r < |w.calls| && n < |w.lessons|
    ensures Rank(DropStep(cfg, w, r, n).calls[r].pc) <= 1
  {}

  /** A step of the resolver leaves inbox and dispatch alone and brings it nearer its end. */
  lemma ResolverMoves(cfg: Config, w: World, n: nat)
    requires Sound(cfg, w) && Owned(w, n) && !Final(w.calls[w.inbox[n].call].pc)
    ensures var r := w.inbox[n].call; var w' := CallStep(cfg, w, r, false);
            && w'.inbox == w.inbox && SameLessons(w, w') && r < |w'.calls|
            && Rank(w'.calls[r].pc) < Rank(w.calls[r].pc)
  {
    var r := w.inbox[n].call;
    assert LessonInv(cfg, w, n);
    CallStepShape(cfg, w, r, false);
    InboxKept(cfg, w, r, false);
    match w.calls[r].pc
    case Waiting(k) => WaitingMoves(cfg, w, r, n, k);
    case Drop => DropMoves(cfg, w, r, n);
    case _ =>
  }

  /** Decided, its run not yet parked, and either damaged already or with its resolver under way. */
  ghost predicate Racing(w: World, n: nat) {
    && Owned(w, n) && !w.lessons[n].pc.Left?
    && (Damaged(w, n) || !Final(w.calls[w.inbox[n].call].pc))
  }

  ghost function ResolverRank(w: World, n: nat): nat
    requires Owned(w, n)
  {
    Rank(w.calls[w.inbox[n].call].pc)
  }

  /** The resolver's next step is a mishap, or leaves it under way. */
  lemma Reaches(cfg: Config, w: World, n: nat)
    requires Sound(cfg, w) && Owned(w, n) && !w.lessons[n].pc.Left? && !Final(w.calls[w.inbox[n].call].pc)
    ensures var r := w.inbox[n].call; var w' := CallStep(cfg, w, r, false);
            Mishap(w, StepCall(r, false), n) || (r < |w'.calls| && !Final(w'.calls[r].pc))
  {
    assert LessonInv(cfg, w, n) && LessonQ(w, n) && CallInv(cfg, w, w.inbox[n].call);
  }

  /** One step of the resolver, and what is left to play behind it. */
  lemma StrandStep(cfg: Config, w: World, n: nat) returns (e: Event, w': World)
    requires Sound(cfg, w) && Racing(w, n) && !Damaged(w, n)
    ensures e != StartWake(n) && forall rest :: Play(cfg, w, [e] + rest) == Play(cfg, w', rest)
    ensures Sound(cfg, w') && Racing(w', n) && w'.inbox == w.inbox && ResolverRank(w', n) < ResolverRank(w, n)
  {
    var r := w.inbox[n].call;
    e := StepCall(r, false);
    w' := CallStep(cfg, w, r, false);
    ResolverMoves(cfg, w, n);
    Reaches(cfg, w, n);
    DamageIsMishap(cfg, w, e, n);
    CallStepShape(cfg, w, r, false);
    SoundStep(cfg, w, e);
    forall rest ensures Play(cfg, w, [e] + rest) == Play(cfg, w', rest) { PlayFirst(cfg, w, e, rest); }
  }

  /** With the run not yet parked, the resolver alone runs into a mishap. */
  lemma {:induction false} StrandIt(cfg: Config, w: World, n: nat) returns (more: seq<Event>)
    requires Sound(cfg, w) && Racing(w, n)
    ensures Undisturbed(more, n) && Play(cfg, w, more).inbox == w.inbox
    ensures Sound(cfg, Play(cfg, w, more)) && Damaged(Play(cfg, w, more), n)
    decreases ResolverRank(w, n)
  {
    more := [];
    if !Damaged(w, n) {
      var e, w' := StrandStep(cfg, w, n);
      var rest := StrandIt(cfg, w', n);
      more := [e] + rest;
    }
  }

  function DispatchRank(pc: LessonPc): nat {
    match pc case WriteItem => 4 case ParkGate => 3 case RecordGate => 2 case ParkRun => 1 case _ => 0
  }

  lemma DispatchMoves(cfg: Config, w: World, n: nat)
    requires Sound(cfg, w) && Owned(w, n) && !w.lessons[n].pc.Left?
    ensures var w' := LessonStep(cfg, w, n, true);
            && w'.inbox == w.inbox && w'.calls == w.calls && |w'.lessons| == |w.lessons|
            && DispatchRank(w'.lessons[n].pc) < DispatchRank(w.lessons[n].pc)
  {
    assert LessonInv(cfg, w, n) && LessonQ(w, n);
  }

  lemma SettleStep(cfg: Config, w: World, n: nat) returns (e: Event, w': World)
    requires Sound(cfg, w) && Owned(w, n) && !Settled(w, n)
    ensures e != StartWake(n) && forall rest :: Play(cfg, w, [e] + rest) == Play(cfg, w', rest)
    ensures Sound(cfg, w') && Owned(w', n) && w'.inbox == w.inbox && w'.wakes == w.wakes
    ensures || DispatchRank(w'.lessons[n].pc) < DispatchRank(w.lessons[n].pc)
            || (w'.lessons[n].pc == w.lessons[n].pc && ResolverRank(w', n) < ResolverRank(w, n))
  {
    var r := w.inbox[n].call;
    if w.lessons[n].pc.Left? {
      e, w' := StepCall(r, false), CallStep(cfg, w, r, false);
      ResolverMoves(cfg, w, n);
      CallStepShape(cfg, w, r, false);
      CallsLeaveOthers(cfg, w, r, false);
    } else {
      e, w' := StepLesson(n, true), LessonStep(cfg, w, n, true);
      DispatchMoves(cfg, w, n);
      LessonsLeaveWakes(cfg, w, n, true);
    }
    SoundStep(cfg, w, e);
    forall rest ensures Play(cfg, w, [e] + rest) == Play(cfg, w', rest) { PlayFirst(cfg, w, e, rest); }
  }

  /** A decided lesson can always come to rest: its dispatch returns and its resolver ends. */
  lemma {:induction false} CanSettle(cfg: Config, w: World, n: nat) returns (more: seq<Event>)
    requires Sound(cfg, w) && Owned(w, n)
    ensures Undisturbed(more, n) && Settled(Play(cfg, w, more), n)
    ensures Play(cfg, w, more).inbox == w.inbox && Play(cfg, w, more).wakes == w.wakes
    ensures Sound(cfg, Play(cfg, w, more)) && Owned(Play(cfg, w, more), n)
    decreases DispatchRank(w.lessons[n].pc), ResolverRank(w, n)
  {
    more := [];
    if !Settled(w, n) {
      var e, w' := SettleStep(cfg, w, n);
      var rest := CanSettle(cfg, w', n);
      more := [e] + rest;
    }
  }

  // --- the exact condition, on calls ------------------------------------------------------

  /** However it goes on, lesson `n` comes to rest coherent, unless its item is spent on an unusable decision. */
  ghost predicate AlwaysCoherent(cfg: Config, w: World, n: nat) {
    forall more :: Undisturbed(more, n) && Settled(Play(cfg, w, more), n) && !UnusableAt(Play(cfg, w, more), n) ==>
      CoherentAt(Play(cfg, w, more), n)
  }

  lemma EnterCall(w: World, n: nat, d: Decision)
    requires n in w.inbox && w.inbox[n].Pending? && n < |w.lessons|
    ensures var r := |w.calls|;
            FlipStep(ResolveStep(w, n, d), r, n) ==
            w.(calls := w.calls + [Call(n, d, Resume)], inbox := w.inbox[n := Resolved(d, r)])
  {
    var calls := w.calls + [Call(n, d, Flip)];
    assert calls[|w.calls| := Call(n, d, Resume)] == w.calls + [Call(n, d, Resume)];
  }

  /** A race can be played to the end: damaged, at rest, and incoherent. */
  lemma RaceToHarm(cfg: Config, w: World, n: nat) returns (more: seq<Event>)
    requires Sound(cfg, w) && Racing(w, n)
    ensures Undisturbed(more, n) && Play(cfg, w, more).inbox == w.inbox
    ensures Settled(Play(cfg, w, more), n) && !CoherentAt(Play(cfg, w, more), n)
  {
    var a := StrandIt(cfg, w, n);
    var harmed := Play(cfg, w, a);
    OwnedAlways(cfg, harmed, n);
    var b := CanSettle(cfg, harmed, n);
    DamagedPlay(cfg, harmed, b, n);
    PlayAppend(cfg, w, a, b);
    SettledIff(cfg, Play(cfg, harmed, b), n);
    more := a + b;
  }

  /** A call that enters unready and flips at once is racing with the dispatch. */
  lemma UnreadyCanHarm(cfg: Config, w: World, n: nat, d: Decision) returns (more: seq<Event>)
    requires Sound(cfg, w) && n in w.inbox && w.inbox[n].Pending? && !Ready(w, n) && d.Approval?
    ensures var end := Play(cfg, ResolveStep(w, n, d), more);
            Undisturbed(more, n) && Settled(end, n) && !UnusableAt(end, n) && !CoherentAt(end, n)
  {
    ReadyMeansLeft(cfg, w, n);
    EnterCall(w, n, d);
    var entered := ResolveStep(w, n, d);
    var flip := StepCall(|w.calls|, false);
    var raced := FlipStep(entered, |w.calls|, n);
    assert Step(cfg, entered, flip) == raced;
    SoundStep(cfg, w, Resolve(n, d));
    SoundStep(cfg, entered, flip);
    var rest := RaceToHarm(cfg, raced, n);
    PlayFirst(cfg, entered, flip, rest);
    more := [flip] + rest;
  }

  /**
   * A caller that approves or rejects a pending item whose gate nobody wakes is safe, however
   * everything else is scheduled, if and only if both rows are parked and the suspended
   * result is recorded when it enters the call.
   */
  lemma ResolveIsSafeIff(cfg: Config, es: seq<Event>, n: nat, d: Decision)
    requires n in Run(cfg, es).inbox && Run(cfg, es).inbox[n].Pending? && d.Approval?
    requires NoWakeUnderWay(Run(cfg, es), n)
    ensures AlwaysCoherent(cfg, Step(cfg, Run(cfg, es), Resolve(n, d)), n) <==> Ready(Run(cfg, es), n)
  {
    var w := Run(cfg, es);
    QRun(cfg, es);
    if Ready(w, n) { ReadyIsSafe(cfg, w, n, d); } else { var more := UnreadyCanHarm(cfg, w, n, d); }
  }

  lemma ReadyIsSafe(cfg: Config, w: World, n: nat, d: Decision)
    requires Sound(cfg, w) && n in w.inbox && w.inbox[n].Pending? && Ready(w, n) && NoWakeUnderWay(w, n)
    ensures AlwaysCoherent(cfg, ResolveStep(w, n, d), n)
  {
    var entered := ResolveStep(w, n, d);
    ReadyMeansLeft(cfg, w, n);
    SafeStep(cfg, w, Resolve(n, d), n);
    SoundStep(cfg, w, Resolve(n, d));
    forall more | Undisturbed(more, n) && Settled(Play(cfg, entered, more), n) &&
                  !UnusableAt(Play(cfg, entered, more), n)
      ensures CoherentAt(Play(cfg, entered, more), n)
    {
      SafePlay(cfg, entered, more, n);
      SettledIff(cfg, Play(cfg, entered, more), n);
    }
  }

  // --- a discipline for all callers ---------------------------------------------------------

  ghost predicate NoWakes(es: seq<Event>) { forall i :: 0 <= i < |es| ==> !es[i].StartWake? }

  /** Every resolver is entered only when its item is ready. */
  ghost predicate Guarded(cfg: Config, es: seq<Event>) {
    es != [] ==>
      && Guarded(cfg, es[..|es| - 1])
      && (es[|es| - 1].Resolve? ==> Ready(Run(cfg, es[..|es| - 1]), es[|es| - 1].item))
  }

  /** Calls came after their dispatches, nobody woke anything, nothing is damaged. */
  ghost predicate Orderly(w: World) {
    CallsAfterDispatch(w) && w.wakes == [] && forall n: nat :: !Damaged(w, n)
  }

  lemma OrderlyNoMishap(cfg: Config, w: World, e: Event, n: nat)
    requires Sound(cfg, w) && Orderly(w)
    ensures !Mishap(w, e, n)
  {
    match e
    case StepCall(r, _) =>
      if r < |w.calls| && w.calls[r].item == n && n < |w.lessons| {
        assert CallInv(cfg, w, r) && LessonQ(w, n) && LessonInv(cfg, w, n);
      }
    case StepLesson(m, _) =>
      if m == n && n < |w.lessons| && Folding(w, n) { assert LessonInv(cfg, w, n); }
    case _ =>
  }

  /** Every call that is not refused is on a lesson whose dispatch has returned. */
  ghost predicate CallsAfterDispatch(w: World) {
    forall r :: 0 <= r < |w.calls| && !w.calls[r].pc.Refused? ==>
      w.calls[r].item < |w.lessons| && w.lessons[w.calls[r].item].pc.Left?
  }

  lemma CallsAfterCall(cfg: Config, w: World, q: nat, ok: bool)
    requires CallsAfterDispatch(w)
    ensures CallsAfterDispatch(CallStep(cfg, w, q, ok)) && CallStep(cfg, w, q, ok).wakes == w.wakes
  {
    var w' := CallStep(cfg, w, q, ok);
    CallStepShape(cfg, w, q, ok);
    CallsLeaveOthers(cfg, w, q, ok);
    forall r | 0 <= r < |w'.calls| && !w'.calls[r].pc.Refused?
      ensures w'.calls[r].item < |w'.lessons| && w'.lessons[w'.calls[r].item].pc.Left?
    {
      if w.calls[r].pc.Refused? { RefusedStays(cfg, w, q, ok, r); }
    }
  }

  lemma OrderlyCalls(cfg: Config, w: World, e: Event)
    requires Sound(cfg, w) && Orderly(w) && !e.StartWake?
    requires e.Resolve? ==> Ready(w, e.item)
    ensures Step(cfg, w, e).wakes == [] && CallsAfterDispatch(Step(cfg, w, e))
  {
    match e
    case StepCall(q, ok) => CallsAfterCall(cfg, w, q, ok);
    case StepLesson(m, ok) => LessonStepShape(cfg, w, m, ok);
    case Resolve(item, _) => if item < |w.lessons| { assert LessonQ(w, item) && LessonInv(cfg, w, item); }
    case _ =>
  }

  lemma RefusedStays(cfg: Config, w: World, q: nat, ok: bool, r: nat)
    requires r < |w.calls| && w.calls[r].pc.Refused?
    ensures r < |CallStep(cfg, w, q, ok).calls| && CallStep(cfg, w, q, ok).calls[r] == w.calls[r]
  {
    if q != r { CallsLeaveOthers(cfg, w, q, ok); }
  }

  lemma {:induction false} GuardedRun(cfg: Config, es: seq<Event>)
    requires NoWakes(es) && Guarded(cfg, es)
    ensures Orderly(Run(cfg, es))
  {
    if es != [] {
      var before, e := es[..|es| - 1], es[|es| - 1];
      GuardedRun(cfg, before);
      QRun(cfg, before);
      var w := Run(cfg, before);
      OrderlyCalls(cfg, w, e);
      forall n: nat ensures !Damaged(Run(cfg, es), n) {
        OrderlyNoMishap(cfg, w, e, n);
        DamageIsMishap(cfg, w, e, n);
      }
    }
  }

  /** A decided lesson, once all is quiet and nothing is damaged. */
  lemma ResolvedOutcome(cfg: Config, es: seq<Event>, n: nat)
    requires Quiet(Run(cfg, es)) && !Damaged(Run(cfg, es), n)
    requires n in Run(cfg, es).inbox && Run(cfg, es).inbox[n].Resolved? && Run(cfg, es).inbox[n].decision.Approval?
    ensures var w := Run(cfg, es);
            && n < |w.lessons|
            && (if w.inbox[n].decision == Approval(true)
                then multiset(w.sent)[Effect(n, 0)] == 1 && w.lessons[n].status != InFlight
                else StepsOf(w.sent, n) == [] && w.lessons[n].status == Halted)
  {
    var w := Run(cfg, es);
    QRun(cfg, es);
    assert LessonInv(cfg, w, n) && LessonQ(w, n);
    assert At(w, n, Over);
    CountSteps(w.sent, n, 0);
    UpToOnce(w.lessons[n].started, 0);
  }

  /**
   * If every caller waits until the item is ready and approves or rejects, every quiet state
   * is coherent; an approved lesson has crossed exactly once and its run is over, a rejected
   * one has ended as failed, untouched.
   */
  lemma GuardedIsCoherent(cfg: Config, es: seq<Event>)
    requires NoWakes(es) && Guarded(cfg, es) && Quiet(Run(cfg, es))
    requires forall i :: 0 <= i < |es| && es[i].Resolve? ==> es[i].decision.Approval?
    ensures var w := Run(cfg, es);
            && Coherent(w)
            && (forall n :: n in w.inbox && w.inbox[n].Resolved? ==>
                  n < |w.lessons| &&
                  if w.inbox[n].decision == Approval(true)
                  then multiset(w.sent)[Effect(n, 0)] == 1 && w.lessons[n].status != InFlight
                  else StepsOf(w.sent, n) == [] && w.lessons[n].status == Halted)
  {
    var w := Run(cfg, es);
    QRun(cfg, es);
    GuardedRun(cfg, es);
    forall n | n in w.inbox && w.inbox[n].Resolved? ensures w.inbox[n].decision.Approval? {
      assert LessonInv(cfg, w, n);
      CallsWereMade(cfg, es, w.inbox[n].call);
    }
    forall n: nat ensures CoherentAt(w, n) {
      if n < |w.lessons| { SettledAtRest(cfg, w, n); } else { assert n !in w.inbox; }
    }
    forall n | n in w.inbox && w.inbox[n].Resolved?
      ensures n < |w.lessons|
      ensures if w.inbox[n].decision == Approval(true)
              then multiset(w.sent)[Effect(n, 0)] == 1 && w.lessons[n].status != InFlight
              else StepsOf(w.sent, n) == [] && w.lessons[n].status == Halted
    {
      ResolvedOutcome(cfg, es, n);
    }
  }

  lemma SettledAtRest(cfg: Config, w: World, n: nat)
    requires Sound(cfg, w) && Quiet(w) && n < |w.lessons| && !Damaged(w, n) && !UnusableAt(w, n)
    ensures CoherentAt(w, n)
  {
    assert LessonInv(cfg, w, n);
    SettledIff(cfg, w, n);
  }
}
