/**
 * The approval-gated crossing between two hubs, as a state machine whose steps are the
 * stretches of code between awaits.  Stretches are merged only where the later one touches
 * nothing that another activity reads or writes (a run's own row and its own next dispatch).
 *
 * Lesson `n` is one workflow run (task `RunTask(n)`) whose first step is dispatched to the
 * outbound gate (task `GateTask(n)`).  Three kinds of activity interleave: the fresh
 * dispatch of a lesson, calls of `resolveApproval`, and answerless wakes of a parked gate.
 */
module Federation {
  import opened Options
  import opened Text

  /** `approval` decisions carry a boolean; `choice` and `edit` decisions do not. */
  datatype Decision = Approval(approved: bool) | OtherKind

  /** An inbox item.  `call` names the `resolveApproval` call whose flip was accepted. */
  datatype Item = Pending | Resolved(decision: Decision, call: nat)

  datatype TaskId = GateTask(lesson: nat) | RunTask(lesson: nat)

  /** What a parked row carries: the gate's `state.answer`, or the run's own state. */
  datatype Row = GateState(answer: Option<Decision>) | RunState

  datatype Result = Suspended | Ok | Failed

  datatype Status = InFlight | Done | Halted

  /** Where the fresh dispatch of a lesson is. */
  datatype LessonPc = WriteItem | ParkGate | RecordGate | ParkRun | Fresh(step: nat) | Left

  /** A lesson: let through by the whitelist or not, its run's status, steps begun. */
  datatype Lesson = Lesson(clear: bool, status: Status, started: nat, pc: LessonPc)

  /** Where a `resolveApproval` call is.  `Stranded` calls threw after their flip. */
  datatype CallPc =
    | Flip | Resume | Repark | Waiting(step: nat) | Record(result: Result) | Drop
    | Over | Refused | Stranded(atGate: bool)
  datatype Call = Call(item: nat, decision: Decision, pc: CallPc)

  datatype WakePc = WakeRepark(answer: Option<Decision>) | WakeWaiting | WakeRecord(result: Result) | WakeOver
  datatype Wake = Wake(item: nat, pc: WakePc)

  /** Step 0 is the gated crossing; step k >= 1 is the k-th step after it. */
  datatype Effect = Effect(lesson: nat, step: nat)

  datatype StepKind = Local | Remote

  /** The whitelist, the steps behind the gated one, and the receiving hub's quota budget. */
  datatype Config = Config(whitelist: seq<string>, tail: seq<StepKind>, budget: nat)

  datatype World = World(
    lessons: seq<Lesson>,
    inbox: map<nat, Item>,
    parked: map<TaskId, Row>,
    results: map<nat, Result>,
    calls: seq<Call>,
    wakes: seq<Wake>,
    sent: seq<Effect>,
    admitted: seq<Effect>)

  datatype Event =
    | Ask(topic: string)
    | Resolve(item: nat, decision: Decision)
    | StartWake(item: nat)
    | StepLesson(lesson: nat, ok: bool)
    | StepCall(call: nat, ok: bool)
    | StepWake(wake: nat, ok: bool)

  const Init := World([], map[], map[], map[], [], [], [], [])

  // --- the pieces a step is made of ---------------------------------------------------

  /** Dispatch step `k` of lesson `n`: `inner.onTask` for 0, the runner's next dispatch otherwise. */
  function Send(w: World, n: nat, k: nat): World
    requires n < |w.lessons|
  {
    w.(sent := w.sent + [Effect(n, k)],
       lessons := w.lessons[n := w.lessons[n].(started := k + 1)])
  }

  predicate Crosses(cfg: Config, k: nat) {
    k == 0 || (k <= |cfg.tail| && cfg.tail[k - 1].Remote?)
  }

  /** The receiving hub's inbound gate: a crossing task is refused once the budget is used up. */
  function Admitted(cfg: Config, w: World, k: nat, ok: bool): bool {
    ok && (Crosses(cfg, k) ==> |w.admitted| < cfg.budget)
  }

  function Admit(cfg: Config, w: World, n: nat, k: nat): World {
    if Crosses(cfg, k) && |w.admitted| < cfg.budget
    then w.(admitted := w.admitted + [Effect(n, k)]) else w
  }

  function SetLesson(w: World, n: nat, status: Status, pc: LessonPc): World
    requires n < |w.lessons|
  {
    w.(lessons := w.lessons[n := w.lessons[n].(status := status, pc := pc)])
  }

  function SetCall(w: World, r: nat, pc: CallPc): World
    requires r < |w.calls|
  {
    w.(calls := w.calls[r := w.calls[r].(pc := pc)])
  }

  /** The run reached its end under a resolver: its status is final and its row is dropped. */
  function EndRun(w: World, r: nat, n: nat, status: Status): World
    requires r < |w.calls| && n < |w.lessons|
  {
    SetCall(SetLesson(w, n, status, w.lessons[n].pc), r, Over).(parked := w.parked - {RunTask(n)})
  }

  // --- one step ------------------------------------------------------------------------

  /** A lesson is started; a clear one crosses at once, any other is parked step by step. */
  function AskStep(w: World, clear: bool): World {
    var n := |w.lessons|;
    if clear then
      Send(w.(lessons := w.lessons + [Lesson(true, InFlight, 0, Fresh(0))]), n, 0)
    else
      w.(lessons := w.lessons + [Lesson(false, InFlight, 0, WriteItem)])
  }

  /** The answer to a step of a fresh dispatch arrives. */
  function FreshStep(cfg: Config, w: World, n: nat, k: nat, ok: bool): World
    requires n < |w.lessons|
  {
    var w' := Admit(cfg, w, n, k);
    if !Admitted(cfg, w, k, ok) then SetLesson(w', n, Halted, Left)
    else if k < |cfg.tail| then SetLesson(Send(w', n, k + 1), n, InFlight, Fresh(k + 1))
    else SetLesson(w', n, Done, Left)
  }

  function LessonStep(cfg: Config, w: World, n: nat, ok: bool): World {
    if n >= |w.lessons| then w else
    var status := w.lessons[n].status;
    match w.lessons[n].pc
    case WriteItem => SetLesson(w, n, status, ParkGate).(inbox := w.inbox[n := Pending])
    case ParkGate => SetLesson(w, n, status, RecordGate).(parked := w.parked[GateTask(n) := GateState(None)])
    case RecordGate => SetLesson(w, n, status, ParkRun).(results := w.results[n := Suspended])
    case ParkRun => SetLesson(w, n, status, Left).(parked := w.parked[RunTask(n) := RunState])
    case Fresh(k) => FreshStep(cfg, w, n, k, ok)
    case Left => w
  }

  function ResolveStep(w: World, item: nat, decision: Decision): World {
    w.(calls := w.calls + [Call(item, decision, if item in w.inbox then Flip else Refused)])
  }

  /** `markResolved`: only a pending item is flipped; the read, check and write are one step. */
  function FlipStep(w: World, r: nat, n: nat): World
    requires r < |w.calls|
  {
    if n in w.inbox && w.inbox[n].Pending?
    then SetCall(w, r, Resume).(inbox := w.inbox[n := Resolved(w.calls[r].decision, r)])
    else SetCall(w, r, Refused)
  }

  /** Look up the gate's row and hand the decision to `onResume`. */
  function ResumeStep(w: World, r: nat, n: nat): World
    requires r < |w.calls| && n < |w.lessons|
  {
    var d := w.calls[r].decision;
    if GateTask(n) !in w.parked then SetCall(w, r, Stranded(true))
    else if d == Approval(true) then SetCall(Send(w, n, 0), r, Waiting(0))
    else if d == Approval(false) then SetCall(w, r, Record(Failed))
    else SetCall(w, r, Repark)
  }

  /** The gate parks again with the decision it could not use. */
  function ReparkStep(w: World, r: nat, n: nat): World
    requires r < |w.calls|
  {
    SetCall(w, r, Record(Suspended)).(parked := w.parked[GateTask(n) := GateState(Some(w.calls[r].decision))])
  }

  /** The resumed gate's result becomes the latest result of its task. */
  function RecordStep(w: World, r: nat, n: nat, result: Result): World
    requires r < |w.calls|
  {
    SetCall(w, r, Drop).(results := w.results[n := result])
  }

  /** The answer to a step sent by a resolver arrives. */
  function WaitStep(cfg: Config, w: World, r: nat, n: nat, k: nat, ok: bool): World
    requires r < |w.calls| && n < |w.lessons|
  {
    var w' := Admit(cfg, w, n, k);
    var passed := Admitted(cfg, w, k, ok);
    if k == 0 then SetCall(w', r, Record(if passed then Ok else Failed))
    else if !passed then EndRun(w', r, n, Halted)
    else NextStep(cfg, w', r, n, k)
  }

  /** Drop the gate's row, then resume the run. */
  function DropStep(cfg: Config, w: World, r: nat, n: nat): World
    requires r < |w.calls| && n < |w.lessons|
  {
    var w' := w.(parked := w.parked - {GateTask(n)});
    if RunTask(n) !in w'.parked then SetCall(w', r, Stranded(false)) else ResumeRun(cfg, w', r, n)
  }

  function CallStep(cfg: Config, w: World, r: nat, ok: bool): World {
    if r >= |w.calls| || w.calls[r].item >= |w.lessons| then w else
    var n := w.calls[r].item;
    match w.calls[r].pc
    case Flip => FlipStep(w, r, n)
    case Resume => ResumeStep(w, r, n)
    case Repark => ReparkStep(w, r, n)
    case Waiting(k) => WaitStep(cfg, w, r, n, k, ok)
    case Record(result) => RecordStep(w, r, n, result)
    case Drop => DropStep(cfg, w, r, n)
    case Over => w
    case Refused => w
    case Stranded(_) => w
  }

  /** Step `k` succeeded under a resolver: dispatch the next one, or finish the run. */
  function NextStep(cfg: Config, w: World, r: nat, n: nat, k: nat): World
    requires r < |w.calls| && n < |w.lessons|
  {
    if k < |cfg.tail| then SetCall(Send(w, n, k + 1), r, Waiting(k + 1))
    else EndRun(w, r, n, Done)
  }

  /** The runner folds the gate's latest result into its suspended first step. */
  function ResumeRun(cfg: Config, w: World, r: nat, n: nat): World
    requires r < |w.calls| && n < |w.lessons|
  {
    if w.lessons[n].status != InFlight then
      SetCall(w, r, Over).(parked := w.parked - {RunTask(n)})
    else if n !in w.results || w.results[n].Suspended? then
      SetCall(w, r, Over).(parked := w.parked[RunTask(n) := RunState])
    else if w.results[n].Failed? then EndRun(w, r, n, Halted)
    else NextStep(cfg, w, r, n, 0)
  }

  /** An answerless wake hands the gate the state its row carries. */
  function StartWakeStep(w: World, n: nat): World {
    if n >= |w.lessons| || GateTask(n) !in w.parked || w.parked[GateTask(n)].RunState? then w else
    var answer := w.parked[GateTask(n)].answer;
    if answer == Some(Approval(true)) then Send(w, n, 0).(wakes := w.wakes + [Wake(n, WakeWaiting)])
    else if answer == Some(Approval(false)) then w.(wakes := w.wakes + [Wake(n, WakeRecord(Failed))])
    else w.(wakes := w.wakes + [Wake(n, WakeRepark(answer))])
  }

  function WakeStep(cfg: Config, w: World, i: nat, ok: bool): World {
    if i >= |w.wakes| then w else
    var n := w.wakes[i].item;
    match w.wakes[i].pc
    case WakeRepark(answer) =>
      w.(parked := w.parked[GateTask(n) := GateState(answer)], wakes := w.wakes[i := Wake(n, WakeRecord(Suspended))])
    case WakeWaiting =>
      var w' := Admit(cfg, w, n, 0);
      w'.(wakes := w'.wakes[i := Wake(n, WakeRecord(if Admitted(cfg, w, 0, ok) then Ok else Failed))])
    case WakeRecord(result) =>
      w.(results := w.results[n := result], wakes := w.wakes[i := Wake(n, WakeOver)])
    case WakeOver => w
  }

  function Step(cfg: Config, w: World, e: Event): World {
    match e
    case Ask(topic) => AskStep(w, Trim(topic) in cfg.whitelist)
    case Resolve(item, decision) => ResolveStep(w, item, decision)
    case StartWake(item) => StartWakeStep(w, item)
    case StepLesson(n, ok) => LessonStep(cfg, w, n, ok)
    case StepCall(r, ok) => CallStep(cfg, w, r, ok)
    case StepWake(i, ok) => WakeStep(cfg, w, i, ok)
  }

  /** The state after any sequence of events; an event that is not enabled changes nothing. */
  function Run(cfg: Config, es: seq<Event>): World {
    if es == [] then Init else Step(cfg, Run(cfg, es[..|es| - 1]), es[|es| - 1])
  }
}
