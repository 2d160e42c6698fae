/** The hub with its gate, inbox and parked rows, updated in place, one method per stretch between awaits. */
module FederationHub {
  import opened Options
  import opened Text
  import opened Federation

  class ChildHub {
    const cfg: Config
    var lessons: seq<Lesson>
    var inbox: map<nat, Item>
    var parked: map<TaskId, Row>
    var results: map<nat, Result>
    var calls: seq<Call>
    var wakes: seq<Wake>
    var sent: seq<Effect>
    var admitted: seq<Effect>

    ghost function View(): World
      reads this
    {
      World(lessons, inbox, parked, results, calls, wakes, sent, admitted)
    }

    constructor (cfg: Config)
      ensures this.cfg == cfg && View() == Init
    {
      this.cfg := cfg;
      lessons, calls, wakes, sent, admitted := [], [], [], [], [];
      inbox, parked, results := map[], map[], map[];
    }

    /** `inner.onTask`, or the runner's next dispatch: the step is on its way. */
    method SendStep(n: nat, k: nat)
      requires n < |lessons|
      modifies this
      ensures View() == Send(old(View()), n, k)
    {
      sent := sent + [Effect(n, k)];
      lessons := lessons[n := lessons[n].(started := k + 1)];
    }

    /** The peer's inbound gate counts the task, or refuses it once the budget is spent. */
    method Receive(n: nat, k: nat, answer: bool) returns (ok: bool)
      modifies this`admitted
      ensures ok == Admitted(cfg, old(View()), k, answer)
      ensures View() == Admit(cfg, old(View()), n, k)
    {
      ok := answer;
      if k == 0 || (k <= |cfg.tail| && cfg.tail[k - 1].Remote?) {
        if |admitted| >= cfg.budget {
          ok := false;
        } else {
          admitted := admitted + [Effect(n, k)];
        }
      }
    }

    /** Fire the workflow: its first step reaches the gate's `onTask`. */
    method Dispatch(topic: string) returns (n: nat)
      modifies this
      ensures n == |old(lessons)|
      ensures View() == Step(cfg, old(View()), Ask(topic))
    {
      n := |lessons|;
      if Trim(topic) in cfg.whitelist {
        lessons := lessons + [Lesson(true, InFlight, 0, Fresh(0))];
        SendStep(n, 0);
      } else {
        lessons := lessons + [Lesson(false, InFlight, 0, WriteItem)];
      }
    }

    /** The dispatch of lesson `n` goes on from where it awaited. */
    method ContinueDispatch(n: nat, answer: bool)
      requires n < |lessons|
      modifies this
      ensures View() == Step(cfg, old(View()), StepLesson(n, answer))
    {
      match lessons[n].pc {
        case WriteItem =>
          inbox := inbox[n := Pending];
          lessons := lessons[n := lessons[n].(pc := ParkGate)];
        case ParkGate =>
          parked := parked[GateTask(n) := GateState(None)];
          lessons := lessons[n := lessons[n].(pc := RecordGate)];
        case RecordGate =>
          results := results[n := Suspended];
          lessons := lessons[n := lessons[n].(pc := ParkRun)];
        case ParkRun =>
          parked := parked[RunTask(n) := RunState];
          lessons := lessons[n := lessons[n].(pc := Left)];
        case Fresh(k) =>
          var ok := Receive(n, k, answer);
          if !ok {
            lessons := lessons[n := lessons[n].(status := Halted, pc := Left)];
          } else if k < |cfg.tail| {
            SendStep(n, k + 1);
            lessons := lessons[n := lessons[n].(status := InFlight, pc := Fresh(k + 1))];
          } else {
            lessons := lessons[n := lessons[n].(status := Done, pc := Left)];
          }
        case Left =>
      }
    }

    /** `resolveApproval` is called and has read the item. */
    method StartResolve(item: nat, decision: Decision) returns (r: nat)
      modifies this`calls
      ensures r == |old(calls)|
      ensures View() == Step(cfg, old(View()), Resolve(item, decision))
    {
      r := |calls|;
      calls := calls + [Call(item, decision, if item in inbox then Flip else Refused)];
    }

    /** The run is over under resolver `r`: fix its status and drop its row. */
    method FinishRun(r: nat, n: nat, status: Status)
      requires r < |calls| && n < |lessons|
      modifies this
      ensures View() == EndRun(old(View()), r, n, status)
    {
      lessons := lessons[n := lessons[n].(status := status, pc := lessons[n].pc)];
      calls := calls[r := calls[r].(pc := Over)];
      parked := parked - {RunTask(n)};
    }

    /** Step `k` of the run succeeded: dispatch the next, or finish. */
    method Proceed(r: nat, n: nat, k: nat)
      requires r < |calls| && n < |lessons|
      modifies this
      ensures View() == NextStep(cfg, old(View()), r, n, k)
    {
      if k < |cfg.tail| {
        SendStep(n, k + 1);
        calls := calls[r := calls[r].(pc := Waiting(k + 1))];
      } else {
        FinishRun(r, n, Done);
      }
    }

    /** Resolver `r` goes on: flip, resume the gate, drop its row, resume the run, walk its steps. */
    method ContinueResolve(r: nat, answer: bool)
      requires r < |calls| && calls[r].item < |lessons|
      modifies this
      ensures View() == Step(cfg, old(View()), StepCall(r, answer))
    {
      var n := calls[r].item;
      var decision := calls[r].decision;
      match calls[r].pc {
        case Flip =>
          if n in inbox && inbox[n].Pending? {
            inbox := inbox[n := Resolved(decision, r)];
            calls := calls[r := calls[r].(pc := Resume)];
          } else {
            calls := calls[r := calls[r].(pc := Refused)];
          }
        case Resume =>
          if GateTask(n) !in parked {
            calls := calls[r := calls[r].(pc := Stranded(true))];
          } else {
            OnResume(r, n, decision);
          }
        case Repark =>
          parked := parked[GateTask(n) := GateState(Some(decision))];
          calls := calls[r := calls[r].(pc := Record(Suspended))];
        case Record(result) =>
          results := results[n := result];
          calls := calls[r := calls[r].(pc := Drop)];
        case Waiting(k) =>
          var ok := Receive(n, k, answer);
          if k == 0 {
            calls := calls[r := calls[r].(pc := Record(if ok then Ok else Failed))];
          } else if !ok {
            FinishRun(r, n, Halted);
          } else {
            Proceed(r, n, k);
          }
        case Drop =>
          parked := parked - {GateTask(n)};
          if RunTask(n) !in parked {
            calls := calls[r := calls[r].(pc := Stranded(false))];
          } else {
            ResumeWorkflow(r, n);
          }
        case _ =>
      }
    }

    /** The gate's `onResume` under a resolver: forward, fail closed, or set out to park again. */
    method OnResume(r: nat, n: nat, decision: Decision)
      requires r < |calls| && n < |lessons| && calls[r].decision == decision && GateTask(n) in parked
      modifies this
      ensures View() == ResumeStep(old(View()), r, n)
    {
      if decision == Approval(true) {
        SendStep(n, 0);
        calls := calls[r := calls[r].(pc := Waiting(0))];
      } else if decision == Approval(false) {
        calls := calls[r := calls[r].(pc := Record(Failed))];
      } else {
        calls := calls[r := calls[r].(pc := Repark)];
      }
    }

    /** `resumeRun`: fold the gate's latest result into the run's suspended first step. */
    method ResumeWorkflow(r: nat, n: nat)
      requires r < |calls| && n < |lessons|
      modifies this
      ensures View() == ResumeRun(cfg, old(View()), r, n)
    {
      if lessons[n].status != InFlight {
        parked := parked - {RunTask(n)};
        calls := calls[r := calls[r].(pc := Over)];
      } else if n !in results || results[n].Suspended? {
        parked := parked[RunTask(n) := RunState];
        calls := calls[r := calls[r].(pc := Over)];
      } else if results[n].Failed? {
        FinishRun(r, n, Halted);
      } else {
        Proceed(r, n, 0);
      }
    }

    /** A wake without a decision: the gate sees the state its own row carries. */
    method WakeGate(n: nat)
      requires n < |lessons| && GateTask(n) in parked && parked[GateTask(n)].GateState?
      modifies this
      ensures View() == Step(cfg, old(View()), StartWake(n))
    {
      var answer := parked[GateTask(n)].answer;
      if answer == Some(Approval(true)) {
        SendStep(n, 0);
        wakes := wakes + [Wake(n, WakeWaiting)];
      } else if answer == Some(Approval(false)) {
        wakes := wakes + [Wake(n, WakeRecord(Failed))];
      } else {
        wakes := wakes + [Wake(n, WakeRepark(answer))];
      }
    }

    method FinishWake(i: nat, answer: bool)
      requires i < |wakes|
      modifies this
      ensures View() == Step(cfg, old(View()), StepWake(i, answer))
    {
      var n := wakes[i].item;
      match wakes[i].pc {
        case WakeRepark(carried) =>
          parked := parked[GateTask(n) := GateState(carried)];
          wakes := wakes[i := Wake(n, WakeRecord(Suspended))];
        case WakeWaiting =>
          var ok := Receive(n, 0, answer);
          wakes := wakes[i := Wake(n, WakeRecord(if ok then Ok else Failed))];
        case WakeRecord(result) =>
          results := results[n := result];
          wakes := wakes[i := Wake(n, WakeOver)];
        case WakeOver =>
      }
    }
  }
}
