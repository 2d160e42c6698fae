/** The command line itself: its variables, its drain loop and its three handlers. */
module CliApp {
  import opened Options
  import opened Routing
  import opened Policy
  import opened PolicyFile
  import opened Cli

  /** What the loop works on: the policy in memory, its file, the registered router, the goals dispatched. */
  class Desk {
    const sh: Shell
    var policy: Policy
    var file: File
    var router: Policy
    var sent: seq<Sent>

    ghost function Now(): Session
      reads this
    {
      Session(policy, file, router, sent)
    }

    constructor (sh: Shell, text: Json -> string, f: File)
      ensures this.sh == sh && Now() == Open(text, f)
    {
      this.sh := sh;
      policy, router := Load(text, f), Load(text, f);
      file, sent := f, [];
    }

    /** What a line does: an understood edit is stored and the router registered anew, a goal is dispatched. */
    method HandleLine(line: string)
      modifies this
      ensures Now() == Handle(sh, old(Now()), line)
    {
      match sh.parse(line) {
        case EditPolicy(instruction) =>
          var edit := ApplyPolicyEdit(sh.lex, policy, instruction);
          if edit.changes != [] {
            policy := edit.policy;
            file := Document(Save(policy));
            router := policy;
          }
        case Goal(text) =>
          sent := sent + [Sent(text, router)];
        case _ =>
      }
    }
  }

  class App {
    const sh: Shell
    const desk: Desk
    var queue: seq<string>
    var draining: bool
    var inputEnded: bool
    var quitting: bool
    var shuttingDown: bool
    var closed: bool
    var inFlight: nat
    var stops: nat
    var exited: Option<nat>
    ghost var all: seq<string>
    ghost var taken: nat
    ghost var signalled: bool

    /** A closed input has ended, and both objects read the same language. */
    ghost predicate Sound()
      reads this
    {
      desk.sh == sh && (closed ==> inputEnded)
    }

    /** Between two events: the loop is suspended exactly while its one dispatch is in flight. */
    ghost predicate Valid()
      reads this
    {
      Sound() && (draining <==> inFlight == 1) && inFlight <= 1
    }

    ghost function View(): World
      reads this, desk
    {
      World(desk.Now(), all, taken, queue, draining, inputEnded, quitting, shuttingDown,
            closed, signalled, inFlight, stops, exited)
    }

    constructor (sh: Shell, text: Json -> string, f: File)
      ensures Valid() && this.sh == sh && View() == Start(Open(text, f))
    {
      this.sh := sh;
      desk := new Desk(sh, text, f);
      queue := [];
      draining, inputEnded, quitting, shuttingDown, closed := false, false, false, false, false;
      inFlight, stops, exited := 0, 0, None;
      all, taken, signalled := [], 0, false;
    }

    /** `rl.on('line')`. */
    method OnLine(line: string)
      requires exited.None? && Valid()
      modifies this, desk
      ensures Valid() && View() == Step(sh, old(View()), Line(line))
    {
      all := all + [line];
      queue := queue + [line];
      DrainQueue();
    }

    /** `rl.on('SIGINT')`. */
    method OnSigint()
      requires exited.None? && Valid()
      modifies this, desk
      ensures Valid() && View() == Step(sh, old(View()), Sigint)
    {
      if quitting {
        exited := Some(130);
        return;
      }
      quitting, signalled := true, true;
      DrainQueue();
    }

    /** `rl.on('close')`: the end of the input, or the effect of `rl.close()`. */
    method OnClose()
      requires exited.None? && Valid()
      modifies this, desk
      ensures Valid() && View() == Step(sh, old(View()), Close)
      decreases if shuttingDown then 0 else 1, 3, 0
    {
      inputEnded, closed := true, true;
      DrainQueue();
    }

    /** The awaited dispatch is over, one way or the other: the loop goes on behind it. */
    method OnSettled()
      requires exited.None? && Valid() && inFlight > 0
      modifies this, desk
      ensures Valid() && View() == Step(sh, old(View()), Settled)
    {
      inFlight := inFlight - 1;
      Loop();
    }

    /** `hub.stop()` is over. */
    method OnStopped()
      requires exited.None? && Valid() && stops > 0
      modifies this, desk
      ensures Valid() && View() == Step(sh, old(View()), Stopped)
    {
      exited := Some(0);
    }

    /** `shutdown`: closing the input fires the close handler at once, which finds nothing left to do. */
    method ShutDown()
      requires exited.None? && Valid() && !draining && (quitting || queue == [])
      modifies this, desk
      ensures Valid() && View() == Shutdown(old(View()))
      decreases if shuttingDown then 0 else 1, 0, 0
    {
      if shuttingDown { return; }
      shuttingDown := true;
      if !closed {
        OnClose();
      }
      stops := stops + 1;
    }

    /** `drain`: a drain already in flight will see the new items. */
    method DrainQueue()
      requires exited.None? && Valid()
      modifies this, desk
      ensures Valid() && View() == Drain(sh, old(View()))
      decreases if shuttingDown then 0 else 1, 2, 0
    {
      if draining { return; }
      draining := true;
      Loop();
    }

    /** Shift a line and handle it; the result says whether a dispatch has to be awaited. */
    method TakeLine() returns (awaits: bool)
      requires queue != [] && desk.sh == sh
      modifies this, desk
      ensures awaits == sh.parse(old(queue)[0]).Goal?
      ensures View() == Take(sh, old(View()))
    {
      var line := queue[0];
      var command := sh.parse(line);
      awaits := command.Goal?;
      desk.HandleLine(line);
      queue, taken := queue[1..], taken + 1;
      quitting, inFlight := quitting || command.Leave?, inFlight + if awaits then 1 else 0;
    }

    /** Take lines off the queue until a dispatch has to be awaited, or the queue is empty, or it is time to go. */
    method Loop()
      requires exited.None? && Sound() && draining && inFlight == 0
      modifies this, desk
      ensures Valid() && View() == DrainLoop(sh, old(View()))
      decreases if shuttingDown then 0 else 1, 1, 0
    {
      while queue != [] && !quitting
        invariant DrainLoop(sh, View()) == DrainLoop(sh, old(View()))
        invariant exited.None? && Sound() && draining && inFlight == 0 && shuttingDown == old(shuttingDown)
        decreases |queue|
      {
        var awaits := TakeLine();
        if awaits { return; }
      }
      draining := false;
      if quitting || inputEnded {
        ShutDown();
      }
    }
  }
}
