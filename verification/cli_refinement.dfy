/** The event-driven command line behaves as the sequential interpreter of its input lines. */
module CliRefinement {
  import opened Options
  import opened Text
  import opened Routing
  import opened Policy
  import opened PolicyFile
  import opened Cli

  /** The session is the interpreter's after the lines taken so far; the rest waits in order. */
  ghost predicate Follows(sh: Shell, s: Session, w: World) {
    && w.taken <= |w.all| && w.queue == w.all[w.taken..]
    && w.session == Interpret(sh, s, w.all[..w.taken])
    && (w.quitting <==> w.signalled || Quits(sh, w.all[..w.taken]))
  }

  /** Flags between events. */
  ghost predicate Resting(w: World) {
    && (w.draining <==> w.inFlight == 1) && w.inFlight <= 1
    && (!w.draining ==> w.queue == [] || w.quitting)
    && (!w.draining && (w.quitting || w.inputEnded) ==> w.shuttingDown)
    && (w.shuttingDown ==> w.inputEnded)
    && w.stops == (if w.shuttingDown then 1 else 0)
    && (w.exited.Some? ==> w.exited == Some(0) || w.exited == Some(130))
    && (w.exited == Some(0) ==> w.shuttingDown)
    && (w.exited == Some(130) ==> w.quitting)
  }

  /** Flags inside the loop, where nothing is awaited. */
  ghost predicate Looping(w: World) {
    && w.draining && w.inFlight == 0
    && (w.shuttingDown ==> w.inputEnded)
    && w.stops == (if w.shuttingDown then 1 else 0)
    && w.exited.None?
  }

  lemma TakeOne(sh: Shell, s: Session, w: World)
    requires Follows(sh, s, w) && w.queue != [] && !w.quitting
    ensures Follows(sh, s, Take(sh, w))
  {
    var t := w.all[..w.taken + 1];
    assert t[..w.taken] == w.all[..w.taken];
    assert t[w.taken] == w.queue[0];
    assert Take(sh, w).session == Handle(sh, w.session, w.queue[0]);
  }

  lemma {:induction false} LoopFollows(sh: Shell, s: Session, w: World)
    requires Follows(sh, s, w) && Looping(w)
    ensures Follows(sh, s, DrainLoop(sh, w)) && Resting(DrainLoop(sh, w))
    ensures DrainLoop(sh, w).all == w.all
    decreases |w.queue|
  {
    if w.queue != [] && !w.quitting {
      TakeOne(sh, s, w);
      if !sh.parse(w.queue[0]).Goal? { LoopFollows(sh, s, Take(sh, w)); }
    }
  }

  lemma LineFollows(sh: Shell, s: Session, w: World, text: string)
    requires Follows(sh, s, w)
    ensures Follows(sh, s, w.(all := w.all + [text], queue := w.queue + [text]))
  {
    var all := w.all + [text];
    assert all[..w.taken] == w.all[..w.taken];
    assert all[w.taken..] == w.all[w.taken..] + [text];
  }

  lemma DrainFollows(sh: Shell, s: Session, w: World)
    requires Follows(sh, s, w) && !w.draining && w.inFlight == 0 && w.exited.None?
    requires w.shuttingDown ==> w.inputEnded
    requires w.stops == if w.shuttingDown then 1 else 0
    ensures Follows(sh, s, Drain(sh, w)) && Resting(Drain(sh, w))
  {
    LoopFollows(sh, s, w.(draining := true));
  }

  lemma StepFollows(sh: Shell, s: Session, w: World, e: Event)
    requires Follows(sh, s, w) && Resting(w)
    ensures Follows(sh, s, Step(sh, w, e)) && Resting(Step(sh, w, e))
  {
    if w.exited.None? {
      match e
      case Line(text) =>
        LineFollows(sh, s, w, text);
        if !w.draining { DrainFollows(sh, s, w.(all := w.all + [text], queue := w.queue + [text])); }
      case Sigint =>
        if !w.quitting && !w.draining { DrainFollows(sh, s, w.(quitting := true, signalled := true)); }
      case Close =>
        if !w.draining { DrainFollows(sh, s, w.(inputEnded := true, closed := true)); }
      case Settled =>
        if w.inFlight > 0 { LoopFollows(sh, s, w.(inFlight := w.inFlight - 1)); }
      case Stopped =>
    }
  }

  /** At any moment of any run: at most one dispatch in flight, one shutdown, the interpreter's session so far. */
  lemma {:induction false} RunFollows(sh: Shell, s: Session, es: seq<Event>)
    ensures Follows(sh, s, Run(sh, s, es)) && Resting(Run(sh, s, es))
  {
    if es != [] {
      RunFollows(sh, s, es[..|es| - 1]);
      StepFollows(sh, s, Run(sh, s, es[..|es| - 1]), es[|es| - 1]);
    }
  }

  // --- what the interpreter does --------------------------------------------------------

  /** The goals among the lines before the first `:quit`, in order. */
  ghost function Goals(sh: Shell, lines: seq<string>): seq<string> {
    if lines == [] then []
    else
      var before := lines[..|lines| - 1];
      var last := sh.parse(lines[|lines| - 1]);
      Goals(sh, before) + (if !Quits(sh, before) && last.Goal? then [last.text] else [])
  }

  ghost function SentGoals(sent: seq<Sent>): seq<string> {
    seq(|sent|, i requires 0 <= i < |sent| => sent[i].goal)
  }

  lemma {:induction false} EachGoalOnce(sh: Shell, s: Session, lines: seq<string>)
    ensures SentGoals(Interpret(sh, s, lines).sent) == SentGoals(s.sent) + Goals(sh, lines)
  {
    if lines != [] {
      var before := lines[..|lines| - 1];
      EachGoalOnce(sh, s, before);
      var t := Interpret(sh, s, before);
      match sh.parse(lines[|lines| - 1])
      case Goal(text) => assert SentGoals(t.sent + [Sent(text, t.router)]) == SentGoals(t.sent) + [text];
      case _ =>
    }
  }

  /** The understood `:policy` instructions before the first `:quit`. */
  ghost function Understood(sh: Shell, s: Session, lines: seq<string>): seq<string> {
    if lines == [] then []
    else
      var before := lines[..|lines| - 1];
      var last := sh.parse(lines[|lines| - 1]);
      Understood(sh, s, before) +
      (if !Quits(sh, before) && last.EditPolicy?
          && Edit(sh.lex, Interpret(sh, s, before).policy, last.instruction).changes != []
       then [last.instruction] else [])
  }

  lemma AdoptsUnderstood(sh: Shell, t: Session, instruction: string)
    ensures Adopt(sh, t, instruction).policy ==
            if Edit(sh.lex, t.policy, instruction).changes != [] then EditAll(sh.lex, t.policy, [instruction])
            else t.policy
  {
    var p := Edit(sh.lex, t.policy, instruction).policy;
    assert [instruction][1..] == [];
    assert EditAll(sh.lex, p, []) == p;
  }

  /** The policy in memory is the starting policy folded over the understood edits. */
  lemma {:induction false} PolicyIsFolded(sh: Shell, s: Session, lines: seq<string>)
    ensures Interpret(sh, s, lines).policy == EditAll(sh.lex, s.policy, Understood(sh, s, lines))
  {
    if lines != [] {
      var before := lines[..|lines| - 1];
      PolicyIsFolded(sh, s, before);
      var u := Understood(sh, s, before);
      match sh.parse(lines[|lines| - 1])
      case EditPolicy(instruction) =>
        AdoptsUnderstood(sh, Interpret(sh, s, before), instruction);
        EditAllAppend(sh.lex, s.policy, u, [instruction]);
        assert u + [] == u;
      case _ => assert u + [] == u;
    }
  }

  /** Memory, file and router say the same, in normal form. */
  ghost predicate InStep(text: Json -> string, s: Session) {
    s.router == s.policy && Load(text, s.file) == s.policy && NormalForm(s.policy)
  }

  lemma AdoptInStep(text: Json -> string, sh: Shell, s: Session, instruction: string)
    requires InStep(text, s)
    ensures InStep(text, Adopt(sh, s, instruction))
  {
    EditNormalises(sh.lex, s.policy, instruction);
    LoadAfterSave(text, Edit(sh.lex, s.policy, instruction).policy);
  }

  lemma {:induction false} InterpretInStep(text: Json -> string, sh: Shell, s: Session, lines: seq<string>)
    requires InStep(text, s)
    ensures InStep(text, Interpret(sh, s, lines))
  {
    if lines != [] {
      InterpretInStep(text, sh, s, lines[..|lines| - 1]);
      var t := Interpret(sh, s, lines[..|lines| - 1]);
      match sh.parse(lines[|lines| - 1])
      case EditPolicy(i) => AdoptInStep(text, sh, t, i);
      case _ =>
    }
  }

  lemma OpenInStep(text: Json -> string, f: File)
    ensures InStep(text, Open(text, f))
  {
    LoadedIsNormal(text, f);
  }

  /** A session opened on the file another one left starts with the policy that one ended with. */
  lemma RestartKeepsPolicy(text: Json -> string, sh: Shell, f: File, lines: seq<string>)
    ensures var ended := Interpret(sh, Open(text, f), lines);
            Open(text, ended.file).policy == Open(text, ended.file).router == ended.policy
  {
    OpenInStep(text, f);
    InterpretInStep(text, sh, Open(text, f), lines);
  }

  lemma DispatchedNow(sh: Shell, s: Session, lines: seq<string>, x: Sent)
    requires s.router == s.policy && lines != [] && sh.parse(lines[|lines| - 1]) == Goal(x.goal)
    requires x.router == Interpret(sh, s, lines[..|lines| - 1]).router
    ensures DispatchedAt(sh, s, lines, |lines| - 1, x)
  {
    SameRouter(sh, s, lines[..|lines| - 1]);
    PolicyIsFolded(sh, s, lines[..|lines| - 1]);
  }

  lemma SentSoFar(sh: Shell, s: Session, lines: seq<string>)
    requires lines != []
    ensures var before := Interpret(sh, s, lines[..|lines| - 1]).sent;
            var last := sh.parse(lines[|lines| - 1]);
            Interpret(sh, s, lines).sent ==
            if !Quits(sh, lines[..|lines| - 1]) && last.Goal?
            then before + [Sent(last.text, Interpret(sh, s, lines[..|lines| - 1]).router)] else before
  {}

  /** Every dispatched goal met the router of the policy folded from the edits before it. */
  lemma {:induction false} RoutedUnderEarlierEdits(sh: Shell, s: Session, lines: seq<string>, i: nat)
    requires s.sent == [] && s.router == s.policy && i < |Interpret(sh, s, lines).sent|
    ensures exists k :: 0 <= k < |lines| && DispatchedAt(sh, s, lines, k, Interpret(sh, s, lines).sent[i])
  {
    var before := lines[..|lines| - 1];
    var x := Interpret(sh, s, lines).sent[i];
    SentSoFar(sh, s, lines);
    if i < |Interpret(sh, s, before).sent| {
      RoutedUnderEarlierEdits(sh, s, before, i);
      var k :| 0 <= k < |before| && DispatchedAt(sh, s, before, k, x);
      assert lines[..k] == before[..k];
      assert DispatchedAt(sh, s, lines, k, x);
    } else {
      DispatchedNow(sh, s, lines, x);
    }
  }

  ghost predicate DispatchedAt(sh: Shell, s: Session, lines: seq<string>, k: nat, x: Sent)
    requires k < |lines|
  {
    sh.parse(lines[k]) == Goal(x.goal) && x.router == EditAll(sh.lex, s.policy, Understood(sh, s, lines[..k]))
  }

  lemma {:induction false} SameRouter(sh: Shell, s: Session, lines: seq<string>)
    requires s.router == s.policy
    ensures Interpret(sh, s, lines).router == Interpret(sh, s, lines).policy
  {
    if lines != [] { SameRouter(sh, s, lines[..|lines| - 1]); }
  }

  // --- how a run ends -------------------------------------------------------------------

  /** After the first `:quit` further lines change nothing. */
  lemma {:induction false} QuitEnds(sh: Shell, s: Session, lines: seq<string>, k: nat)
    requires k <= |lines| && Quits(sh, lines[..k])
    ensures Interpret(sh, s, lines) == Interpret(sh, s, lines[..k]) && Quits(sh, lines)
  {
    if k == |lines| {
      assert lines[..k] == lines;
    } else {
      var before := lines[..|lines| - 1];
      assert before[..k] == lines[..k];
      QuitEnds(sh, s, before, k);
      var i :| 0 <= i < |before| && sh.parse(before[i]).Leave?;
      assert lines[i] == before[i];
    }
  }

  /** No line arrives once the input has reached its end. */
  ghost predicate NoLineAfterClose(es: seq<Event>) {
    forall i, j :: 0 <= i < j < |es| && es[i].Close? ==> !es[j].Line?
  }

  ghost predicate SawClose(es: seq<Event>) { exists i :: 0 <= i < |es| && es[i].Close? }

  lemma SawCloseSnoc(es: seq<Event>)
    requires es != []
    ensures SawClose(es) <==> SawClose(es[..|es| - 1]) || es[|es| - 1].Close?
  {
    var before := es[..|es| - 1];
    if SawClose(before) {
      var i :| 0 <= i < |before| && before[i].Close?;
      assert es[i].Close?;
    }
    if SawClose(es) {
      var i :| 0 <= i < |es| && es[i].Close?;
      if i < |before| { assert before[i].Close?; }
    }
  }

  /** Once shutting down, nothing is left to do and nothing runs. */
  ghost predicate Finished(w: World) { w.shuttingDown ==> w.inFlight == 0 && (w.quitting || w.queue == []) }

  /** A goal arrives when the hub is already being stopped for the end of its input. */
  ghost predicate LateGoal(sh: Shell, w: World, e: Event) {
    w.shuttingDown && !w.quitting && w.exited.None? && e.Line? && sh.parse(e.text).Goal?
  }

  ghost predicate NoLateGoal(sh: Shell, s: Session, es: seq<Event>) {
    forall n :: 0 <= n < |es| ==> !LateGoal(sh, Run(sh, s, es[..n]), es[n])
  }

  ghost predicate NoGoals(sh: Shell, lines: seq<string>) { forall i :: 0 <= i < |lines| ==> !sh.parse(lines[i]).Goal? }

  lemma {:induction false} LoopFinishes(sh: Shell, w: World)
    requires Looping(w) && (w.shuttingDown ==> w.quitting || NoGoals(sh, w.queue))
    ensures Finished(DrainLoop(sh, w))
    ensures DrainLoop(sh, w).inputEnded && !DrainLoop(sh, w).quitting ==> w.inputEnded
    decreases |w.queue|
  {
    if w.queue != [] && !w.quitting && !sh.parse(w.queue[0]).Goal? {
      LoopFinishes(sh, Take(sh, w));
    }
  }

  lemma StepFinishes(sh: Shell, w: World, e: Event)
    requires Resting(w) && Finished(w)
    requires !LateGoal(sh, w, e)
    ensures Finished(Step(sh, w, e))
    ensures var w' := Step(sh, w, e); w'.inputEnded && !w'.quitting ==> w.inputEnded || e.Close?
  {
    if w.exited.None? {
      match e
      case Line(text) =>
        if !w.draining { LoopFinishes(sh, w.(all := w.all + [text], queue := w.queue + [text], draining := true)); }
      case Sigint =>
        if !w.quitting && !w.draining { LoopFinishes(sh, w.(quitting := true, signalled := true, draining := true)); }
      case Close =>
        if !w.draining { LoopFinishes(sh, w.(inputEnded := true, closed := true, draining := true)); }
      case Settled =>
        if w.inFlight > 0 { LoopFinishes(sh, w.(inFlight := w.inFlight - 1)); }
      case Stopped =>
    }
  }

  lemma {:induction false} RunFinishes(sh: Shell, s: Session, es: seq<Event>)
    requires NoLateGoal(sh, s, es)
    ensures Finished(Run(sh, s, es))
    ensures Run(sh, s, es).inputEnded && !Run(sh, s, es).quitting ==> SawClose(es)
  {
    if es != [] {
      var before := es[..|es| - 1];
      LastIsNotLate(sh, s, es);
      PrefixHasNoLateGoal(sh, s, es, |es| - 1);
      RunFinishes(sh, s, before);
      RunFollows(sh, s, before);
      NextFinishes(sh, Run(sh, s, before), es);
    }
  }

  lemma LastIsNotLate(sh: Shell, s: Session, es: seq<Event>)
    requires es != [] && NoLateGoal(sh, s, es)
    ensures !LateGoal(sh, Run(sh, s, es[..|es| - 1]), es[|es| - 1])
  {}

  lemma NextFinishes(sh: Shell, w: World, es: seq<Event>)
    requires es != [] && Resting(w) && Finished(w) && !LateGoal(sh, w, es[|es| - 1])
    requires w.inputEnded && !w.quitting ==> SawClose(es[..|es| - 1])
    ensures var w' := Step(sh, w, es[|es| - 1]); Finished(w') && (w'.inputEnded && !w'.quitting ==> SawClose(es))
  {
    SawCloseSnoc(es);
    StepFinishes(sh, w, es[|es| - 1]);
  }

  lemma PrefixHasNoLateGoal(sh: Shell, s: Session, es: seq<Event>, n: nat)
    requires n <= |es| && NoLateGoal(sh, s, es)
    ensures NoLateGoal(sh, s, es[..n])
  {
    forall k | 0 <= k < n ensures !LateGoal(sh, Run(sh, s, es[..n][..k]), es[..n][k]) {
      assert es[..n][..k] == es[..k];
      assert !LateGoal(sh, Run(sh, s, es[..k]), es[k]);
    }
  }

  lemma NoLateGoalSnoc(sh: Shell, s: Session, es: seq<Event>)
    requires es != [] && NoLateGoal(sh, s, es[..|es| - 1])
    requires !LateGoal(sh, Run(sh, s, es[..|es| - 1]), es[|es| - 1])
    ensures NoLateGoal(sh, s, es)
  {
    var before := es[..|es| - 1];
    forall k | 0 <= k < |es| ensures !LateGoal(sh, Run(sh, s, es[..k]), es[k]) {
      if k < |before| {
        assert before[..k] == es[..k] && before[k] == es[k];
        assert !LateGoal(sh, Run(sh, s, before[..k]), before[k]);
      }
    }
  }

  /** No goal is late if the input delivers no line behind its end. */
  lemma {:induction false} OrderedIsNeverLate(sh: Shell, s: Session, es: seq<Event>)
    requires NoLineAfterClose(es)
    ensures NoLateGoal(sh, s, es)
  {
    if es != [] {
      var before := es[..|es| - 1];
      OrderedIsNeverLate(sh, s, before);
      RunFinishes(sh, s, before);
      RunFollows(sh, s, before);
      if SawClose(before) {
        var i :| 0 <= i < |before| && before[i].Close?;
        assert es[i].Close?;
      }
      NoLateGoalSnoc(sh, s, es);
    }
  }

  /** While the hub is being stopped nothing is in flight. */
  ghost predicate Idle(w: World) { w.shuttingDown ==> w.inFlight == 0 }

  lemma LateGoalIsInFlight(sh: Shell, w: World, e: Event)
    requires Resting(w) && LateGoal(sh, w, e) && Idle(w)
    ensures !Idle(Step(sh, w, e))
  {
    assert w.queue == [] && !w.draining;
    assert (w.queue + [e.text])[0] == e.text;
  }

  /**
   * The exact condition on the input: nothing is ever in flight while the hub is being stopped
   * if and only if no goal arrives once it is being stopped for the end of its input.
   */
  lemma {:induction false} IdleIff(sh: Shell, s: Session, es: seq<Event>)
    ensures (forall n :: 0 <= n <= |es| ==> Idle(Run(sh, s, es[..n]))) <==> NoLateGoal(sh, s, es)
  {
    if NoLateGoal(sh, s, es) {
      forall n | 0 <= n <= |es| ensures Idle(Run(sh, s, es[..n])) {
        PrefixHasNoLateGoal(sh, s, es, n);
        RunFinishes(sh, s, es[..n]);
      }
    } else {
      var n :| 0 <= n < |es| && LateGoal(sh, Run(sh, s, es[..n]), es[n]);
      RunFollows(sh, s, es[..n]);
      assert es[..n + 1][..n] == es[..n];
      if Idle(Run(sh, s, es[..n])) { LateGoalIsInFlight(sh, Run(sh, s, es[..n]), es[n]); }
      assert !Idle(Run(sh, s, es[..n])) || !Idle(Run(sh, s, es[..n + 1]));
    }
  }

  ghost function LinesOf(es: seq<Event>): seq<string> {
    if es == [] then []
    else
      var last := es[|es| - 1];
      LinesOf(es[..|es| - 1]) + (if last.Line? then [last.text] else [])
  }

  lemma LinesPushed(sh: Shell, w: World, e: Event)
    ensures Step(sh, w, e).all == if w.exited.None? && e.Line? then w.all + [e.text] else w.all
  {
    if w.exited.None? {
      match e
      case Line(text) => LoopKeepsLines(sh, w.(all := w.all + [text], queue := w.queue + [text], draining := true));
      case Sigint => LoopKeepsLines(sh, w.(quitting := true, signalled := true, draining := true));
      case Close => LoopKeepsLines(sh, w.(inputEnded := true, closed := true, draining := true));
      case Settled => if w.inFlight > 0 { LoopKeepsLines(sh, w.(inFlight := w.inFlight - 1)); }
      case Stopped =>
    }
  }

  lemma {:induction false} LoopKeepsLines(sh: Shell, w: World)
    ensures DrainLoop(sh, w).all == w.all
    decreases |w.queue|
  {
    if w.queue != [] && !w.quitting && !sh.parse(w.queue[0]).Goal? {
      LoopKeepsLines(sh, Take(sh, w));
    }
  }

  lemma {:induction false} LoopCloses(sh: Shell, w: World)
    requires w.closed <==> w.inputEnded
    ensures DrainLoop(sh, w).closed <==> DrainLoop(sh, w).inputEnded
    decreases |w.queue|
  {
    if w.queue != [] && !w.quitting && !sh.parse(w.queue[0]).Goal? { LoopCloses(sh, Take(sh, w)); }
  }

  /** The input interface is closed exactly when the input has ended, by itself or by the shutdown. */
  lemma {:induction false} ClosedWithTheInput(sh: Shell, s: Session, es: seq<Event>)
    ensures Run(sh, s, es).closed <==> Run(sh, s, es).inputEnded
  {
    if es != [] {
      var w := Run(sh, s, es[..|es| - 1]);
      ClosedWithTheInput(sh, s, es[..|es| - 1]);
      match es[|es| - 1]
      case Line(text) => LoopCloses(sh, w.(all := w.all + [text], queue := w.queue + [text], draining := true));
      case Sigint => LoopCloses(sh, w.(quitting := true, signalled := true, draining := true));
      case Close => LoopCloses(sh, w.(inputEnded := true, closed := true, draining := true));
      case Settled => if w.inFlight > 0 { LoopCloses(sh, w.(inFlight := w.inFlight - 1)); }
      case Stopped =>
    }
  }

  /** A run that was never asked to quit and has exited has seen the end of its input. */
  lemma ExitedSawClose(sh: Shell, s: Session, es: seq<Event>)
    requires NoLineAfterClose(es) && Run(sh, s, es).exited.Some? && !Run(sh, s, es).quitting
    ensures SawClose(es)
  {
    OrderedIsNeverLate(sh, s, es);
    RunFollows(sh, s, es);
    RunFinishes(sh, s, es);
  }

  lemma ExitedStays(sh: Shell, w: World, e: Event)
    requires w.exited.Some?
    ensures Step(sh, w, e) == w
  {}

  lemma NoLineNow(es: seq<Event>)
    requires es != [] && NoLineAfterClose(es) && SawClose(es[..|es| - 1])
    ensures !es[|es| - 1].Line?
  {
    var before := es[..|es| - 1];
    var i :| 0 <= i < |before| && before[i].Close?;
    assert es[i].Close?;
  }

  /** While it runs, and on a normal exit without `:quit` or SIGINT, every line was received. */
  lemma {:induction false} AllLinesReceived(sh: Shell, s: Session, es: seq<Event>)
    requires NoLineAfterClose(es)
    ensures var w := Run(sh, s, es); w.exited.None? || !w.quitting ==> w.all == LinesOf(es)
  {
    if es != [] {
      var before, e := es[..|es| - 1], es[|es| - 1];
      var w := Run(sh, s, before);
      AllLinesReceived(sh, s, before);
      LinesPushed(sh, w, e);
      if w.exited.Some? && !w.quitting {
        ExitedStays(sh, w, e);
        ExitedSawClose(sh, s, before);
        NoLineNow(es);
      } else if w.exited.Some? {
        ExitedStays(sh, w, e);
      }
    }
  }

  /**
   * A run that exits normally, and was not interrupted, did exactly what the interpreter does
   * with the lines it received: nothing is in flight, one shutdown took place, and without a
   * `:quit` no line was left out; all lines were received if none came behind the end of the input.
   */
  lemma ExitRefinesInterpreter(sh: Shell, s: Session, es: seq<Event>)
    requires NoLateGoal(sh, s, es) && Run(sh, s, es).exited == Some(0)
    ensures var w := Run(sh, s, es);
            && w.inFlight == 0 && w.stops == 1
            && (!w.signalled ==> w.session == Interpret(sh, s, w.all))
            && (!w.quitting ==> w.taken == |w.all| && (NoLineAfterClose(es) ==> w.all == LinesOf(es)))
            && (exists k :: 0 <= k <= |w.all| && w.session == Interpret(sh, s, w.all[..k]))
  {
    var w := Run(sh, s, es);
    RunFollows(sh, s, es);
    RunFinishes(sh, s, es);
    if NoLineAfterClose(es) { AllLinesReceived(sh, s, es); }
    assert w.session == Interpret(sh, s, w.all[..w.taken]);
    if !w.quitting {
      assert w.queue == [];
      assert w.all[..w.taken] == w.all;
    } else if !w.signalled {
      QuitEnds(sh, s, w.all, w.taken);
    }
  }

  lemma QuittingLoop(sh: Shell, w: World)
    requires w.quitting
    ensures DrainLoop(sh, w).quitting && DrainLoop(sh, w).session == w.session
  {}

  lemma QuittingStays(sh: Shell, w: World, e: Event)
    requires w.quitting
    ensures Step(sh, w, e).quitting && Step(sh, w, e).session == w.session
  {
    match e
    case Line(text) => QuittingLoop(sh, w.(all := w.all + [text], queue := w.queue + [text], draining := true));
    case Close => QuittingLoop(sh, w.(inputEnded := true, closed := true, draining := true));
    case Settled => if w.inFlight > 0 { QuittingLoop(sh, w.(inFlight := w.inFlight - 1)); }
    case Sigint =>
    case Stopped =>
  }

  /** Once it is quitting, whatever happens: no further goal is dispatched, no edit is made. */
  lemma {:induction false} NothingAfterQuitting(sh: Shell, s: Session, es: seq<Event>, more: seq<Event>)
    requires Run(sh, s, es).quitting
    ensures Run(sh, s, es + more).quitting && Run(sh, s, es + more).session == Run(sh, s, es).session
  {
    if more == [] {
      assert es + more == es;
    } else {
      var init, e := more[..|more| - 1], more[|more| - 1];
      NothingAfterQuitting(sh, s, es, init);
      QuittingStays(sh, Run(sh, s, es + init), e);
      assert (es + more)[..|es + more| - 1] == es + init;
    }
  }

  // --- the standard commands ----------------------------------------------------------------

  ghost predicate SaysQuit(line: string) { Trim(line) == ":quit" || Trim(line) == ":q" || Trim(line) == ":exit" }

  lemma QuitLeaves(line: string)
    requires SaysQuit(line)
    ensures Parse(line).Leave?
  {
    var word := Trim(line)[1..];
    assert Trim(line) == ":" + word + "";
    assert word == "quit" || word == "q" || word == "exit";
    MetaMeans(line, word, "");
  }

  /** Once a line that says quit was taken, nothing that arrives later is dispatched or edited. */
  lemma QuitLineEnds(lex: Lexicon, s: Session, es: seq<Event>, more: seq<Event>, k: nat)
    requires k < Run(Standard(lex), s, es).taken && k < |Run(Standard(lex), s, es).all|
    requires SaysQuit(Run(Standard(lex), s, es).all[k])
    ensures var w := Run(Standard(lex), s, es);
            && w.quitting && Run(Standard(lex), s, es + more).session == w.session
            && w.session == Interpret(Standard(lex), s, w.all[..k])
  {
    var sh, w := Standard(lex), Run(Standard(lex), s, es);
    RunFollows(sh, s, es);
    QuitLeaves(w.all[k]);
    assert w.all[..w.taken][k] == w.all[k];
    NothingAfterQuitting(sh, s, es, more);
    QuitIsLast(sh, s, w.all[..w.taken], k);
    assert w.all[..w.taken][..k] == w.all[..k];
  }

  /** What comes from the first quit on changes nothing, and neither does the quit. */
  lemma QuitIsLast(sh: Shell, s: Session, lines: seq<string>, k: nat)
    requires k < |lines| && sh.parse(lines[k]).Leave?
    ensures Interpret(sh, s, lines) == Interpret(sh, s, lines[..k])
  {
    assert lines[..k + 1][k] == lines[k];
    QuitEnds(sh, s, lines, k + 1);
    assert lines[..k + 1][..k] == lines[..k];
  }
}
