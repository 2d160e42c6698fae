/**
 * The interactive command line: line, SIGINT and close events race with a drain loop that
 * awaits one dispatch at a time.  Beside it, the plain interpreter it is meant to be.
 */
module Cli {
  import opened Options
  import opened Text
  import opened Routing
  import opened Policy
  import opened PolicyFile

  datatype Command = Blank | Roster | Usage | EditPolicy(instruction: string) | Leave | OtherMeta | Goal(text: string)

  /** Everything before the first white space. */
  function FirstWord(s: string): string {
    if s == "" || IsSpace(s[0]) then "" else [s[0]] + FirstWord(s[1..])
  }

  function Parse(line: string): Command {
    var text := Trim(line);
    if text == "" then Blank
    else if text[0] != ':' then Goal(text)
    else
      var name := FirstWord(text[1..]);
      if name == "roster" then Roster
      else if name == "policy" then
        var instruction := Trim(if |text| >= 7 then text[7..] else "");
        if instruction == "" then Usage else EditPolicy(instruction)
      else if name in ["quit", "q", "exit"] then Leave
      else OtherMeta
  }

  /** Surrounding white space never matters; a goal is what remains, and an instruction is never blank. */
  lemma ParseMeans(line: string)
    ensures Parse(Trim(line)) == Parse(line)
    ensures Parse(line).Goal? <==> Trim(line) != "" && Trim(line)[0] != ':'
    ensures Parse(line).Goal? ==> Parse(line).text == Trim(line)
    ensures Parse(line).EditPolicy? ==>
              Parse(line).instruction != "" && Trim(Parse(line).instruction) == Parse(line).instruction
  {
    TrimIdempotent(line);
    var text := Trim(line);
    TrimIdempotent(if |text| >= 7 then text[7..] else "");
  }

  /** A word and what follows it on a line: nothing, or white space first. */
  ghost predicate IsWord(word: string, rest: string) {
    (forall i :: 0 <= i < |word| ==> !IsSpace(word[i])) && (rest == "" || IsSpace(rest[0]))
  }

  lemma {:induction false} FirstWordIs(word: string, rest: string)
    requires IsWord(word, rest)
    ensures FirstWord(word + rest) == word
  {
    if word == "" {
      assert word + rest == rest;
    } else {
      assert (word + rest)[1..] == word[1..] + rest;
      FirstWordIs(word[1..], rest);
    }
  }

  /** What a line of a colon, a word and a rest is, for every word and every rest. */
  lemma MetaMeans(line: string, word: string, rest: string)
    requires Trim(line) == ":" + word + rest && IsWord(word, rest)
    ensures Parse(line) ==
            if word == "quit" || word == "q" || word == "exit" then Leave
            else if word == "roster" then Roster
            else if word == "policy" then (if Trim(rest) == "" then Usage else EditPolicy(Trim(rest)))
            else OtherMeta
  {
    var text := Trim(line);
    assert text[1..] == word + rest;
    FirstWordIs(word, rest);
    if word == "policy" {
      assert |":" + word| == 7;
      assert text[7..] == rest;
    }
  }

  /** Every line that begins with a colon is of that form; a blank line is skipped, any other is a goal. */
  lemma {:induction false} WordSplits(s: string)
    ensures exists word, rest :: IsWord(word, rest) && s == word + rest
  {
    if s == "" || IsSpace(s[0]) {
      assert IsWord("", s) && s == "" + s;
    } else {
      WordSplits(s[1..]);
      var word, rest :| IsWord(word, rest) && s[1..] == word + rest;
      assert IsWord([s[0]] + word, rest) && s == [s[0]] + word + rest;
    }
  }

  /** A line is one of a blank, a goal, or a colon with a word and a rest. */
  lemma LineIs(line: string)
    ensures Parse(line).Blank? <==> Trim(line) == ""
    ensures Parse(line) == Goal(Trim(line)) <==> Trim(line) != "" && Trim(line)[0] != ':'
    ensures Trim(line) != "" && Trim(line)[0] == ':' ==>
              exists word, rest :: IsWord(word, rest) && Trim(line) == ":" + word + rest
  {
    var text := Trim(line);
    if text != "" && text[0] == ':' {
      WordSplits(text[1..]);
      var word, rest :| IsWord(word, rest) && text[1..] == word + rest;
      assert text == ":" + word + rest;
    }
  }

  /** The words a shell understands and how it reads a line. */
  datatype Shell = Shell(lex: Lexicon, parse: string -> Command)

  function Standard(lex: Lexicon): Shell { Shell(lex, Parse) }

  /** A goal handed to the hub, and the policy of the router registered at that moment. */
  datatype Sent = Sent(goal: string, router: Policy)

  /** The policy in memory, in the file and in the router, and the goals dispatched. */
  datatype Session = Session(policy: Policy, file: File, router: Policy, sent: seq<Sent>)

  function Open(text: Json -> string, f: File): Session {
    Session(Load(text, f), f, Load(text, f), [])
  }

  /** A `:policy` line: only an understood edit is taken over, into memory, file and router. */
  function Adopt(sh: Shell, s: Session, instruction: string): Session {
    var edit := Edit(sh.lex, s.policy, instruction);
    if edit.changes == [] then s
    else s.(policy := edit.policy, file := Document(Save(edit.policy)), router := edit.policy)
  }

  // --- the sequential interpreter -------------------------------------------------------

  function Handle(sh: Shell, s: Session, line: string): Session {
    match sh.parse(line)
    case EditPolicy(instruction) => Adopt(sh, s, instruction)
    case Goal(text) => s.(sent := s.sent + [Sent(text, s.router)])
    case _ => s
  }

  predicate Quits(sh: Shell, lines: seq<string>) {
    exists i :: 0 <= i < |lines| && sh.parse(lines[i]).Leave?
  }

  /** One line after the other, up to the first `:quit`. */
  function Interpret(sh: Shell, s: Session, lines: seq<string>): Session {
    if lines == [] then s
    else
      var before := lines[..|lines| - 1];
      var t := Interpret(sh, s, before);
      if Quits(sh, before) then t else Handle(sh, t, lines[|lines| - 1])
  }

  // --- the event-driven program -----------------------------------------------------------

  /** `all` and `taken` only record what was pushed and shifted; `inFlight` counts awaited dispatches. */
  datatype World = World(
    session: Session,
    all: seq<string>, taken: nat, queue: seq<string>,
    draining: bool, inputEnded: bool, quitting: bool, shuttingDown: bool, closed: bool,
    signalled: bool, inFlight: nat, stops: nat, exited: Option<nat>)

  datatype Event = Line(text: string) | Sigint | Close | Settled | Stopped

  function Start(s: Session): World {
    World(s, [], 0, [], false, false, false, false, false, false, 0, 0, None)
  }

  function Shutdown(w: World): World {
    if w.shuttingDown then w
    else w.(shuttingDown := true, closed := true, inputEnded := true, stops := w.stops + 1)
  }

  /** Behind the loop: no longer draining; leave if asked to. */
  function AfterLoop(w: World): World {
    var w' := w.(draining := false);
    if w'.quitting || w'.inputEnded then Shutdown(w') else w'
  }

  /** One pass of the loop: shift a line and handle it; a goal is dispatched and has to be awaited. */
  function Take(sh: Shell, w: World): World
    requires w.queue != []
  {
    var command := sh.parse(w.queue[0]);
    w.(queue := w.queue[1..], taken := w.taken + 1, session := Handle(sh, w.session, w.queue[0]),
       quitting := w.quitting || command.Leave?, inFlight := w.inFlight + if command.Goal? then 1 else 0)
  }

  /** The loop of `drain` until it awaits a dispatch or ends. */
  function DrainLoop(sh: Shell, w: World): World
    decreases |w.queue|
  {
    if w.queue == [] || w.quitting then AfterLoop(w)
    else if sh.parse(w.queue[0]).Goal? then Take(sh, w)
    else DrainLoop(sh, Take(sh, w))
  }

  function Drain(sh: Shell, w: World): World {
    if w.draining then w else DrainLoop(sh, w.(draining := true))
  }

  function Step(sh: Shell, w: World, e: Event): World {
    if w.exited.Some? then w
    else
      match e
      case Line(text) => Drain(sh, w.(all := w.all + [text], queue := w.queue + [text]))
      case Sigint => if w.quitting then w.(exited := Some(130)) else Drain(sh, w.(quitting := true, signalled := true))
      case Close => Drain(sh, w.(inputEnded := true, closed := true))
      case Settled => if w.inFlight == 0 then w else DrainLoop(sh, w.(inFlight := w.inFlight - 1))
      case Stopped => if w.stops == 0 then w else w.(exited := Some(0))
  }

  function Run(sh: Shell, s: Session, es: seq<Event>): World {
    if es == [] then Start(s) else Step(sh, Run(sh, s, es[..|es| - 1]), es[|es| - 1])
  }
}
