/**
 * A sequential workflow whose human steps park the run, and two readings of it: `Advance`
 * runs until the next human step, `Direct` answers every human step on the spot.
 */
module Workflow {
  import opened Options

  /** JavaScript values as they flow between steps; `Missing` is `undefined`. */
  datatype Value = Missing | Null | Bool(b: bool) | Text(text: string) | Object(fields: map<string, Value>)

  /** `$trigger.payload.path`, `$step.output.path`, or a literal. */
  datatype Term = Lit(value: Value) | Trigger(path: seq<string>) | Output(step: string, path: seq<string>)

  datatype Expr = Val(term: Term) | Eq(l: Expr, r: Expr) | Not(e: Expr) | And(l: Expr, r: Expr) | Or(l: Expr, r: Expr)

  datatype Action = Dispatch(payload: map<string, Term>) | Human(prompt: string)

  datatype StepDef = StepDef(id: string, when: Option<Expr>, action: Action)

  datatype Def = Def(steps: seq<StepDef>, output: map<string, Term>)

  datatype Record = Done(value: Value) | Skipped

  /** A task that reached a participant. */
  datatype Contact = Contact(run: nat, step: nat, payload: Value)

  /** What the participant behind a step answers, given everything it has seen; `None` is a failure. */
  type Service = (string, Value, seq<Contact>) -> Option<Value>

  datatype Status = Pending | Resolved(decision: Value)
  datatype Item = Item(run: nat, prompt: string, status: Status)

  /** Finished steps of the run, all contacts made so far, inbox items written so far. */
  datatype Progress = Progress(done: seq<Record>, log: seq<Contact>, items: nat)

  datatype Outcome =
    | Completed(at: Progress, output: Value)
    | Broken(at: Progress)
    | Waits(at: Progress)

  // --- references and predicates ----------------------------------------------------------

  function Walk(v: Value, path: seq<string>): Option<Value>
    decreases |path|
  {
    if path == [] then Some(v)
    else if !v.Object? then None
    else Walk(if path[0] in v.fields then v.fields[path[0]] else Missing, path[1..])
  }

  /** `ctx.stepOutputs.get(id)`: a skipped step has the output `undefined`. */
  function OutputOf(steps: seq<StepDef>, done: seq<Record>, id: string): Option<Value>
    requires |done| <= |steps|
  {
    if done == [] then None
    else
      var last := |done| - 1;
      if steps[last].id == id then Some(if done[last].Done? then done[last].value else Missing)
      else OutputOf(steps, done[..last], id)
  }

  function Lookup(steps: seq<StepDef>, trigger: Value, done: seq<Record>, t: Term): Option<Value>
    requires |done| <= |steps|
  {
    match t
    case Lit(v) => Some(v)
    case Trigger(path) => Walk(trigger, path)
    case Output(id, path) =>
      match OutputOf(steps, done, id)
      case None => None
      case Some(v) => Walk(v, path)
  }

  predicate StrictEqual(a: Value, b: Value) {
    a == b && !a.Object?
  }

  predicate Truthy(v: Value) {
    match v
    case Missing => false
    case Null => false
    case Bool(b) => b
    case Text(s) => s != ""
    case Object(_) => true
  }

  /** A reference that cannot be resolved counts as `undefined`. */
  function Eval(steps: seq<StepDef>, trigger: Value, done: seq<Record>, e: Expr): Value
    requires |done| <= |steps|
  {
    match e
    case Val(t) =>
      (match Lookup(steps, trigger, done, t) case None => Missing case Some(v) => v)
    case Eq(l, r) => Bool(StrictEqual(Eval(steps, trigger, done, l), Eval(steps, trigger, done, r)))
    case Not(x) => Bool(!Truthy(Eval(steps, trigger, done, x)))
    case And(l, r) => Bool(Truthy(Eval(steps, trigger, done, l)) && Truthy(Eval(steps, trigger, done, r)))
    case Or(l, r) => Bool(Truthy(Eval(steps, trigger, done, l)) || Truthy(Eval(steps, trigger, done, r)))
  }

  /** A reference without a value: nothing there to walk to, or `undefined` at the end of the walk. */
  predicate Absent(found: Option<Value>) { found.None? || found.value.Missing? }

  /**
   * A comparison of two references is true exactly if both have no value, or both have the same
   * value and it is no object: two unresolved references compare as equal.
   */
  lemma ComparesIff(steps: seq<StepDef>, trigger: Value, done: seq<Record>, l: Term, r: Term)
    requires |done| <= |steps|
    ensures var a, b := Lookup(steps, trigger, done, l), Lookup(steps, trigger, done, r);
            Truthy(Eval(steps, trigger, done, Eq(Val(l), Val(r)))) <==>
              (Absent(a) && Absent(b)) || (!Absent(a) && a == b && !a.value.Object?)
  {
    var a, b := Lookup(steps, trigger, done, l), Lookup(steps, trigger, done, r);
    var x, y := Eval(steps, trigger, done, Val(l)), Eval(steps, trigger, done, Val(r));
    assert x == (if a.None? then Missing else a.value) && y == (if b.None? then Missing else b.value);
    assert Eval(steps, trigger, done, Eq(Val(l), Val(r))) == Bool(StrictEqual(x, y));
  }

  /** The `when` of the next step. */
  predicate Passes(def: Def, trigger: Value, done: seq<Record>)
    requires |done| < |def.steps|
  {
    match def.steps[|done|].when
    case None => true
    case Some(e) => Truthy(Eval(def.steps, trigger, done, e))
  }

  /** Exactly `undefined`, `null`, `false` and the empty text do not count as true. */
  lemma ConditionsMean(steps: seq<StepDef>, trigger: Value, done: seq<Record>, l: Expr, r: Expr, v: Value)
    requires |done| <= |steps|
    ensures !Truthy(v) <==> v == Missing || v == Null || v == Bool(false) || v == Text("")
    ensures var a, b := Truthy(Eval(steps, trigger, done, l)), Truthy(Eval(steps, trigger, done, r));
            && (Truthy(Eval(steps, trigger, done, Not(l))) <==> !a)
            && (Truthy(Eval(steps, trigger, done, And(l, r))) <==> a && b)
            && (Truthy(Eval(steps, trigger, done, Or(l, r))) <==> a || b)
  {}

  /** A path is walked name by name; a name is looked up in an object only, and may be missing there. */
  lemma {:induction false} WalkGoesOn(v: Value, name: string, first: seq<string>, rest: seq<string>)
    ensures Walk(v, []) == Some(v)
    ensures Walk(v, [name]) == match v
                               case Object(fields) => Some(if name in fields then fields[name] else Missing)
                               case _ => None
    ensures Walk(v, first + rest) == match Walk(v, first) case None => None case Some(x) => Walk(x, rest)
    decreases |first|
  {
    assert [name][1..] == [];
    if first == [] {
      assert first + rest == rest;
    } else {
      assert (first + rest)[1..] == first[1..] + rest;
      if v.Object? {
        WalkGoesOn(if first[0] in v.fields then v.fields[first[0]] else Missing, name, first[1..], rest);
      }
    }
  }

  /** A step's output is its answer, or `undefined` if it was skipped; a step that is not finished has none. */
  lemma {:induction false} StepOutputIs(steps: seq<StepDef>, done: seq<Record>, k: nat)
    requires |done| <= |steps| && k < |steps| && forall i, j :: 0 <= i < j < |steps| ==> steps[i].id != steps[j].id
    ensures OutputOf(steps, done, steps[k].id) ==
            if k >= |done| then None else Some(match done[k] case Done(v) => v case Skipped => Missing)
  {
    if done != [] && k != |done| - 1 { StepOutputIs(steps, done[..|done| - 1], k); }
  }

  /** A step without a condition always runs. */
  lemma WhenMeans(def: Def, trigger: Value, done: seq<Record>)
    requires |done| < |def.steps|
    ensures Passes(def, trigger, done) <==>
            match def.steps[|done|].when
            case None => true
            case Some(e) => Eval(def.steps, trigger, done, e) !in {Missing, Null, Bool(false), Text("")}
  {}

  /** `resolveRefs` on an object: one bad reference fails the whole payload. */
  function ResolveAll(def: Def, trigger: Value, done: seq<Record>, fields: map<string, Term>): Option<Value>
    requires |done| <= |def.steps|
  {
    if forall f | f in fields :: Lookup(def.steps, trigger, done, fields[f]).Some? then
      Some(Object(map f | f in fields :: Lookup(def.steps, trigger, done, fields[f]).value))
    else None
  }

  // --- running ----------------------------------------------------------------------------

  function Skip(p: Progress): Progress { p.(done := p.done + [Skipped]) }

  function Finish(p: Progress, v: Value): Progress { p.(done := p.done + [Done(v)]) }

  function End(def: Def, trigger: Value, p: Progress): Outcome
    requires |p.done| <= |def.steps|
  {
    match ResolveAll(def, trigger, p.done, def.output)
    case None => Broken(p)
    case Some(v) => Completed(p, v)
  }

  /** Dispatch the next step to its participant: the new progress and whether it succeeded. */
  function Contacted(def: Def, serve: Service, n: nat, trigger: Value, p: Progress): (Progress, bool)
    requires |p.done| < |def.steps| && def.steps[|p.done|].action.Dispatch?
  {
    var s := def.steps[|p.done|];
    match ResolveAll(def, trigger, p.done, s.action.payload)
    case None => (p, false)
    case Some(payload) =>
      var p' := p.(log := p.log + [Contact(n, |p.done|, payload)]);
      match serve(s.id, payload, p.log)
      case None => (p', false)
      case Some(v) => (Finish(p', v), true)
  }

  /** Run `n` from where it stands until it parks, fails or ends. */
  function Advance(def: Def, serve: Service, n: nat, trigger: Value, p: Progress): Outcome
    requires |p.done| <= |def.steps|
    decreases |def.steps| - |p.done|
  {
    if |p.done| == |def.steps| then End(def, trigger, p)
    else if !Passes(def, trigger, p.done) then Advance(def, serve, n, trigger, Skip(p))
    else if def.steps[|p.done|].action.Human? then Waits(p.(items := p.items + 1))
    else
      var (p', ok) := Contacted(def, serve, n, trigger, p);
      if ok then Advance(def, serve, n, trigger, p') else Broken(p')
  }

  /** The item a run parked at `p` (its human step is `|p.done|`) has written. */
  function ItemAt(def: Def, n: nat, p: Progress): Item
    requires |p.done| < |def.steps| && def.steps[|p.done|].action.Human?
  {
    Item(n, def.steps[|p.done|].action.prompt, Pending)
  }

  /** The run as if every human step were answered by `decide` at once. */
  function Direct(def: Def, serve: Service, decide: Item -> Value, n: nat, trigger: Value, p: Progress): Outcome
    requires |p.done| <= |def.steps|
    decreases |def.steps| - |p.done|
  {
    if |p.done| == |def.steps| then End(def, trigger, p)
    else if !Passes(def, trigger, p.done) then Direct(def, serve, decide, n, trigger, Skip(p))
    else if def.steps[|p.done|].action.Human? then
      Direct(def, serve, decide, n, trigger, Finish(p, decide(ItemAt(def, n, p))).(items := p.items + 1))
    else
      var (p', ok) := Contacted(def, serve, n, trigger, p);
      if ok then Direct(def, serve, decide, n, trigger, p') else Broken(p')
  }

  // --- what any run keeps -------------------------------------------------------------------

  /** A parked run stands before a human step, and has written one item. */
  lemma {:induction false} AdvanceParks(def: Def, serve: Service, n: nat, trigger: Value, p: Progress)
    requires |p.done| <= |def.steps|
    ensures var o := Advance(def, serve, n, trigger, p);
            && p.done <= o.at.done && |o.at.done| <= |def.steps|
            && (if o.Waits? then
                  o.at.items == p.items + 1 && |o.at.done| < |def.steps| && def.steps[|o.at.done|].action.Human?
                else o.at.items == p.items)
    decreases |def.steps| - |p.done|
  {
    if |p.done| == |def.steps| {
    } else if !Passes(def, trigger, p.done) {
      AdvanceParks(def, serve, n, trigger, Skip(p));
    } else if def.steps[|p.done|].action.Dispatch? {
      var (p', ok) := Contacted(def, serve, n, trigger, p);
      if ok { AdvanceParks(def, serve, n, trigger, p'); }
    }
  }

  /** Parking and resuming with the guardian's decision is the same as being answered at once. */
  lemma {:induction false} ParkingIsTransparent(def: Def, serve: Service, decide: Item -> Value, n: nat, trigger: Value,
                                                p: Progress)
    requires |p.done| <= |def.steps|
    ensures var o := Advance(def, serve, n, trigger, p);
            Direct(def, serve, decide, n, trigger, p) ==
            if o.Waits? && |o.at.done| < |def.steps| && def.steps[|o.at.done|].action.Human?
            then Direct(def, serve, decide, n, trigger, Finish(o.at, decide(ItemAt(def, n, o.at))))
            else o
    decreases |def.steps| - |p.done|
  {
    if |p.done| == |def.steps| {
    } else if !Passes(def, trigger, p.done) {
      ParkingIsTransparent(def, serve, decide, n, trigger, Skip(p));
    } else if def.steps[|p.done|].action.Dispatch? {
      var (p', ok) := Contacted(def, serve, n, trigger, p);
      if ok { ParkingIsTransparent(def, serve, decide, n, trigger, p'); }
    }
  }

  /** Human steps from position `i` on. */
  function HumanSteps(steps: seq<StepDef>, i: nat): nat
    requires i <= |steps|
    decreases |steps| - i
  {
    if i == |steps| then 0 else (if steps[i].action.Human? then 1 else 0) + HumanSteps(steps, i + 1)
  }

  /** A run writes at most one item for each human step still ahead of it, and never ends parked. */
  lemma {:induction false} DirectEnds(
    def: Def, serve: Service, decide: Item -> Value, n: nat, trigger: Value, p: Progress)
    requires |p.done| <= |def.steps|
    ensures var o := Direct(def, serve, decide, n, trigger, p);
            !o.Waits? && p.items <= o.at.items <= p.items + HumanSteps(def.steps, |p.done|)
    decreases |def.steps| - |p.done|
  {
    if |p.done| == |def.steps| {
    } else if !Passes(def, trigger, p.done) {
      DirectEnds(def, serve, decide, n, trigger, Skip(p));
    } else if def.steps[|p.done|].action.Human? {
      DirectEnds(def, serve, decide, n, trigger, Finish(p, decide(ItemAt(def, n, p))).(items := p.items + 1));
    } else {
      var (p', ok) := Contacted(def, serve, n, trigger, p);
      if ok { DirectEnds(def, serve, decide, n, trigger, p'); }
    }
  }
}
