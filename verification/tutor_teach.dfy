/** The two-gate lesson workflow: topic whitelist with guardian approval, layered content review. */
module TutorTeach {
  import opened Options
  import opened Text
  import opened Workflow
  import opened WorkflowEnv
  import opened WorkflowStory

  const TopicPrompt := "an off-whitelist topic: may the tutor teach it this once?"
  const ContentPrompt := "this lesson was flagged: may the child have it?"

  function Is(step: string, field: string, b: bool): Expr {
    Eq(Val(Output(step, [field])), Val(Lit(Bool(b))))
  }

  const Cleared := Or(Is("screen", "allowed", true), Is("guardian-approval", "approved", true))
  const Flagged := Or(Is("teach", "flagged", true), Is("moderate", "flagged", true))

  const Lesson := Def(
    [ StepDef("screen", None, Dispatch(map["topic" := Trigger(["topic"])])),
      StepDef("guardian-approval", Some(Is("screen", "allowed", false)), Human(TopicPrompt)),
      StepDef("teach", Some(Cleared),
              Dispatch(map["topic" := Trigger(["topic"]), "learner_id" := Trigger(["learner_id"])])),
      StepDef("moderate", Some(Cleared), Dispatch(map["lesson" := Output("teach", [])])),
      StepDef("mod-approval", Some(Flagged), Human(ContentPrompt)) ],
    map["screened" := Output("screen", []), "lesson" := Output("teach", []), "moderated" := Output("moderate", [])])

  // --- the deterministic participants -----------------------------------------------------

  datatype Rule = Rule(id: string, name: string, pattern: string)

  /** The guardian's settings; `lower` is lower-casing, character by character. */
  datatype Settings = Settings(whitelist: seq<string>, rules: seq<Rule>, lower: char -> char)

  function Field(v: Value, name: string): Value {
    if v.Object? && name in v.fields then v.fields[name] else Missing
  }

  /** `String(value ?? '')`. */
  function AsString(v: Value): string {
    match v
    case Missing => ""
    case Null => ""
    case Bool(b) => if b then "true" else "false"
    case Text(s) => s
    case Object(_) => "[object Object]"
  }

  /** A keyword of the whitelist occurs in the trimmed, non-empty topic. */
  predicate Allowed(whitelist: seq<string>, topic: string) {
    topic != "" && exists i :: 0 <= i < |whitelist| && Includes(topic, whitelist[i])
  }

  /** The topic of a request, as the screen reads it. */
  function TopicOf(request: Value): string {
    Trim(AsString(Field(request, "topic")))
  }

  function Screen(whitelist: seq<string>, payload: Value): Value {
    Object(map["topic" := Text(TopicOf(payload)), "allowed" := Bool(Allowed(whitelist, TopicOf(payload)))])
  }

  const ScreenedFields := ["topic", "title", "body", "flagReason", "concept", "practice", "zpd"]

  /** The string-valued fields among `names`. */
  function FieldTexts(lesson: Value, names: seq<string>): seq<string> {
    if names == [] then []
    else (if Field(lesson, names[0]).Text? then [Field(lesson, names[0]).text] else []) + FieldTexts(lesson, names[1..])
  }

  function JoinLines(parts: seq<string>): string {
    if parts == [] then "" else if |parts| == 1 then parts[0] else parts[0] + "\n" + JoinLines(parts[1..])
  }

  function Lower(lower: char -> char, s: string): string {
    seq(|s|, i requires 0 <= i < |s| => lower(s[i]))
  }

  function Haystack(lower: char -> char, payload: Value): string {
    var nested := Field(payload, "lesson");
    var lesson := if nested.Missing? || nested.Null? then payload else nested;
    Lower(lower, JoinLines(FieldTexts(lesson, ScreenedFields)))
  }

  predicate Fires(lower: char -> char, rule: Rule, haystack: string) {
    rule.pattern != "" && Includes(haystack, Lower(lower, rule.pattern))
  }

  /** The labels of the rules that fire, in rule order. */
  function Reasons(lower: char -> char, rules: seq<Rule>, haystack: string): (r: seq<string>)
    ensures r != [] <==> exists i :: 0 <= i < |rules| && Fires(lower, rules[i], haystack)
    ensures |r| <= |rules|
  {
    if rules == [] then []
    else
      var last := |rules| - 1;
      Reasons(lower, rules[..last], haystack) + (if Fires(lower, rules[last], haystack) then [rules[last].name] else [])
  }

  method CollectReasons(lower: char -> char, rules: seq<Rule>, haystack: string) returns (reasons: seq<string>)
    ensures reasons == Reasons(lower, rules, haystack)
  {
    reasons := [];
    for i := 0 to |rules|
      invariant reasons == Reasons(lower, rules[..i], haystack)
    {
      assert rules[..i + 1][..i] == rules[..i];
      if rules[i].pattern != "" {
        var hit := Includes(haystack, Lower(lower, rules[i].pattern));
        if hit { reasons := reasons + [rules[i].name]; }
      }
    }
    assert rules[..|rules|] == rules;
  }

  function Moderate(cfg: Settings, payload: Value): Value {
    Object(map["flagged" := Bool(Reasons(cfg.lower, cfg.rules, Haystack(cfg.lower, payload)) != [])])
  }

  /** The screen and the moderation are deterministic; the tutor may answer anything, or fail. */
  ghost predicate Staffed(cfg: Settings, serve: Service) {
    forall payload: Value, seen: seq<Contact> ::
      && serve("screen", payload, seen) == Some(Screen(cfg.whitelist, payload))
      && serve("moderate", payload, seen) == Some(Moderate(cfg, payload))
  }

  // --- what a finished step means ---------------------------------------------------------

  predicate OnWhitelist(cfg: Settings, trigger: Value) { Allowed(cfg.whitelist, TopicOf(trigger)) }

  /** An approval: the decision's `approved` is the boolean true. */
  predicate Approves(decision: Value) { Field(decision, "approved") == Bool(true) }

  predicate SelfFlagged(lesson: Value) { Field(lesson, "flagged") == Bool(true) }

  predicate RuleFlagged(cfg: Settings, lesson: Value) {
    exists i :: 0 <= i < |cfg.rules| &&
      Fires(cfg.lower, cfg.rules[i], Haystack(cfg.lower, Object(map["lesson" := lesson])))
  }

  function Out(r: Record): Value { if r.Done? then r.value else Missing }

  /** The output of finished step `i`, looked up by its id. */
  lemma Outputs(done: seq<Record>)
    requires |done| <= 5
    ensures |done| > 0 ==> OutputOf(Lesson.steps, done, "screen") == Some(Out(done[0]))
    ensures |done| > 1 ==> OutputOf(Lesson.steps, done, "guardian-approval") == Some(Out(done[1]))
    ensures |done| > 2 ==> OutputOf(Lesson.steps, done, "teach") == Some(Out(done[2]))
    ensures |done| > 3 ==> OutputOf(Lesson.steps, done, "moderate") == Some(Out(done[3]))
    ensures |done| <= 2 ==> OutputOf(Lesson.steps, done, "teach") == None
  {
    if |done| > 1 {
      Outputs(done[..|done| - 1]);
    }
  }

  lemma IsMeans(done: seq<Record>, trigger: Value, step: string, field: string, b: bool, v: Value)
    requires |done| <= 5 && OutputOf(Lesson.steps, done, step) == Some(v)
    ensures Eval(Lesson.steps, trigger, done, Is(step, field, b)) == Bool(Field(v, field) == Bool(b))
  {
    assert Walk(v, [field]) == if v.Object? then Some(Field(v, field)) else None;
  }

  // --- the when-conditions of the five steps ------------------------------------------------

  lemma OrMeans(done: seq<Record>, trigger: Value, l: Expr, r: Expr, a: bool, b: bool)
    requires |done| <= 5
    requires Eval(Lesson.steps, trigger, done, l) == Bool(a) && Eval(Lesson.steps, trigger, done, r) == Bool(b)
    ensures Eval(Lesson.steps, trigger, done, Or(l, r)) == Bool(a || b)
  {}

  lemma GateOneMeans(done: seq<Record>, trigger: Value)
    requires |done| == 1
    ensures Passes(Lesson, trigger, done) <==> Field(Out(done[0]), "allowed") == Bool(false)
  {
    Outputs(done);
    IsMeans(done, trigger, "screen", "allowed", false, Out(done[0]));
  }

  lemma ClearedMeans(done: seq<Record>, trigger: Value)
    requires 2 <= |done| <= 3
    ensures Passes(Lesson, trigger, done) <==>
            Field(Out(done[0]), "allowed") == Bool(true) || Approves(Out(done[1]))
  {
    Outputs(done);
    IsMeans(done, trigger, "screen", "allowed", true, Out(done[0]));
    IsMeans(done, trigger, "guardian-approval", "approved", true, Out(done[1]));
    OrMeans(done, trigger, Is("screen", "allowed", true), Is("guardian-approval", "approved", true),
            Field(Out(done[0]), "allowed") == Bool(true), Approves(Out(done[1])));
  }

  lemma GateTwoMeans(done: seq<Record>, trigger: Value)
    requires |done| == 4
    ensures Passes(Lesson, trigger, done) <==> SelfFlagged(Out(done[2])) || SelfFlagged(Out(done[3]))
  {
    Outputs(done);
    IsMeans(done, trigger, "teach", "flagged", true, Out(done[2]));
    IsMeans(done, trigger, "moderate", "flagged", true, Out(done[3]));
    OrMeans(done, trigger, Is("teach", "flagged", true), Is("moderate", "flagged", true),
            SelfFlagged(Out(done[2])), SelfFlagged(Out(done[3])));
  }

  // --- what the deterministic participants answered -----------------------------------------

  lemma ScreenReplies(cfg: Settings, serve: Service, payload: Option<Value>, v: Value)
    requires Staffed(cfg, serve) && Replied(serve, "screen", payload, v)
    ensures payload.Some? && Field(v, "allowed") == Bool(OnWhitelist(cfg, payload.value))
  {
    var seen: seq<Contact> :| serve("screen", payload.value, seen) == Some(v);
    assert v == Screen(cfg.whitelist, payload.value);
  }

  lemma ModerateReplies(cfg: Settings, serve: Service, payload: Option<Value>, v: Value)
    requires Staffed(cfg, serve) && Replied(serve, "moderate", payload, v)
    ensures payload.Some? && v == Moderate(cfg, payload.value)
  {
    var seen: seq<Contact> :| serve("moderate", payload.value, seen) == Some(v);
  }

  lemma ScreenPayload(trigger: Value)
    ensures var p := ResolveAll(Lesson, trigger, [], map["topic" := Trigger(["topic"])]);
            p.Some? ==> OnlyField(p.value, "topic", Field(trigger, "topic"))
  {
    var fields := map["topic" := Trigger(["topic"])];
    assert Lookup(Lesson.steps, trigger, [], fields["topic"]) == Walk(trigger, ["topic"]);
    assert Walk(trigger, ["topic"]) == if trigger.Object? then Some(Field(trigger, "topic")) else None;
    var p := ResolveAll(Lesson, trigger, [], fields);
    if p.Some? { assert "topic" in fields; assert p.value.fields == map["topic" := Field(trigger, "topic")]; }
  }

  predicate OnlyField(payload: Value, name: string, v: Value) {
    payload == Object(map[name := v])
  }

  lemma ModeratePayload(trigger: Value, done: seq<Record>)
    requires |done| == 3
    ensures var p := ResolveAll(Lesson, trigger, done, map["lesson" := Output("teach", [])]);
            p.Some? && OnlyField(p.value, "lesson", Out(done[2]))
  {
    var fields := map["lesson" := Output("teach", [])];
    Outputs(done);
    assert Lookup(Lesson.steps, trigger, done, fields["lesson"]) == Some(Out(done[2]));
    var p := ResolveAll(Lesson, trigger, done, fields);
    assert p.Some?;
    assert p.value.fields == map["lesson" := Out(done[2])];
  }

  lemma ScreenStep(serve: Service, trigger: Value, r: Record)
    requires StepFaithful(Lesson, serve, trigger, [], r)
    ensures r.Done?
    ensures Replied(serve, "screen", ResolveAll(Lesson, trigger, [], map["topic" := Trigger(["topic"])]), r.value)
  {
    var s := Lesson.steps[0];
    assert s == StepDef("screen", None, Dispatch(map["topic" := Trigger(["topic"])]));
  }

  lemma ScreenAnswer(cfg: Settings, serve: Service, trigger: Value, r: Record)
    requires Staffed(cfg, serve) && StepFaithful(Lesson, serve, trigger, [], r)
    ensures r.Done? && Field(r.value, "allowed") == Bool(OnWhitelist(cfg, trigger))
  {
    ScreenStep(serve, trigger, r);
    ScreenPayload(trigger);
    var payload := ResolveAll(Lesson, trigger, [], map["topic" := Trigger(["topic"])]);
    ScreenReplies(cfg, serve, payload, r.value);
    assert Field(payload.value, "topic") == Field(trigger, "topic");
  }

  lemma ModerateStep(serve: Service, trigger: Value, before: seq<Record>, r: Record)
    requires |before| == 3 && r.Done? && StepFaithful(Lesson, serve, trigger, before, r)
    ensures Replied(serve, "moderate",
                    ResolveAll(Lesson, trigger, before, map["lesson" := Output("teach", [])]), r.value)
  {
    var s := Lesson.steps[3];
    assert s == StepDef("moderate", Some(Cleared), Dispatch(map["lesson" := Output("teach", [])]));
  }

  lemma ModerateAnswer(cfg: Settings, serve: Service, trigger: Value, before: seq<Record>, r: Record)
    requires Staffed(cfg, serve) && |before| == 3 && r.Done? && StepFaithful(Lesson, serve, trigger, before, r)
    ensures SelfFlagged(r.value) <==> RuleFlagged(cfg, Out(before[2]))
  {
    ModerateStep(serve, trigger, before, r);
    ModeratePayload(trigger, before);
    var payload := ResolveAll(Lesson, trigger, before, map["lesson" := Output("teach", [])]);
    ModerateReplies(cfg, serve, payload, r.value);
  }

  // --- the two gates ------------------------------------------------------------------------

  /** What holds of the finished steps of a run, gate by gate. */
  ghost predicate Gated(cfg: Settings, allowed: bool, done: seq<Record>) {
    && (|done| > 0 ==> done[0].Done?)
    && (|done| > 1 ==> (done[1].Done? <==> !allowed))
    && (|done| > 2 ==> (done[2].Done? <==> allowed || Approves(Out(done[1]))))
    && (|done| > 3 ==> (done[3].Done? <==> done[2].Done?))
    && (|done| > 4 ==> (done[4].Done? <==> ContentGateOpens(cfg, done[2])))
  }

  predicate ContentGateOpens(cfg: Settings, lesson: Record) {
    lesson.Done? && (SelfFlagged(lesson.value) || RuleFlagged(cfg, lesson.value))
  }

  /** The finished screening and moderation say what the request and the lesson deserve. */
  ghost predicate Screened(cfg: Settings, allowed: bool, done: seq<Record>) {
    && (|done| > 0 ==> Field(Out(done[0]), "allowed") == Bool(allowed))
    && (|done| > 3 && done[3].Done? ==> (SelfFlagged(Out(done[3])) <==> RuleFlagged(cfg, Out(done[2]))))
  }

  /** The `when` of the step behind `done`, in terms of the request and the recorded answers. */
  lemma NextGate(cfg: Settings, allowed: bool, trigger: Value, done: seq<Record>)
    requires |done| < 5 && Gated(cfg, allowed, done) && Screened(cfg, allowed, done)
    ensures Passes(Lesson, trigger, done) <==>
            match |done|
            case 0 => true
            case 1 => !allowed
            case 2 => allowed || Approves(Out(done[1]))
            case 3 => done[2].Done?
            case _ => ContentGateOpens(cfg, done[2])
  {
    if |done| == 0 { FirstAlwaysRuns(trigger, done); }
    else if |done| == 1 { GateOneMeans(done, trigger); }
    else if |done| == 2 || |done| == 3 { ClearedMeans(done, trigger); }
    else { GateTwoMeans(done, trigger); }
  }

  lemma FirstAlwaysRuns(trigger: Value, done: seq<Record>)
    requires done == []
    ensures Passes(Lesson, trigger, done)
  {}

  lemma {:induction false} GatedAlways(cfg: Settings, serve: Service, trigger: Value, done: seq<Record>)
    requires Staffed(cfg, serve) && |done| <= 5 && Faithful(Lesson, serve, trigger, done)
    ensures Gated(cfg, OnWhitelist(cfg, trigger), done)
    ensures Screened(cfg, OnWhitelist(cfg, trigger), done)
  {
    if done != [] {
      var i := |done| - 1;
      var before := done[..i];
      GatedAlways(cfg, serve, trigger, before);
      NextGate(cfg, OnWhitelist(cfg, trigger), trigger, before);
      assert StepFaithful(Lesson, serve, trigger, before, done[i]);
      if i == 0 { assert before == []; ScreenAnswer(cfg, serve, trigger, done[0]); }
      if i == 3 && done[3].Done? { ModerateAnswer(cfg, serve, trigger, before, done[3]); }
    }
  }

  // --- the promise, for every history -----------------------------------------------------

  /** How often run `n` has reached the tutor. */
  ghost function Taught(e: Env, n: nat): nat { multiset(StepsOf(e.log, n))[2] }

  ghost predicate Asked(items: seq<Item>, prompt: string) {
    exists x :: x in items && x.prompt == prompt
  }

  /** The guardian approved the topic of this run. */
  ghost predicate TopicApproved(items: seq<Item>) {
    exists x :: x in items && x.prompt == TopicPrompt && x.status.Resolved? && Approves(x.status.decision)
  }

  /** Which human steps the finished steps `done` went through. */
  lemma DecidedGates(n: nat, done: seq<Record>)
    requires |done| <= 5
    ensures Asked(Decided(Lesson, n, done), TopicPrompt) <==> |done| > 1 && done[1].Done?
    ensures Asked(Decided(Lesson, n, done), ContentPrompt) <==> |done| > 4 && done[4].Done?
    ensures TopicApproved(Decided(Lesson, n, done)) <==> |done| > 1 && Approves(Out(done[1]))
  {
    var items := Decided(Lesson, n, done);
    forall x ensures x in items <==> exists i :: 0 <= i < |done| && DecidedAt(Lesson, n, done, i, x) {
      DecidedFrom(Lesson, n, done, x);
    }
    assert |TopicPrompt| != |ContentPrompt|;
    if |done| > 1 && done[1].Done? {
      assert DecidedAt(Lesson, n, done, 1, Item(n, TopicPrompt, Resolved(done[1].value)));
    }
    if |done| > 4 && done[4].Done? {
      assert DecidedAt(Lesson, n, done, 4, Item(n, ContentPrompt, Resolved(done[4].value)));
    }
  }

  /** `ResolveAll` of the workflow's output template: the gate's decision on the content is not in it. */
  lemma OutputIs(trigger: Value, done: seq<Record>)
    requires |done| == 5
    ensures ResolveAll(Lesson, trigger, done, Lesson.output) ==
            Some(Object(map["screened" := Out(done[0]), "lesson" := Out(done[2]), "moderated" := Out(done[3])]))
  {
    Outputs(done);
    var fields := Lesson.output;
    assert fields.Keys == {"screened", "lesson", "moderated"};
    assert Lookup(Lesson.steps, trigger, done, fields["screened"]) == Some(Out(done[0]));
    assert Lookup(Lesson.steps, trigger, done, fields["lesson"]) == Some(Out(done[2]));
    assert Lookup(Lesson.steps, trigger, done, fields["moderated"]) == Some(Out(done[3]));
    var p := ResolveAll(Lesson, trigger, done, fields);
    assert p.value.fields == map["screened" := Out(done[0]), "lesson" := Out(done[2]), "moderated" := Out(done[3])];
  }

  /** Where a waiting run can stand. */
  lemma WaitsAtGate(done: seq<Record>)
    requires |done| < 5 && Lesson.steps[|done|].action.Human?
    ensures |done| == 1 || |done| == 4
    ensures Lesson.steps[|done|].action.prompt == if |done| == 1 then TopicPrompt else ContentPrompt
  {}

  lemma Appended(items: seq<Item>, x: Item)
    requires x.status.Pending?
    ensures Asked(items + [x], TopicPrompt) <==> Asked(items, TopicPrompt) || x.prompt == TopicPrompt
    ensures Asked(items + [x], ContentPrompt) <==> Asked(items, ContentPrompt) || x.prompt == ContentPrompt
    ensures TopicApproved(items + [x]) <==> TopicApproved(items)
  {
    forall y ensures y in items + [x] <==> y in items || y == x {}
    assert x in items + [x];
  }

  lemma TeachPayload(trigger: Value, done: seq<Record>)
    requires |done| == 2
    ensures ResolveAll(Lesson, trigger, done, Lesson.steps[2].action.payload).Some? <==> trigger.Object?
  {
    var fields := Lesson.steps[2].action.payload;
    assert fields == map["topic" := Trigger(["topic"]), "learner_id" := Trigger(["learner_id"])];
    assert "topic" in fields;
    assert Lookup(Lesson.steps, trigger, done, fields["topic"]) == Walk(trigger, ["topic"]);
    assert Lookup(Lesson.steps, trigger, done, fields["learner_id"]) == Walk(trigger, ["learner_id"]);
    OneFieldWalk(trigger, "topic");
    OneFieldWalk(trigger, "learner_id");
  }

  lemma OneFieldWalk(v: Value, name: string)
    ensures Walk(v, [name]).Some? <==> v.Object?
  {
    if v.Object? { assert Walk(v, [name]) == Walk(Field(v, name), []); }
  }

  lemma FirstPayload(trigger: Value, done: seq<Record>)
    requires done == []
    ensures ResolveAll(Lesson, trigger, done, Lesson.steps[0].action.payload).Some? <==> trigger.Object?
  {
    var fields := Lesson.steps[0].action.payload;
    assert fields == map["topic" := Trigger(["topic"])];
    assert "topic" in fields;
    assert Lookup(Lesson.steps, trigger, done, fields["topic"]) == Walk(trigger, ["topic"]);
    OneFieldWalk(trigger, "topic");
  }

  /** A finished screening had a payload, so the request was an object. */
  lemma ScreenedIsObject(serve: Service, trigger: Value, r: Record)
    requires StepFaithful(Lesson, serve, trigger, [], r)
    ensures trigger.Object?
  {
    ScreenStep(serve, trigger, r);
    FirstPayload(trigger, []);
  }

  lemma {:induction false} FirstFaithful(serve: Service, trigger: Value, done: seq<Record>)
    requires 0 < |done| <= 5 && Faithful(Lesson, serve, trigger, done)
    ensures StepFaithful(Lesson, serve, trigger, [], done[0])
    decreases |done|
  {
    if |done| == 1 { assert done[..0] == []; } else { FirstFaithful(serve, trigger, done[..|done| - 1]); }
  }

  /** A lesson fails at the screening, if the request is no object, or at the tutor, and nowhere else. */
  lemma FailsWhere(cfg: Settings, serve: Service, trigger: Value, done: seq<Record>, steps: seq<nat>)
    requires Staffed(cfg, serve) && |done| <= 5 && Faithful(Lesson, serve, trigger, done)
    requires StoppedAt(Lesson, serve, trigger, done, steps)
    ensures |done| == 0 || |done| == 2
    ensures |done| == 0 ==> !trigger.Object? && steps == Answered(Lesson, done)
    ensures |done| == 2 ==> trigger.Object? && steps == Answered(Lesson, done) + [2] && Passes(Lesson, trigger, done)
  {
    assert |Lesson.steps| == 5;
    if |done| == 5 { OutputIs(trigger, done); }
    if |done| == 3 { ModeratePayload(trigger, done); }
    if |done| > 0 {
      FirstFaithful(serve, trigger, done);
      ScreenedIsObject(serve, trigger, done[0]);
    } else {
      FirstPayload(trigger, done);
    }
    if |done| == 2 { TeachPayload(trigger, done); }
  }

  /** What a history can tell about one lesson. */
  ghost predicate Safe(cfg: Settings, e: Env, n: nat)
    requires n < |e.runs|
  {
    var run := e.runs[n];
    var items := ItemsOf(e.inbox, n);
    var cleared := OnWhitelist(cfg, run.trigger) || TopicApproved(items);
    && Taught(e, n) <= 1
    && (Taught(e, n) == 1 ==> cleared)
    && (Asked(items, TopicPrompt) ==> !OnWhitelist(cfg, run.trigger))
    && (Asked(items, ContentPrompt) ==> Taught(e, n) == 1)
    && match run.stage
       case Ended(Ok(v)) =>
         var lesson := Field(v, "lesson");
         && (Taught(e, n) == 1 <==> cleared)
         && (Asked(items, TopicPrompt) <==> !OnWhitelist(cfg, run.trigger))
         && (Asked(items, ContentPrompt) <==> Taught(e, n) == 1 && (SelfFlagged(lesson) || RuleFlagged(cfg, lesson)))
       case Waiting(_) => Asked(items, TopicPrompt) || Asked(items, ContentPrompt)
       case Ended(_) =>
         && run.stage == Ended(Failed) && (|run.done| == 0 || |run.done| == 2) && !Asked(items, ContentPrompt)
         && (|run.done| == 0 <==> !run.trigger.Object?) && (|run.done| == 2 <==> Taught(e, n) == 1)
  }

  lemma SafeWhenWaiting(cfg: Settings, serve: Service, e: Env, n: nat)
    requires Staffed(cfg, serve) && n < |e.runs| && Told(Lesson, serve, e, n) && e.runs[n].stage.Waiting?
    ensures Safe(cfg, e, n)
  {
    var run := e.runs[n];
    GatedAlways(cfg, serve, run.trigger, run.done);
    NextGate(cfg, OnWhitelist(cfg, run.trigger), run.trigger, run.done);
    DecidedGates(n, run.done);
    WaitsAtGate(run.done);
    AnsweredOnce(Lesson, run.done, 2);
    Appended(Decided(Lesson, n, run.done), Item(n, Lesson.steps[|run.done|].action.prompt, Pending));
    assert |TopicPrompt| != |ContentPrompt|;
  }

  lemma SafeWhenCompleted(cfg: Settings, serve: Service, e: Env, n: nat)
    requires Staffed(cfg, serve) && n < |e.runs| && Told(Lesson, serve, e, n)
    requires e.runs[n].stage.Ended? && e.runs[n].stage.result.Ok?
    ensures Safe(cfg, e, n)
  {
    var run := e.runs[n];
    assert |Lesson.steps| == 5;
    GatedAlways(cfg, serve, run.trigger, run.done);
    DecidedGates(n, run.done);
    AnsweredOnce(Lesson, run.done, 2);
    OutputIs(run.trigger, run.done);
    assert Field(run.stage.result.output, "lesson") == Out(run.done[2]);
  }

  lemma SafeWhenFailed(cfg: Settings, serve: Service, e: Env, n: nat)
    requires Staffed(cfg, serve) && n < |e.runs| && Told(Lesson, serve, e, n)
    requires e.runs[n].stage == Ended(Failed)
    ensures Safe(cfg, e, n)
  {
    var run := e.runs[n];
    var steps := StepsOf(e.log, n);
    assert |Lesson.steps| == 5;
    GatedAlways(cfg, serve, run.trigger, run.done);
    FailsWhere(cfg, serve, run.trigger, run.done, steps);
    NextGate(cfg, OnWhitelist(cfg, run.trigger), run.trigger, run.done);
    DecidedGates(n, run.done);
    AnsweredOnce(Lesson, run.done, 2);
    assert |run.done| == 2 ==>
             multiset(Answered(Lesson, run.done) + [2])[2] == multiset(Answered(Lesson, run.done))[2] + 1;
  }

  /**
   * Over every history of requests and decisions, in any order and for any tutor: a lesson's
   * tutor is reached at most once, only if the topic is on the whitelist or the guardian
   * approved it, and exactly then if the run completes; the content gate of a completed run
   * opened exactly if the lesson flagged itself or a rule fires on it.  A failed run failed at the
   * screening, because its request was no object, or at the tutor, which it then has reached.
   */
  lemma EveryLessonIsGated(cfg: Settings, serve: Service, es: seq<Event>, n: nat)
    requires Staffed(cfg, serve) && n < |History(Lesson, serve, es).runs|
    ensures Safe(cfg, History(Lesson, serve, es), n)
  {
    HistoryTells(Lesson, serve, es);
    var e := History(Lesson, serve, es);
    assert Told(Lesson, serve, e, n);
    match e.runs[n].stage
    case Waiting(_) => SafeWhenWaiting(cfg, serve, e, n);
    case Ended(Ok(_)) => SafeWhenCompleted(cfg, serve, e, n);
    case Ended(_) => SafeWhenFailed(cfg, serve, e, n);
  }

  // --- what the whitelist and the rules look for ------------------------------------------------

  /** A request is on the whitelist exactly if its topic, trimmed, has a keyword somewhere in it. */
  lemma WhitelistMeans(cfg: Settings, trigger: Value, topic: string)
    requires Field(trigger, "topic") == Text(topic)
    ensures OnWhitelist(cfg, trigger) <==>
              Trim(topic) != "" && exists i, a, b :: 0 <= i < |cfg.whitelist| && Trim(topic) == a + cfg.whitelist[i] + b
  {
    forall i | 0 <= i < |cfg.whitelist|
      ensures Includes(Trim(topic), cfg.whitelist[i]) <==> exists a, b :: Trim(topic) == a + cfg.whitelist[i] + b
    {
      IncludesMeans(Trim(topic), cfg.whitelist[i]);
    }
  }

  /** A request without a topic is never on the whitelist. */
  lemma NoTopicIsNotOnWhitelist(cfg: Settings, trigger: Value)
    requires Field(trigger, "topic").Missing? || Field(trigger, "topic").Null?
    ensures !OnWhitelist(cfg, trigger)
  {}

  /** The text of a lesson that the rules are held against: a part of one of these fields. */
  ghost predicate IsScreened(name: string) {
    name == "topic" || name == "title" || name == "body" || name == "flagReason" || name == "concept"
    || name == "practice" || name == "zpd"
  }

  /** Lower-cased, the pattern occurs in a screened text field of the lesson. */
  ghost predicate FoundIn(lower: char -> char, lesson: Value, pattern: string) {
    exists name: string :: IsScreened(name) && Field(lesson, name).Text?
                           && Includes(Lower(lower, Field(lesson, name).text), Lower(lower, pattern))
  }

  lemma LowerAppend(lower: char -> char, a: string, b: string)
    ensures Lower(lower, a + b) == Lower(lower, a) + Lower(lower, b)
  {}

  /** A one-line part of joined lines is a part of one of them. */
  lemma {:induction false} JoinedIncludes(lower: char -> char, parts: seq<string>, part: string)
    requires part != "" && '\n' !in part && lower('\n') == '\n'
    ensures Includes(Lower(lower, JoinLines(parts)), part) <==>
              exists k :: 0 <= k < |parts| && Includes(Lower(lower, parts[k]), part)
  {
    if |parts| == 0 {
    } else if |parts| == 1 {
      assert JoinLines(parts) == parts[0];
    } else {
      var head, rest := parts[0], parts[1..];
      JoinedIncludes(lower, rest, part);
      LowerAppend(lower, head + "\n", JoinLines(rest));
      LowerAppend(lower, head, "\n");
      assert Lower(lower, "\n") == "\n";
      BrokenIncludes(Lower(lower, head), Lower(lower, JoinLines(rest)), part);
      assert forall k :: 0 <= k < |rest| ==> rest[k] == parts[k + 1];
      if k :| 0 <= k < |parts| && Includes(Lower(lower, parts[k]), part) {
        if k > 0 { assert Includes(Lower(lower, rest[k - 1]), part); }
      }
    }
  }

  lemma OccursEach(t: string, part: string, i: nat)
    requires OccursAt(t, part, i)
    ensures forall p :: i <= p < i + |part| ==> t[p] == part[p - i]
  {
    forall p | i <= p < i + |part| ensures t[p] == part[p - i] { assert t[i..i + |part|][p - i] == t[p]; }
  }

  lemma NotOver(t: string, part: string, i: nat, at: nat)
    requires OccursAt(t, part, i) && at < |t| && t[at] !in part
    ensures at < i || i + |part| <= at
  {
    OccursEach(t, part, i);
  }

  lemma BrokenIncludes(a: string, b: string, part: string)
    requires part != "" && '\n' !in part
    ensures Includes(a + "\n" + b, part) <==> Includes(a, part) || Includes(b, part)
  {
    var t := a + "\n" + b;
    if Includes(t, part) {
      var i :| 0 <= i <= |t| - |part| && OccursAt(t, part, i);
      assert t[|a|] == '\n';
      NotOver(t, part, i, |a|);
      if i > |a| {
        var o := i - |a| - 1;
        assert t[|a| + 1..] == b;
        assert b[o..o + |part|] == t[|a| + 1..][o..o + |part|] == t[i..i + |part|];
        assert OccursAt(b, part, o);
      } else {
        assert a[i..i + |part|] == t[i..i + |part|];
        assert OccursAt(a, part, i);
      }
    }
    if Includes(a, part) {
      IncludesPrefix(a, "\n" + b, part);
      assert a + ("\n" + b) == t;
    }
    if Includes(b, part) {
      var i :| 0 <= i <= |b| - |part| && OccursAt(b, part, i);
      assert t[|a| + 1..] == b;
      assert t[|a| + 1 + i..|a| + 1 + i + |part|] == t[|a| + 1..][i..i + |part|];
      assert OccursAt(t, part, |a| + 1 + i);
    }
  }

  lemma {:induction false} FieldTextsAre(lesson: Value, names: seq<string>, s: string)
    ensures s in FieldTexts(lesson, names) <==> exists k :: 0 <= k < |names| && Field(lesson, names[k]) == Text(s)
  {
    if names != [] {
      FieldTextsAre(lesson, names[1..], s);
      if k :| 0 <= k < |names| && Field(lesson, names[k]) == Text(s) {
        if k > 0 { assert names[1..][k - 1] == names[k]; }
      }
      if k :| 0 <= k < |names[1..]| && Field(lesson, names[1..][k]) == Text(s) { assert names[k + 1] == names[1..][k]; }
    }
  }

  /**
   * A lesson is flagged by a rule exactly if the rule's pattern, upper and lower case alike, occurs in
   * one of the seven screened fields, for patterns of one line.
   */
  lemma RuleFlagMeans(cfg: Settings, lesson: Value)
    requires cfg.lower('\n') == '\n' && !lesson.Missing? && !lesson.Null?
    requires forall i :: 0 <= i < |cfg.rules| ==> '\n' !in Lower(cfg.lower, cfg.rules[i].pattern)
    ensures RuleFlagged(cfg, lesson) <==>
              exists i :: 0 <= i < |cfg.rules| && cfg.rules[i].pattern != ""
                          && FoundIn(cfg.lower, lesson, cfg.rules[i].pattern)
  {
    var payload := Object(map["lesson" := lesson]);
    forall i | 0 <= i < |cfg.rules|
      ensures Fires(cfg.lower, cfg.rules[i], Haystack(cfg.lower, payload)) <==>
                cfg.rules[i].pattern != "" && FoundIn(cfg.lower, lesson, cfg.rules[i].pattern)
    {
      if cfg.rules[i].pattern != "" { HaystackHas(cfg.lower, lesson, cfg.rules[i].pattern); }
    }
  }

  lemma HaystackHas(lower: char -> char, lesson: Value, pattern: string)
    requires lower('\n') == '\n' && !lesson.Missing? && !lesson.Null? && pattern != ""
    requires '\n' !in Lower(lower, pattern)
    ensures Includes(Haystack(lower, Object(map["lesson" := lesson])), Lower(lower, pattern)) <==>
              FoundIn(lower, lesson, pattern)
  {
    var parts, part := FieldTexts(lesson, ScreenedFields), Lower(lower, pattern);
    JoinedIncludes(lower, parts, part);
    if k :| 0 <= k < |parts| && Includes(Lower(lower, parts[k]), part) {
      FieldTextsAre(lesson, ScreenedFields, parts[k]);
      var j :| 0 <= j < |ScreenedFields| && Field(lesson, ScreenedFields[j]) == Text(parts[k]);
      assert IsScreened(ScreenedFields[j]);
    }
    if FoundIn(lower, lesson, pattern) {
      var name: string :| IsScreened(name) && Field(lesson, name).Text?
                          && Includes(Lower(lower, Field(lesson, name).text), part);
      ScreenedIsListed(name);
      var j :| 0 <= j < |ScreenedFields| && ScreenedFields[j] == name;
      FieldTextsAre(lesson, ScreenedFields, Field(lesson, name).text);
      var k :| 0 <= k < |parts| && parts[k] == Field(lesson, name).text;
    }
  }

  lemma ScreenedIsListed(name: string)
    requires IsScreened(name)
    ensures exists j :: 0 <= j < |ScreenedFields| && ScreenedFields[j] == name
  {
    assert ScreenedFields[0] == "topic" && ScreenedFields[1] == "title" && ScreenedFields[2] == "body"
           && ScreenedFields[3] == "flagReason" && ScreenedFields[4] == "concept" && ScreenedFields[5] == "practice"
           && ScreenedFields[6] == "zpd";
  }

  /** With no rules, only the self-flag opens the content gate. */
  lemma NoRulesNoFlag(cfg: Settings, lesson: Value)
    requires cfg.rules == []
    ensures !RuleFlagged(cfg, lesson)
  {}

  /**
   * The decision on the content reaches nobody: with the same record of every other step, the
   * completed run returns the same output whether the guardian let the content pass or not.
   */
  lemma ContentDecisionIsIgnored(trigger: Value, done: seq<Record>, yes: Value, no: Value)
    requires |done| == 4
    ensures ResolveAll(Lesson, trigger, done + [Done(yes)], Lesson.output) ==
            ResolveAll(Lesson, trigger, done + [Done(no)], Lesson.output)
  {
    OutputIs(trigger, done + [Done(yes)]);
    OutputIs(trigger, done + [Done(no)]);
  }
}
