/** What the screen, the tutor and the moderation of a lesson are asked, for every history. */
module TutorAsks {
  import opened Options
  import opened Text
  import opened Workflow
  import opened WorkflowEnv
  import opened WorkflowStory
  import opened WorkflowAsks
  import opened TutorTeach

  lemma FieldWalk(v: Value, name: string)
    ensures Walk(v, [name]) == if v.Object? then Some(Field(v, name)) else None
  {
    if v.Object? { assert Walk(v, [name]) == Walk(Field(v, name), []); }
  }

  /** The payload of each dispatched step, in terms of the request and of what was answered before. */
  lemma PayloadOf(trigger: Value, done: seq<Record>, payload: Value)
    requires |done| < 5 && Lesson.steps[|done|].action.Dispatch?
    requires ResolveAll(Lesson, trigger, done, Lesson.steps[|done|].action.payload) == Some(payload)
    ensures |done| == 0 || |done| == 2 || |done| == 3
    ensures |done| == 0 ==> trigger.Object? && payload == Object(map["topic" := Field(trigger, "topic")])
    ensures |done| == 2 ==>
              trigger.Object? &&
              payload == Object(map["topic" := Field(trigger, "topic"), "learner_id" := Field(trigger, "learner_id")])
    ensures |done| == 3 ==> payload == Object(map["lesson" := Out(done[2])])
  {
    var fields := Lesson.steps[|done|].action.payload;
    FieldWalk(trigger, "topic");
    FieldWalk(trigger, "learner_id");
    if |done| == 0 {
      FirstPayload(trigger, done);
      assert payload.fields == map["topic" := Field(trigger, "topic")];
    } else if |done| == 2 {
      TeachPayload(trigger, done);
      assert "topic" in fields && "learner_id" in fields;
      assert payload.fields == map["topic" := Field(trigger, "topic"), "learner_id" := Field(trigger, "learner_id")];
    } else if |done| == 3 {
      ModeratePayload(trigger, done);
    }
  }

  /** Position `j` of the log is where run `n` reached the tutor, which answered with `lesson`. */
  ghost predicate TaughtAt(serve: Service, log: seq<Contact>, j: nat, n: nat, lesson: Value) {
    && j < |log| && log[j].run == n && log[j].step == 2
    && serve("teach", log[j].payload, log[..j]) == Some(lesson)
  }

  lemma {:induction false} StepIsListed(log: seq<Contact>, i: nat)
    requires i < |log|
    ensures log[i].step in StepsOf(log, log[i].run)
  {
    if i < |log| - 1 { StepIsListed(log[..|log| - 1], i); }
  }

  lemma {:induction false} ListedIsContact(log: seq<Contact>, n: nat, k: nat) returns (j: nat)
    requires k in StepsOf(log, n)
    ensures j < |log| && log[j].run == n && log[j].step == k
  {
    var last := |log| - 1;
    if log[last].run == n && log[last].step == k { j := last; } else { j := ListedIsContact(log[..last], n, k); }
  }

  /**
   * For every history: the screen is asked about exactly the request's topic; the tutor for
   * exactly the request's topic and learner, and only if that topic is on the whitelist or was
   * approved; the moderation about exactly the lesson that the tutor answered in the same run.
   */
  lemma ParticipantsAreAsked(cfg: Settings, serve: Service, es: seq<Event>, i: nat)
    requires Staffed(cfg, serve) && i < |History(Lesson, serve, es).log|
    ensures var e := History(Lesson, serve, es); var c := e.log[i];
            && c.run < |e.runs| && c.step in {0, 2, 3}
            && var trigger := e.runs[c.run].trigger;
               && (c.step == 0 ==> c.payload == Object(map["topic" := Field(trigger, "topic")]))
               && (c.step == 2 ==>
                     && c.payload == Object(map["topic" := Field(trigger, "topic"),
                                                "learner_id" := Field(trigger, "learner_id")])
                     && (OnWhitelist(cfg, trigger) || TopicApproved(ItemsOf(e.inbox, c.run))))
               && (c.step == 3 ==>
                     exists j: nat, lesson: Value ::
                       TaughtAt(serve, e.log, j, c.run, lesson) && c.payload == Object(map["lesson" := lesson]))
  {
    var e := History(Lesson, serve, es);
    var c := e.log[i];
    HistoryAsks(Lesson, serve, es);
    assert RunAsked(Lesson, serve, e, c.run);
    var run := e.runs[c.run];
    assert AskedAt(Lesson, serve, run.trigger, run.done, e.log, i);
    assert |Lesson.steps| == 5;
    PayloadOf(run.trigger, run.done[..c.step], c.payload);
    if c.step == 2 { TaughtIsCleared(cfg, serve, es, i); }
    if c.step == 3 { ModeratedWasTaught(cfg, serve, es, i); }
  }

  lemma TaughtIsCleared(cfg: Settings, serve: Service, es: seq<Event>, i: nat)
    requires Staffed(cfg, serve) && i < |History(Lesson, serve, es).log| && History(Lesson, serve, es).log[i].step == 2
    ensures var e := History(Lesson, serve, es); var n := e.log[i].run;
            n < |e.runs| && (OnWhitelist(cfg, e.runs[n].trigger) || TopicApproved(ItemsOf(e.inbox, n)))
  {
    var e := History(Lesson, serve, es);
    var n := e.log[i].run;
    HistoryTells(Lesson, serve, es);
    EveryLessonIsGated(cfg, serve, es, n);
    StepIsListed(e.log, i);
  }

  lemma ModeratedWasTaught(cfg: Settings, serve: Service, es: seq<Event>, i: nat)
    requires Staffed(cfg, serve) && i < |History(Lesson, serve, es).log| && History(Lesson, serve, es).log[i].step == 3
    ensures var e := History(Lesson, serve, es); var n := e.log[i].run;
            && n < |e.runs| && |e.runs[n].done| > 2
            && exists j: nat, lesson: Value ::
                 TaughtAt(serve, e.log, j, n, lesson) && Out(e.runs[n].done[2]) == lesson
  {
    var e := History(Lesson, serve, es);
    var n := e.log[i].run;
    HistoryTells(Lesson, serve, es);
    HistoryAsks(Lesson, serve, es);
    var run := e.runs[n];
    assert Told(Lesson, serve, e, n) && RunAsked(Lesson, serve, e, n);
    assert AskedAt(Lesson, serve, run.trigger, run.done, e.log, i);
    GatedAlways(cfg, serve, run.trigger, run.done);
    StepIsListed(e.log, i);
    ModeratedIsTaught(cfg, serve, e, n);
    var j := ListedIsContact(e.log, n, 2);
    assert AskedAt(Lesson, serve, run.trigger, run.done, e.log, j);
    assert TaughtAt(serve, e.log, j, n, run.done[2].value);
  }

  /** Steps that were dispatched behind the teaching had a finished teaching before them. */
  lemma AnsweredBehindTeaching(cfg: Settings, allowed: bool, done: seq<Record>)
    requires |done| <= 5 && Gated(cfg, allowed, done) && 3 in Answered(Lesson, done)
    ensures |done| > 2 && done[2].Done? && 2 in Answered(Lesson, done)
  {
    AnsweredOnce(Lesson, done, 2);
    AnsweredOnce(Lesson, done, 3);
  }

  /** A run that reached the moderation has finished its teaching, in the log too. */
  lemma ModeratedIsTaught(cfg: Settings, serve: Service, e: Env, n: nat)
    requires Staffed(cfg, serve) && n < |e.runs| && Told(Lesson, serve, e, n) && 3 in StepsOf(e.log, n)
    ensures |e.runs[n].done| > 2 && e.runs[n].done[2].Done? && 2 in StepsOf(e.log, n)
  {
    var run, steps := e.runs[n], StepsOf(e.log, n);
    assert |Lesson.steps| == 5;
    GatedAlways(cfg, serve, run.trigger, run.done);
    if run.stage == Ended(Failed) {
      FailsWhere(cfg, serve, run.trigger, run.done, steps);
      NothingAtThree(run.done);
    }
    AnsweredBehindTeaching(cfg, OnWhitelist(cfg, run.trigger), run.done);
  }

  lemma NothingAtThree(done: seq<Record>)
    requires |done| <= 2
    ensures 3 !in Answered(Lesson, done) + [2]
  {
    AnsweredOnce(Lesson, done, 3);
  }

  /** The step is one of the dispatched ones, and finished. */
  lemma ContactIsFinished(serve: Service, e: Env, i: nat)
    requires i < |e.log| && e.log[i].run < |e.runs| && Told(Lesson, serve, e, e.log[i].run)
    requires e.runs[e.log[i].run].stage.Ended? && e.runs[e.log[i].run].stage.result.Ok?
    ensures var done := e.runs[e.log[i].run].done; |done| == 5 && e.log[i].step < 5 && done[e.log[i].step].Done?
  {
    assert |Lesson.steps| == 5;
    StepIsListed(e.log, i);
    AnsweredOnce(Lesson, e.runs[e.log[i].run].done, e.log[i].step);
  }

  lemma AnswerIsRecorded(serve: Service, e: Env, i: nat)
    requires i < |e.log| && e.log[i].run < |e.runs| && RunAsked(Lesson, serve, e, e.log[i].run)
    requires e.log[i].step < |e.runs[e.log[i].run].done| && e.runs[e.log[i].run].done[e.log[i].step].Done?
    ensures e.log[i].step < |Lesson.steps|
    ensures serve(Lesson.steps[e.log[i].step].id, e.log[i].payload, e.log[..i])
            == Some(e.runs[e.log[i].run].done[e.log[i].step].value)
  {
    var run := e.runs[e.log[i].run];
    assert AskedAt(Lesson, serve, run.trigger, run.done, e.log, i);
  }

  /** What a completed run returns: what the screen said, the tutor's own lesson, and what the moderation said. */
  lemma CompletedReturnsTheLesson(cfg: Settings, serve: Service, es: seq<Event>, i: nat)
    requires Staffed(cfg, serve) && i < |History(Lesson, serve, es).log|
    requires var e := History(Lesson, serve, es);
             && e.log[i].run < |e.runs| && e.runs[e.log[i].run].stage.Ended? && e.runs[e.log[i].run].stage.result.Ok?
    ensures var e := History(Lesson, serve, es); var c := e.log[i];
            var v := e.runs[c.run].stage.result.output;
            && (c.step == 0 ==> serve("screen", c.payload, e.log[..i]) == Some(Field(v, "screened")))
            && (c.step == 2 ==> serve("teach", c.payload, e.log[..i]) == Some(Field(v, "lesson")))
            && (c.step == 3 ==> serve("moderate", c.payload, e.log[..i]) == Some(Field(v, "moderated")))
  {
    var e := History(Lesson, serve, es);
    HistoryTells(Lesson, serve, es);
    HistoryAsks(Lesson, serve, es);
    CompletedRunReturns(serve, e, i);
  }

  lemma CompletedRunReturns(serve: Service, e: Env, i: nat)
    requires i < |e.log| && e.log[i].run < |e.runs|
    requires Told(Lesson, serve, e, e.log[i].run) && RunAsked(Lesson, serve, e, e.log[i].run)
    requires e.runs[e.log[i].run].stage.Ended? && e.runs[e.log[i].run].stage.result.Ok?
    ensures var c := e.log[i]; var v := e.runs[c.run].stage.result.output;
            && (c.step == 0 ==> serve("screen", c.payload, e.log[..i]) == Some(Field(v, "screened")))
            && (c.step == 2 ==> serve("teach", c.payload, e.log[..i]) == Some(Field(v, "lesson")))
            && (c.step == 3 ==> serve("moderate", c.payload, e.log[..i]) == Some(Field(v, "moderated")))
  {
    var run := e.runs[e.log[i].run];
    ContactIsFinished(serve, e, i);
    AnswerIsRecorded(serve, e, i);
    OutputIs(run.trigger, run.done);
    assert Lesson.steps[0].id == "screen" && Lesson.steps[2].id == "teach" && Lesson.steps[3].id == "moderate";
  }
}
