/** Driving a lesson through its gates: at most two, so the harness never gives up on one. */
module TutorDrive {
  import opened Options
  import opened Workflow
  import opened WorkflowEnv
  import opened WorkflowHarness
  import opened TutorTeach

  /** The lesson workflow has two human steps, the second of them last. */
  lemma LessonHasTwoGates(i: nat)
    requires i <= |Lesson.steps|
    ensures HumanSteps(Lesson.steps, i) == if i <= 1 then 2 else if i <= 4 then 1 else 0
  {
    var s := Lesson.steps;
    assert |s| == 5;
    assert HumanSteps(s, 5) == 0 && HumanSteps(s, 4) == 1 + HumanSteps(s, 5) && HumanSteps(s, 3) == HumanSteps(s, 4);
    assert HumanSteps(s, 2) == HumanSteps(s, 3) && HumanSteps(s, 1) == 1 + HumanSteps(s, 2);
    assert HumanSteps(s, 0) == HumanSteps(s, 1);
  }

  /** From any state, a lesson that waits is over after at most one further gate for each human step left. */
  lemma AtMostTwoGates(serve: Service, decide: Item -> Value, e: Env, n: nat)
    requires Coherent(Lesson, e) && n < |e.runs| && e.runs[n].stage.Waiting?
    ensures var d := Ahead(Lesson, serve, decide, e, n);
            1 <= 1 + d.at.items - |e.inbox| <= 2 && !ResultOf(d).Suspended?
  {
    DriveBound(Lesson, serve, decide, e, n);
    LessonHasTwoGates(|e.runs[n].done|);
  }

  /** A fired lesson ends after no, one or two gates; the guard against endless parking never fires. */
  method DriveLesson(h: Harness, fired: TaskResult, decide: Item -> Value) returns (out: Driven, gates: seq<Item>)
    requires h.Valid() && h.def == Lesson
    modifies h
    ensures h.Valid() && !out.TooManyParks? && |gates| <= 2
    ensures fired.Suspended? && NewestPending(old(h.inbox)).Some? ==>
              out.Finished? && !out.result.Suspended? && gates != []
  {
    if fired.Suspended? && NewestPending(h.inbox).Some? {
      var n := h.inbox[NewestPending(h.inbox).value].run;
      FrontRun(Lesson, h.View(), NewestPending(h.inbox).value);
      AtMostTwoGates(h.serve, decide, h.View(), n);
    }
    out, gates := h.DriveToCompletion(fired, decide);
  }
}
