/** One lesson planned from a learner's memory, and the tutor that keeps the memories. */
module Lessons {
  import opened Options
  import opened Text
  import opened Numbers
  import opened Teach

  datatype Insight = Insight(slug: string, title: string)

  datatype Term = Term(term: string, definition: string)

  /** Where the learner is: no archive yet, on top of the newest insight, or one step further. */
  datatype Zpd = FirstStep | OnTopOf(title: string) | NextStep(topic: string, no: nat)

  datatype Lesson = Lesson(
    learner: string, topic: string, no: nat, title: string,
    established: bool, missionWhy: string, zpd: Zpd, quiz: Quiz,
    primarySource: string, glossary: seq<Term>, insight: Option<Insight>)

  /** A learner's place: lessons taught, the reason to learn, the insights captured. */
  datatype Memory = Memory(lessons: nat, missionWhy: Option<string>, insights: seq<Insight>)

  const NoMemory := Memory(0, None, [])

  function TopicOrDefault(topic: string): string {
    if Trim(topic) != "" then Trim(topic) else "自由探索"
  }

  function Focus(topic: string, no: nat): string { "「" + topic + "」的第 " + NatText(no) + " 个基础要点" }

  function DefaultMission(learner: string, topic: string): string {
    "让「" + learner + "」把「" + topic +
    "」用到自己真正在意的事情上 (而不是只为考试或打发时间)"
  }

  function NonEmpty(v: Option<string>): Option<string> {
    if v.Some? && Trim(v.value) != "" then Some(Trim(v.value)) else None
  }

  /** The reason to learn: the established one, or a default. */
  function Why(learner: string, t: string, m: Memory): string {
    match NonEmpty(m.missionWhy) case Some(w) => w case None => DefaultMission(learner, t)
  }

  function ZpdFor(t: string, no: nat, m: Memory): Zpd {
    if m.lessons == 0 then FirstStep
    else if m.insights != [] then OnTopOf(m.insights[|m.insights| - 1].title)
    else NextStep(t, no)
  }

  function TitleFor(t: string, no: nat, establishing: bool): string {
    if establishing then "第 1 课 · " + t + " — 先立下学习使命" else "第 " + NatText(no) + " 课 · " + t
  }

  /** Captured only when there was a practice round before. */
  function InsightFor(lower: char -> char, t: string, no: nat, establishing: bool): Option<Insight> {
    if establishing || no < 2 then None
    else Some(Insight(DashCase(lower, t + "-lesson-" + NatText(no)),
                      t + ":第 " + NatText(no) + " 课掌握了「" + Focus(t, no) + "」"))
  }

  function GlossaryFor(t: string, no: nat): seq<Term> {
    [Term(Focus(t, no), "本课语境里「" + Focus(t, no) + "」就是你这一步要弄懂的那一个点。")]
  }

  const SourceEnd := "》入门权威读物 / 官方文档 (家长可在 RESOURCES.md 换成自己信任的来源)"

  function PrimarySource(t: string): string { "《" + t + SourceEnd }

  /** `planTeach`: the first lesson establishes the mission, later ones advance and capture an insight. */
  function PlanTeach(lower: char -> char, learner: string, topic: string, m: Memory): Lesson {
    var t := TopicOrDefault(topic);
    var establishing := m.lessons == 0;
    var no := if establishing then 1 else m.lessons + 1;
    Lesson(learner, t, no, TitleFor(t, no, establishing), establishing, Why(learner, t, m), ZpdFor(t, no, m),
           StudyQuiz(t, no), PrimarySource(t), GlossaryFor(t, no),
           InsightFor(lower, t, no, establishing))
  }

  function Remember(m: Memory, l: Lesson): Memory {
    Memory(l.no, Some(l.missionWhy), if l.insight.Some? then m.insights + [l.insight.value] else m.insights)
  }

  // --- a learner's own course ---------------------------------------------------------------

  /** The memory after the learner's own topics, and nothing else. */
  function MemoryOf(lower: char -> char, learner: string, topics: seq<string>): Memory {
    if topics == [] then NoMemory
    else
      var m := MemoryOf(lower, learner, topics[..|topics| - 1]);
      Remember(m, PlanTeach(lower, learner, topics[|topics| - 1], m))
  }

  /** Lesson `k` (from 1) of a learner: a function of that learner's first `k` topics. */
  function LessonOf(lower: char -> char, learner: string, topics: seq<string>): Lesson
    requires topics != []
  {
    PlanTeach(lower, learner, topics[|topics| - 1], MemoryOf(lower, learner, topics[..|topics| - 1]))
  }

  lemma {:induction false} MemoryCounts(lower: char -> char, learner: string, topics: seq<string>)
    ensures var m := MemoryOf(lower, learner, topics);
            && m.lessons == |topics|
            && |m.insights| == (if topics == [] then 0 else |topics| - 1)
            && (topics == [] <==> m.missionWhy.None?)
            && (|topics| >= 2 ==> Some(m.insights[|topics| - 2]) == LessonOf(lower, learner, topics).insight)
  {
    if topics != [] { MemoryCounts(lower, learner, topics[..|topics| - 1]); }
  }

  /** The clock, the mission and the insights of lesson `k`. */
  lemma LessonShape(lower: char -> char, learner: string, topics: seq<string>)
    requires topics != []
    ensures var l := LessonOf(lower, learner, topics);
            && l.learner == learner && l.no == |topics|
            && (l.established <==> |topics| == 1) && (l.insight.Some? <==> |topics| >= 2)
            && (|topics| >= 3 ==>
                  var before := LessonOf(lower, learner, topics[..|topics| - 1]);
                  before.insight.Some? && l.zpd == OnTopOf(before.insight.value.title))
  {
    var before := topics[..|topics| - 1];
    MemoryCounts(lower, learner, before);
  }

  /** Lesson `n` is about the topic it was asked for, quizzes and cites it, and defines the point it teaches. */
  lemma LessonIsAbout(lower: char -> char, learner: string, topics: seq<string>, said: string)
    requires topics != [] && said == Trim(topics[|topics| - 1])
    ensures var l, n := LessonOf(lower, learner, topics), |topics|;
            var point := "「" + l.topic + "」的第 " + NatText(n) + " 个基础要点";
            && l.topic == (if said == "" then "自由探索" else said)
            && (n == 1 ==> l.zpd == FirstStep) && (n == 2 ==> l.zpd == NextStep(l.topic, 2))
            && l.quiz == StudyQuiz(l.topic, n)
            && l.primarySource ==
               "《" + l.topic + "》入门权威读物 / 官方文档 (家长可在 RESOURCES.md 换成自己信任的来源)"
            && l.glossary == [Term(point, "本课语境里「" + point + "」就是你这一步要弄懂的那一个点。")]
            && (n == 1 ==> l.title == "第 1 课 · " + l.topic + " — 先立下学习使命")
            && (n >= 2 ==> l.title == "第 " + NatText(n) + " 课 · " + l.topic && l.insight.Some?
                           && l.insight.value.slug == DashCase(lower, l.topic + "-lesson-" + NatText(n))
                           && l.insight.value.title == l.topic + ":第 " + NatText(n) + " 课掌握了「" + point + "」")
  {
    MemoryCounts(lower, learner, topics[..|topics| - 1]);
  }

  predicate Solid(s: string) { s != "" && !IsSpace(s[0]) && !IsSpace(s[|s| - 1]) }

  lemma TrimSolid(s: string)
    requires Solid(s)
    ensures Trim(s) == s
  {
    assert TrimStart(s) == s;
    assert TrimEnd(s) == s;
  }

  lemma DefaultIsSolid(learner: string, t: string)
    ensures Solid(DefaultMission(learner, t))
  {
    var why := DefaultMission(learner, t);
    assert why[0] == '让' && why[|why| - 1] == ')';
  }

  lemma WhyIsKept(learner: string, t: string, m: Memory, why: string)
    requires m.missionWhy == Some(why) && Solid(why)
    ensures Why(learner, t, m) == why
  {
    TrimSolid(why);
  }

  /** The mission a later lesson works for is the one the first lesson established. */
  lemma {:induction false} MissionStays(lower: char -> char, learner: string, topics: seq<string>)
    requires topics != []
    ensures LessonOf(lower, learner, topics).missionWhy ==
            "让「" + learner + "」把「" + TopicOrDefault(topics[0]) +
            "」用到自己真正在意的事情上 (而不是只为考试或打发时间)"
    ensures MemoryOf(lower, learner, topics).missionWhy == Some(LessonOf(lower, learner, topics).missionWhy)
  {
    var before := topics[..|topics| - 1];
    MemoryCounts(lower, learner, before);
    if |topics| > 1 {
      MissionStays(lower, learner, before);
      DefaultIsSolid(learner, TopicOrDefault(topics[0]));
      WhyIsKept(learner, TopicOrDefault(topics[|topics| - 1]), MemoryOf(lower, learner, before),
                DefaultMission(learner, TopicOrDefault(topics[0])));
    }
  }

  // --- the tutor ----------------------------------------------------------------------------

  function Recall(memory: map<string, Memory>, learner: string): Memory {
    if learner in memory then memory[learner] else NoMemory
  }

  class LessonTutor {
    const lower: char -> char
    var memory: map<string, Memory>
    var taught: seq<Lesson>

    constructor (lower: char -> char)
      ensures this.lower == lower && memory == map[] && taught == []
    {
      this.lower, memory, taught := lower, map[], [];
    }

    /** `handleTask`: plan from this learner's memory, and advance it; no other memory moves. */
    method HandleTask(learner: string, topic: string) returns (lesson: Lesson)
      modifies this
      ensures lesson == PlanTeach(lower, learner, topic, Recall(old(memory), learner))
      ensures taught == old(taught) + [lesson]
      ensures memory == old(memory)[learner := Remember(Recall(old(memory), learner), lesson)]
    {
      var prev := Recall(memory, learner);
      lesson := PlanTeach(lower, learner, topic, prev);
      taught := taught + [lesson];
      memory := memory[learner := Remember(prev, lesson)];
    }
  }
}
