/** Lessons of many learners, taught in any interleaving and recorded in any order. */
module Course {
  import opened Options
  import opened Teach
  import opened Lessons
  import opened Workspaces

  /** A request: who wants to learn what. */
  datatype Request = Request(learner: string, topic: string)

  /** The learner's own topics among the requests, in order. */
  function Own(reqs: seq<Request>, learner: string): seq<string> {
    if reqs == [] then []
    else
      var last := reqs[|reqs| - 1];
      Own(reqs[..|reqs| - 1], learner) + (if last.learner == learner then [last.topic] else [])
  }

  // --- the tutor's memories ---------------------------------------------------------------

  /** The memories after a series of requests, each handled as `HandleTask` does. */
  function Memories(lower: char -> char, reqs: seq<Request>): map<string, Memory> {
    if reqs == [] then map[]
    else
      var before := Memories(lower, reqs[..|reqs| - 1]);
      var r := reqs[|reqs| - 1];
      var prev := Recall(before, r.learner);
      before[r.learner := Remember(prev, PlanTeach(lower, r.learner, r.topic, prev))]
  }

  lemma MemoriesMove(lower: char -> char, reqs: seq<Request>, learner: string)
    requires reqs != []
    ensures var before, r := Memories(lower, reqs[..|reqs| - 1]), reqs[|reqs| - 1];
            var prev := Recall(before, learner);
            Recall(Memories(lower, reqs), learner) ==
            if r.learner == learner then Remember(prev, PlanTeach(lower, learner, r.topic, prev)) else prev
  {}

  lemma {:induction false} MemoryIsOwn(lower: char -> char, reqs: seq<Request>, learner: string)
    ensures Recall(Memories(lower, reqs), learner) == MemoryOf(lower, learner, Own(reqs, learner))
  {
    if reqs != [] {
      var before, r := reqs[..|reqs| - 1], reqs[|reqs| - 1];
      MemoryIsOwn(lower, before, learner);
      MemoriesMove(lower, reqs, learner);
      OwnMoves(reqs, learner);
      MemoryOfSnoc(lower, learner, Own(before, learner), r.topic);
    }
  }

  lemma OwnMoves(reqs: seq<Request>, learner: string)
    requires reqs != []
    ensures var before, r := reqs[..|reqs| - 1], reqs[|reqs| - 1];
            Own(reqs, learner) ==
            if r.learner == learner then Own(before, learner) + [r.topic] else Own(before, learner)
  {
    var before := Own(reqs[..|reqs| - 1], learner);
    assert before + [] == before;
  }

  lemma MemoryOfSnoc(lower: char -> char, learner: string, topics: seq<string>, topic: string)
    ensures var m := MemoryOf(lower, learner, topics);
            MemoryOf(lower, learner, topics + [topic]) == Remember(m, PlanTeach(lower, learner, topic, m))
  {
    assert (topics + [topic])[..|topics|] == topics;
  }

  /** What the tutor teaches on request `i` depends on that learner's own earlier topics alone. */
  lemma EachLessonIsOwn(lower: char -> char, reqs: seq<Request>, i: nat)
    requires i < |reqs|
    ensures var r := reqs[i];
            && Own(reqs[..i + 1], r.learner) == Own(reqs[..i], r.learner) + [r.topic]
            && PlanTeach(lower, r.learner, r.topic, Recall(Memories(lower, reqs[..i]), r.learner))
               == LessonOf(lower, r.learner, Own(reqs[..i + 1], r.learner))
  {
    var r := reqs[i];
    assert reqs[..i + 1][..i] == reqs[..i];
    MemoryIsOwn(lower, reqs[..i], r.learner);
    var own := Own(reqs[..i], r.learner);
    assert (own + [r.topic])[..|own|] == own;
  }

  // --- the desk ---------------------------------------------------------------------------

  /** A course gives each learner's next lesson from that learner's topics so far. */
  type Plan = (string, seq<string>) -> Lesson

  function TutorPlan(lower: char -> char): Plan {
    (learner: string, topics: seq<string>) => if topics == [] then PlanTeach(lower, learner, "", NoMemory)
                                              else LessonOf(lower, learner, topics)
  }

  /** The lesson's learner, its number, and what comes with the first and the later ones. */
  ghost predicate Shaped(plan: Plan) {
    forall learner: string, topics: seq<string> :: topics != [] ==>
      var l := plan(learner, topics);
      && l.learner == learner && l.no == |topics|
      && (l.established <==> |topics| == 1) && (l.insight.Some? <==> |topics| >= 2)
  }

  lemma TutorIsShaped(lower: char -> char)
    ensures Shaped(TutorPlan(lower))
  {
    forall learner: string, topics: seq<string> | topics != []
      ensures var l := TutorPlan(lower)(learner, topics);
              && l.learner == learner && l.no == |topics|
              && (l.established <==> |topics| == 1) && (l.insight.Some? <==> |topics| >= 2)
    {
      LessonShape(lower, learner, topics);
    }
  }

  /** The lesson taught on request `i`. */
  function Taught(plan: Plan, reqs: seq<Request>, i: nat): Lesson
    requires i < |reqs|
  {
    plan(reqs[i].learner, Own(reqs[..i + 1], reqs[i].learner))
  }

  /** The disk after recording the lessons with the given indices, one after the other. */
  function Disk(naming: Naming, plan: Plan, reqs: seq<Request>, order: seq<nat>): map<string, Workspace>
    requires forall k :: 0 <= k < |order| ==> order[k] < |reqs|
  {
    if order == [] then map[]
    else
      var before := Disk(naming, plan, reqs, order[..|order| - 1]);
      var l := Taught(plan, reqs, order[|order| - 1]);
      before[l.learner := Written(naming, Open(before, l.learner), l)]
  }

  /** Lesson `n` of a learner. */
  function Nth(plan: Plan, topics: seq<string>, learner: string, n: nat): Lesson
    requires n <= |topics|
  {
    plan(learner, topics[..n])
  }

  lemma {:induction false} OwnGrows(reqs: seq<Request>, learner: string, i: nat)
    requires i <= |reqs|
    ensures Own(reqs[..i], learner) <= Own(reqs, learner)
  {
    if i < |reqs| {
      OwnGrows(reqs[..|reqs| - 1], learner, i);
      assert reqs[..|reqs| - 1][..i] == reqs[..i];
    } else {
      assert reqs[..i] == reqs;
    }
  }

  /** Which of its learner's lessons request `i` is. */
  function Number(reqs: seq<Request>, i: nat): nat
    requires i < |reqs|
  {
    |Own(reqs[..i + 1], reqs[i].learner)|
  }

  lemma TaughtIsNth(plan: Plan, reqs: seq<Request>, i: nat)
    requires i < |reqs|
    ensures var r := reqs[i];
            var topics := Own(reqs, r.learner);
            1 <= Number(reqs, i) <= |topics| && Taught(plan, reqs, i) == Nth(plan, topics, r.learner, Number(reqs, i))
  {
    var r := reqs[i];
    OwnGrows(reqs, r.learner, i + 1);
    assert reqs[..i + 1][..i] == reqs[..i];
    assert Own(reqs, r.learner)[..Number(reqs, i)] == Own(reqs[..i + 1], r.learner);
  }

  /** The numbers of the learner's lessons among the recorded ones. */
  ghost function Recorded(reqs: seq<Request>, order: seq<nat>, learner: string): set<nat>
    requires forall k :: 0 <= k < |order| ==> order[k] < |reqs|
  {
    set k | 0 <= k < |order| && reqs[order[k]].learner == learner :: Number(reqs, order[k])
  }

  /** The learner's directory holds exactly the recorded lessons, and a record for each but the first. */
  ghost predicate Filed(naming: Naming, plan: Plan, topics: seq<string>, learner: string, nos: set<nat>,
                        ws: Workspace) {
    && (forall n :: n in nos ==> 1 <= n <= |topics|)
    && (forall f :: f in ws.lessons <==> LessonNamed(naming, plan, topics, learner, nos, f))
    && (forall f :: f in ws.records <==> RecordNamed(naming, plan, topics, learner, nos, f))
    && (1 in nos ==> ws.mission == Some(MissionOf(Nth(plan, topics, learner, 1))))
  }

  ghost predicate LessonNamed(naming: Naming, plan: Plan, topics: seq<string>, learner: string, nos: set<nat>,
                              f: string) {
    exists n :: n in nos && n <= |topics| && f == naming.lesson(Nth(plan, topics, learner, n))
  }

  ghost predicate RecordNamed(naming: Naming, plan: Plan, topics: seq<string>, learner: string, nos: set<nat>,
                              f: string) {
    exists n :: n in nos && 2 <= n <= |topics| && f == naming.record(Nth(plan, topics, learner, n))
  }

  lemma FileOne(naming: Naming, plan: Plan, topics: seq<string>, learner: string, nos: set<nat>, ws: Workspace, n: nat)
    requires Shaped(plan) && Filed(naming, plan, topics, learner, nos, ws) && 1 <= n <= |topics|
    ensures Filed(naming, plan, topics, learner, nos + {n}, Written(naming, ws, Nth(plan, topics, learner, n)))
  {
    var l := Nth(plan, topics, learner, n);
    var ws' := Written(naming, ws, l);
    var more := nos + {n};
    assert l.no == n && (l.established <==> n == 1) && (l.insight.Some? <==> n >= 2);
    forall f ensures f in ws'.lessons <==> LessonNamed(naming, plan, topics, learner, more, f) {
      if f == naming.lesson(l) { assert n in more; }
      if LessonNamed(naming, plan, topics, learner, nos, f) {
        var k :| k in nos && k <= |topics| && f == naming.lesson(Nth(plan, topics, learner, k));
        assert k in more;
      }
    }
    forall f ensures f in ws'.records <==> RecordNamed(naming, plan, topics, learner, more, f) {
      if n >= 2 && f == naming.record(l) { assert n in more; }
      if RecordNamed(naming, plan, topics, learner, nos, f) {
        var k :| k in nos && 2 <= k <= |topics| && f == naming.record(Nth(plan, topics, learner, k));
        assert k in more;
      }
    }
  }

  lemma DiskMoves(naming: Naming, plan: Plan, reqs: seq<Request>, order: seq<nat>, learner: string)
    requires Shaped(plan) && order != [] && forall k :: 0 <= k < |order| ==> order[k] < |reqs|
    ensures var before, i := order[..|order| - 1], order[|order| - 1];
            var ws := Open(Disk(naming, plan, reqs, before), learner);
            Open(Disk(naming, plan, reqs, order), learner) ==
            if reqs[i].learner == learner then Written(naming, ws, Taught(plan, reqs, i)) else ws
  {
    TaughtIsNth(plan, reqs, order[|order| - 1]);
  }

  lemma {:induction false} DiskIsFiled(naming: Naming, plan: Plan, reqs: seq<Request>, order: seq<nat>, learner: string)
    requires Shaped(plan) && forall k :: 0 <= k < |order| ==> order[k] < |reqs|
    ensures Filed(naming, plan, Own(reqs, learner), learner, Recorded(reqs, order, learner),
                  Open(Disk(naming, plan, reqs, order), learner))
  {
    if order != [] {
      var before, i := order[..|order| - 1], order[|order| - 1];
      DiskIsFiled(naming, plan, reqs, before, learner);
      DiskMoves(naming, plan, reqs, order, learner);
      TaughtIsNth(plan, reqs, i);
      RecordedSnoc(reqs, order, learner);
      var nos := Recorded(reqs, before, learner);
      if reqs[i].learner == learner {
        FileOne(naming, plan, Own(reqs, learner), learner, nos, Open(Disk(naming, plan, reqs, before), learner),
                Number(reqs, i));
      } else {
        assert nos + {} == nos;
      }
    }
  }

  lemma RecordedSnoc(reqs: seq<Request>, order: seq<nat>, learner: string)
    requires order != [] && forall k :: 0 <= k < |order| ==> order[k] < |reqs|
    ensures var before, i := order[..|order| - 1], order[|order| - 1];
            Recorded(reqs, order, learner) ==
            Recorded(reqs, before, learner) + if reqs[i].learner == learner then {Number(reqs, i)} else {}
  {
    var before, i := order[..|order| - 1], order[|order| - 1];
    forall n | n in Recorded(reqs, order, learner)
      ensures n in Recorded(reqs, before, learner) || (reqs[i].learner == learner && n == Number(reqs, i))
    {
      var k :| 0 <= k < |order| && reqs[order[k]].learner == learner && n == Number(reqs, order[k]);
      if k < |before| { assert before[k] == order[k]; }
    }
    forall n | n in Recorded(reqs, before, learner) ensures n in Recorded(reqs, order, learner) {
      var k :| 0 <= k < |before| && reqs[before[k]].learner == learner && n == Number(reqs, before[k]);
      assert order[k] == before[k];
    }
    if reqs[i].learner == learner { assert order[|order| - 1] == i; }
  }

  // --- counting the files -------------------------------------------------------------------

  ghost function Names(name: nat -> string, lo: nat, hi: nat): set<string> {
    set k | lo <= k <= hi :: name(k)
  }

  lemma NamesSnoc(name: nat -> string, lo: nat, hi: nat)
    requires lo < hi
    ensures Names(name, lo, hi) == Names(name, lo, hi - 1) + {name(hi)}
  {
    forall x ensures x in Names(name, lo, hi) <==> x in Names(name, lo, hi - 1) || x == name(hi) {}
  }

  lemma {:induction false} CountNames(name: nat -> string, lo: nat, hi: nat)
    requires forall j, k :: lo <= j < k <= hi ==> name(j) != name(k)
    ensures |Names(name, lo, hi)| == if lo <= hi then hi - lo + 1 else 0
    decreases hi
  {
    if lo < hi {
      CountNames(name, lo, hi - 1);
      NamesSnoc(name, lo, hi);
      assert name(hi) !in Names(name, lo, hi - 1);
    } else if lo == hi {
      assert Names(name, lo, hi) == {name(lo)};
    } else {
      assert Names(name, lo, hi) == {};
    }
  }

  function LessonName(naming: Naming, plan: Plan, topics: seq<string>, learner: string): nat -> string {
    (n: nat) => if n <= |topics| then naming.lesson(Nth(plan, topics, learner, n)) else ""
  }

  function RecordName(naming: Naming, plan: Plan, topics: seq<string>, learner: string): nat -> string {
    (n: nat) => if n <= |topics| then naming.record(Nth(plan, topics, learner, n)) else ""
  }

  lemma NamesDiffer(naming: Naming, plan: Plan, topics: seq<string>, learner: string, j: nat, k: nat)
    requires Shaped(plan) && Separates(naming) && 1 <= j < k <= |topics|
    ensures LessonName(naming, plan, topics, learner)(j) != LessonName(naming, plan, topics, learner)(k)
    ensures RecordName(naming, plan, topics, learner)(j) != RecordName(naming, plan, topics, learner)(k)
  {
    assert Nth(plan, topics, learner, j).no == j && Nth(plan, topics, learner, k).no == k;
  }

  lemma KeysAreNames(naming: Naming, plan: Plan, topics: seq<string>, learner: string, nos: set<nat>, ws: Workspace)
    requires Filed(naming, plan, topics, learner, nos, ws)
    requires forall n :: 1 <= n <= |topics| ==> n in nos
    ensures ws.lessons.Keys == Names(LessonName(naming, plan, topics, learner), 1, |topics|)
    ensures ws.records.Keys == Names(RecordName(naming, plan, topics, learner), 2, |topics|)
  {
    var lessonName := LessonName(naming, plan, topics, learner);
    var recordName := RecordName(naming, plan, topics, learner);
    forall f ensures f in ws.lessons <==> f in Names(lessonName, 1, |topics|) {
      if LessonNamed(naming, plan, topics, learner, nos, f) {
        var n :| n in nos && n <= |topics| && f == naming.lesson(Nth(plan, topics, learner, n));
        assert lessonName(n) == f;
      }
      if f in Names(lessonName, 1, |topics|) {
        var k: nat :| 1 <= k <= |topics| && f == lessonName(k);
        assert k in nos && f == naming.lesson(Nth(plan, topics, learner, k));
      }
    }
    forall f ensures f in ws.records <==> f in Names(recordName, 2, |topics|) {
      if RecordNamed(naming, plan, topics, learner, nos, f) {
        var n :| n in nos && 2 <= n <= |topics| && f == naming.record(Nth(plan, topics, learner, n));
        assert recordName(n) == f;
      }
      if f in Names(recordName, 2, |topics|) {
        var k: nat :| 2 <= k <= |topics| && f == recordName(k);
        assert k in nos && f == naming.record(Nth(plan, topics, learner, k));
      }
    }
  }

  lemma FilesThere(naming: Naming, plan: Plan, reqs: seq<Request>, order: seq<nat>, learner: string)
    requires Shaped(plan) && Separates(naming) && forall k :: 0 <= k < |order| ==> order[k] < |reqs|
    requires forall n :: 1 <= n <= |Own(reqs, learner)| ==> n in Recorded(reqs, order, learner)
    requires Own(reqs, learner) != []
    ensures var ws := Open(Disk(naming, plan, reqs, order), learner);
            |ws.lessons| == |Own(reqs, learner)| && |ws.records| == |Own(reqs, learner)| - 1
  {
    var topics := Own(reqs, learner);
    var ws := Open(Disk(naming, plan, reqs, order), learner);
    DiskIsFiled(naming, plan, reqs, order, learner);
    KeysAreNames(naming, plan, topics, learner, Recorded(reqs, order, learner), ws);
    forall j: nat, k: nat | 1 <= j < k <= |topics|
      ensures LessonName(naming, plan, topics, learner)(j) != LessonName(naming, plan, topics, learner)(k)
      ensures RecordName(naming, plan, topics, learner)(j) != RecordName(naming, plan, topics, learner)(k)
    {
      NamesDiffer(naming, plan, topics, learner, j, k);
    }
    CountNames(LessonName(naming, plan, topics, learner), 1, |topics|);
    CountNames(RecordName(naming, plan, topics, learner), 2, |topics|);
    assert |ws.lessons.Keys| == |ws.lessons| && |ws.records.Keys| == |ws.records|;
  }

  /**
   * For any interleaving of learners and any recording order: once all of a learner's n
   * lessons are recorded, however often, there are n lesson files and n - 1 learning records.
   */
  lemma AllFilesThere(lower: char -> char, reqs: seq<Request>, order: seq<nat>, learner: string)
    requires forall k :: 0 <= k < |order| ==> order[k] < |reqs|
    requires forall n :: 1 <= n <= |Own(reqs, learner)| ==> n in Recorded(reqs, order, learner)
    requires Own(reqs, learner) != []
    ensures var ws := Open(Disk(Standard(lower), TutorPlan(lower), reqs, order), learner);
            |ws.lessons| == |Own(reqs, learner)| && |ws.records| == |Own(reqs, learner)| - 1
  {
    TutorIsShaped(lower);
    StandardSeparates(lower);
    FilesThere(Standard(lower), TutorPlan(lower), reqs, order, learner);
  }

  /** From the moment the first lesson is recorded, MISSION.md says what that lesson established. */
  lemma MissionNeverChanges(naming: Naming, lower: char -> char, reqs: seq<Request>, order: seq<nat>, learner: string)
    requires forall k :: 0 <= k < |order| ==> order[k] < |reqs|
    requires 1 in Recorded(reqs, order, learner)
    ensures Own(reqs, learner) != []
    ensures var t := TopicOrDefault(Own(reqs, learner)[0]);
            Open(Disk(naming, TutorPlan(lower), reqs, order), learner).mission ==
            Some(Mission(learner, t, DefaultMission(learner, t)))
  {
    TutorIsShaped(lower);
    DiskIsFiled(naming, TutorPlan(lower), reqs, order, learner);
    var first := Own(reqs, learner)[..1];
    LessonShape(lower, learner, first);
    MissionStays(lower, learner, first);
  }
}
