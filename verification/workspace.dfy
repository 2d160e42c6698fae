/** The file workspace of each learner, and the writer that projects a lesson into it. */
module Workspaces {
  import opened Options
  import opened Text
  import opened Numbers
  import opened Bullets
  import opened Teach
  import opened Lessons

  /** What MISSION.md says. */
  datatype Mission = Mission(learner: string, topic: string, missionWhy: string)

  /** A learner's directory; a lesson or record file is named, its page is the lesson it renders. */
  datatype Workspace = Workspace(
    mission: Option<Mission>,
    lessons: map<string, Lesson>,
    records: map<string, Lesson>,
    resources: Option<string>,
    glossary: Option<string>)

  const NoWorkspace := Workspace(None, map[], map[], None, None)

  // --- writing one lesson -------------------------------------------------------------------

  function SourceLine(source: string): string { "- " + source }

  function TermLine(t: Term): string { "- **" + t.term + "** — " + t.definition }

  function TermLines(terms: seq<Term>): seq<string> { seq(|terms|, k requires 0 <= k < |terms| => TermLine(terms[k])) }

  /** The names a workspace gives its lesson and record files. */
  datatype Naming = Naming(lesson: Lesson -> string, record: Lesson -> string)

  function LessonSlug(lower: char -> char, l: Lesson): string {
    SlugForFile(lower, l.title, "lesson-" + Padded(NatText(l.no)))
  }

  function RecordSlug(lower: char -> char, l: Lesson): string {
    if l.insight.Some? then SlugForFile(lower, l.insight.value.title, LessonSlug(lower, l)) else LessonSlug(lower, l)
  }

  /** `NNNN-<slug>.md`, the slug from the lesson's or the insight's title. */
  function Standard(lower: char -> char): Naming {
    Naming((l: Lesson) => FileName(l.no, LessonSlug(lower, l)), (l: Lesson) => FileName(l.no, RecordSlug(lower, l)))
  }

  /** No two lessons of different numbers share a file. */
  ghost predicate Separates(naming: Naming) {
    && (forall l: Lesson, m: Lesson :: naming.lesson(l) == naming.lesson(m) ==> l.no == m.no)
    && (forall l: Lesson, m: Lesson :: naming.record(l) == naming.record(m) ==> l.no == m.no)
  }

  lemma StandardSeparates(lower: char -> char)
    ensures Separates(Standard(lower))
  {
    forall l: Lesson, m: Lesson | Standard(lower).lesson(l) == Standard(lower).lesson(m) ensures l.no == m.no {
      FileNamesDiffer(l.no, m.no, LessonSlug(lower, l), LessonSlug(lower, m));
    }
    forall l: Lesson, m: Lesson | Standard(lower).record(l) == Standard(lower).record(m) ensures l.no == m.no {
      FileNamesDiffer(l.no, m.no, RecordSlug(lower, l), RecordSlug(lower, m));
    }
  }

  /**
   * A lesson's file is named after its title, a record's after the title of its insight: the letters
   * of the title stand in the name behind the number.
   */
  lemma FilesAreNamed(lower: char -> char, l: Lesson, i: Insight)
    requires l.insight == Some(i)
    ensures var kept := Letters(Lowered(lower, l.title));
            exists slug :: Standard(lower).lesson(l) == Padded(NatText(l.no)) + "-" + slug + ".md"
                           && (if kept == "" then slug == "lesson-" + Padded(NatText(l.no)) else Letters(slug) == kept)
    ensures var kept := Letters(Lowered(lower, i.title));
            exists slug :: Standard(lower).record(l) == Padded(NatText(l.no)) + "-" + slug + ".md"
                           && (kept != "" ==> Letters(slug) == kept)
  {
    var fallback := "lesson-" + Padded(NatText(l.no));
    var slug := SlugForFile(lower, l.title, fallback);
    SlugKeepsTheLetters(lower, l.title, fallback);
    SlugKeepsTheLetters(lower, i.title, slug);
    assert Standard(lower).lesson(l) == Padded(NatText(l.no)) + "-" + slug + ".md";
    assert Standard(lower).record(l) == Padded(NatText(l.no)) + "-" + SlugForFile(lower, i.title, slug) + ".md";
  }

  function MissionOf(l: Lesson): Mission { Mission(l.learner, l.topic, l.missionWhy) }

  function ResourcesHeader(learner: string): string { learner + " · 推荐的一手来源 (RESOURCES)" }
  function GlossaryHeader(learner: string): string { learner + " · 术语表 (GLOSSARY)" }

  /** MISSION.md is written by the lesson that establishes it, or when it is missing. */
  function WithMission(mission: Option<Mission>, l: Lesson): Option<Mission> {
    if l.established || mission.None? then Some(MissionOf(l)) else mission
  }

  function WithRecord(naming: Naming, records: map<string, Lesson>, l: Lesson): map<string, Lesson> {
    if l.insight.Some? then records[naming.record(l) := l] else records
  }

  function WithResource(file: Option<string>, l: Lesson): Option<string> {
    if l.primarySource != "" then AppendUnique(file, ResourcesHeader(l.learner), SourceLine(l.primarySource))
    else Some(Body(file, ResourcesHeader(l.learner)))
  }

  function WithTerms(file: Option<string>, l: Lesson): Option<string> {
    AddLines(Some(Body(file, GlossaryHeader(l.learner))), GlossaryHeader(l.learner), TermLines(l.glossary))
  }

  /** `writeTeachWorkspace` on the learner's directory. */
  function Written(naming: Naming, ws: Workspace, l: Lesson): Workspace {
    Workspace(WithMission(ws.mission, l), ws.lessons[naming.lesson(l) := l], WithRecord(naming, ws.records, l),
              WithResource(ws.resources, l), WithTerms(ws.glossary, l))
  }

  lemma {:induction false} LinesHeld(file: Option<string>, header: string, lines: seq<string>, k: nat)
    requires k < |lines|
    ensures Holds(AddLines(file, header, lines), header, lines[k])
  {
    var before, last := AddLines(file, header, lines[..|lines| - 1]), lines[|lines| - 1];
    AppendHolds(before, header, last);
    if k < |lines| - 1 {
      LinesHeld(file, header, lines[..|lines| - 1], k);
      AppendKeeps(before, header, last, lines[k]);
    }
  }

  lemma {:induction false} HeldLinesChangeNothing(file: Option<string>, header: string, lines: seq<string>)
    requires forall k :: 0 <= k < |lines| ==> Holds(file, header, lines[k])
    ensures AddLines(file, header, lines) == file
  {
    if lines != [] { HeldLinesChangeNothing(file, header, lines[..|lines| - 1]); }
  }

  lemma {:induction false} LinesExtend(file: Option<string>, header: string, lines: seq<string>)
    ensures Extends(file, AddLines(file, header, lines))
  {
    if lines != [] {
      LinesExtend(file, header, lines[..|lines| - 1]);
      AppendHolds(AddLines(file, header, lines[..|lines| - 1]), header, lines[|lines| - 1]);
    }
  }

  lemma ResourceTwice(file: Option<string>, l: Lesson)
    ensures WithResource(WithResource(file, l), l) == WithResource(file, l)
  {
    AppendHolds(file, ResourcesHeader(l.learner), SourceLine(l.primarySource));
  }

  lemma TermsTwice(file: Option<string>, l: Lesson)
    ensures WithTerms(WithTerms(file, l), l) == WithTerms(file, l)
  {
    var header, lines := GlossaryHeader(l.learner), TermLines(l.glossary);
    var start := Some(Body(file, header));
    var done := AddLines(start, header, lines);
    LinesExtend(start, header, lines);
    assert Some(Body(done, header)) == done;
    forall k | 0 <= k < |lines| ensures Holds(done, header, lines[k]) {
      LinesHeld(start, header, lines, k);
    }
    HeldLinesChangeNothing(done, header, lines);
  }

  /** Writing a lesson a second time changes nothing in the whole workspace. */
  lemma WritingIsIdempotent(naming: Naming, ws: Workspace, l: Lesson)
    ensures Written(naming, Written(naming, ws, l), l) == Written(naming, ws, l)
  {
    ResourceTwice(ws.resources, l);
    TermsTwice(ws.glossary, l);
    var once := Written(naming, ws, l);
    assert once.lessons[naming.lesson(l) := l] == once.lessons;
    if l.insight.Some? { assert once.records[naming.record(l) := l] == once.records; }
  }

  /** Old content of the accumulating files is a prefix of the new, and no bullet is lost. */
  lemma WritingOnlyAdds(naming: Naming, ws: Workspace, l: Lesson)
    ensures var after := Written(naming, ws, l);
            && Extends(ws.resources, after.resources) && Extends(ws.glossary, after.glossary)
            && CountBullets(ws.resources) <= CountBullets(after.resources)
            && CountBullets(ws.glossary) <= CountBullets(after.glossary)
  {
    var after := Written(naming, ws, l);
    AppendHolds(ws.resources, ResourcesHeader(l.learner), SourceLine(l.primarySource));
    LinesExtend(Some(Body(ws.glossary, GlossaryHeader(l.learner))), GlossaryHeader(l.learner), TermLines(l.glossary));
    BulletsNeverFewer(ws.resources, after.resources);
    BulletsNeverFewer(ws.glossary, after.glossary);
  }

  // --- the disk -----------------------------------------------------------------------------

  function Open(disk: map<string, Workspace>, learner: string): Workspace {
    if learner in disk then disk[learner] else NoWorkspace
  }

  class ChildDesk {
    const naming: Naming
    var disk: map<string, Workspace>

    constructor (naming: Naming)
      ensures this.naming == naming && disk == map[]
    {
      this.naming, disk := naming, map[];
    }

    /** `writeTeachWorkspace`: file after file of one learner; nobody else's directory is touched. */
    method WriteTeachWorkspace(l: Lesson)
      returns (totalLessons: nat, totalInsights: nat, totalResources: nat, totalTerms: nat)
      modifies this
      ensures disk == old(disk)[l.learner := Written(naming, Open(old(disk), l.learner), l)]
      ensures totalLessons == |disk[l.learner].lessons| && totalInsights == |disk[l.learner].records|
      ensures totalResources == CountBullets(disk[l.learner].resources)
      ensures totalTerms == CountBullets(disk[l.learner].glossary)
    {
      var ws := Open(disk, l.learner);
      var mission := if l.established || ws.mission.None? then Some(MissionOf(l)) else ws.mission;
      var lessons := ws.lessons[naming.lesson(l) := l];
      var records := WithRecord(naming, ws.records, l);
      var resources := WithResource(ws.resources, l);
      var glossary := WriteTerms(ws.glossary, l);
      disk := disk[l.learner := Workspace(mission, lessons, records, resources, glossary)];
      totalLessons, totalInsights := |lessons|, |records|;
      totalResources, totalTerms := CountBullets(resources), CountBullets(glossary);
    }

    /** GLOSSARY.md is created with its heading, then each term of the lesson is merged in. */
    method WriteTerms(file: Option<string>, l: Lesson) returns (glossary: Option<string>)
      ensures glossary == WithTerms(file, l)
    {
      var header := GlossaryHeader(l.learner);
      var terms := l.glossary;
      glossary := Some(Body(file, header));
      ghost var start, lines := glossary, TermLines(terms);
      for k := 0 to |terms|
        invariant glossary == AddLines(start, header, lines[..k])
      {
        assert lines[..k + 1][..k] == lines[..k];
        glossary := AppendUnique(glossary, header, TermLine(terms[k]));
      }
      assert lines[..|terms|] == lines;
    }
  }
}
