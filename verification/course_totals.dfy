/** How many entries RESOURCES.md and GLOSSARY.md have after any course, against what was taught. */
module CourseTotals {
  import opened Options
  import opened Text
  import opened Teach
  import opened Lessons
  import opened Bullets
  import opened Workspaces
  import opened TutorLines
  import opened Course

  ghost predicate Indices(reqs: seq<Request>, order: seq<nat>) { forall k :: 0 <= k < |order| ==> order[k] < |reqs| }

  /** The learner's directory after the tutor's lessons with the given indices were recorded. */
  function Directory(naming: Naming, lower: char -> char, reqs: seq<Request>, order: seq<nat>, learner: string)
    : Workspace
    requires Indices(reqs, order)
  {
    Open(Disk(naming, TutorPlan(lower), reqs, order), learner)
  }

  /** What a recorded lesson was about, and which of its learner's lessons it was. */
  datatype Told = Told(topic: string, no: nat)

  /** The learner's recorded lessons, in the order in which they were recorded. */
  function Tellings(reqs: seq<Request>, order: seq<nat>, learner: string): seq<Told>
    requires Indices(reqs, order)
  {
    if order == [] then []
    else
      var before, i := Tellings(reqs, order[..|order| - 1], learner), order[|order| - 1];
      if reqs[i].learner != learner then before
      else before + [Told(TopicOrDefault(reqs[i].topic), Number(reqs, i))]
  }

  function SourceLines(ts: seq<Told>): seq<string> { seq(|ts|, k requires 0 <= k < |ts| => Resource(ts[k].topic)) }
  function TermsTold(ts: seq<Told>): seq<string> {
    seq(|ts|, k requires 0 <= k < |ts| => Glossed(ts[k].topic, ts[k].no))
  }

  ghost predicate OneLineTopics(ts: seq<Told>) { forall k :: 0 <= k < |ts| ==> OneLine(ts[k].topic) }

  // --- the two files are listings -----------------------------------------------------------------

  lemma TaughtLines(lower: char -> char, reqs: seq<Request>, i: nat)
    requires i < |reqs|
    ensures var l, t := Taught(TutorPlan(lower), reqs, i), TopicOrDefault(reqs[i].topic);
            && l.learner == reqs[i].learner && l.primarySource == PrimarySource(t)
            && l.glossary == GlossaryFor(t, Number(reqs, i))
  {
    var own := Own(reqs[..i + 1], reqs[i].learner);
    OwnMoves(reqs[..i + 1], reqs[i].learner);
    assert reqs[..i + 1][i] == reqs[i];
    LessonShape(lower, reqs[i].learner, own);
    assert own[|own| - 1] == reqs[i].topic;
  }

  lemma SourceIsPut(file: Option<string>, l: Lesson, topic: string)
    requires OneLine(topic) && l.primarySource == PrimarySource(topic)
    ensures FileEntries(WithResource(file, l), ResourcesHeader(l.learner))
            == Put(FileEntries(file, ResourcesHeader(l.learner)), Resource(topic))
  {
    ResourceIs(topic);
    AppendedIff(file, ResourcesHeader(l.learner), Resource(topic));
  }

  lemma TermIsPut(file: Option<string>, l: Lesson, topic: string, n: nat)
    requires OneLine(topic) && l.glossary == GlossaryFor(topic, n)
    ensures FileEntries(WithTerms(file, l), GlossaryHeader(l.learner))
            == Put(FileEntries(file, GlossaryHeader(l.learner)), Glossed(topic, n))
  {
    var header := GlossaryHeader(l.learner);
    GlossedIsOneLine(topic, n);
    GlossedIs(topic, n);
    assert TermLines(l.glossary) == [Glossed(topic, n)];
    AddOne(Some(Body(file, header)), header, Glossed(topic, n));
    AppendedIff(Some(Body(file, header)), header, Glossed(topic, n));
  }

  lemma AddOne(file: Option<string>, header: string, line: string)
    ensures AddLines(file, header, [line]) == AppendUnique(file, header, line)
  {
    assert [line][..0] == [];
  }

  lemma PutSnoc(heading: seq<string>, before: seq<string>, last: string)
    ensures PutAll(heading, before + [last]) == Put(PutAll(heading, before), last)
  {
    assert (before + [last])[..|before|] == before;
  }

  lemma PutOneMore(heading: seq<string>, was: seq<Told>, t: Told)
    ensures PutAll(heading, SourceLines(was + [t])) == Put(PutAll(heading, SourceLines(was)), Resource(t.topic))
    ensures PutAll(heading, TermsTold(was + [t])) == Put(PutAll(heading, TermsTold(was)), Glossed(t.topic, t.no))
  {
    assert SourceLines(was + [t]) == SourceLines(was) + [Resource(t.topic)];
    assert TermsTold(was + [t]) == TermsTold(was) + [Glossed(t.topic, t.no)];
    PutSnoc(heading, SourceLines(was), Resource(t.topic));
    PutSnoc(heading, TermsTold(was), Glossed(t.topic, t.no));
  }

  /** The files hold the headings and what is listed of the lines told so far. */
  ghost predicate Lists(ws: Workspace, learner: string, ts: seq<Told>) {
    && FileEntries(ws.resources, ResourcesHeader(learner)) == PutAll(Heading(ResourcesHeader(learner)), SourceLines(ts))
    && FileEntries(ws.glossary, GlossaryHeader(learner)) == PutAll(Heading(GlossaryHeader(learner)), TermsTold(ts))
  }

  lemma OneMoreListed(naming: Naming, ws: Workspace, learner: string, ts: seq<Told>, l: Lesson, t: Told)
    requires Lists(ws, learner, ts) && OneLine(t.topic)
    requires l.learner == learner && l.primarySource == PrimarySource(t.topic)
    requires l.glossary == GlossaryFor(t.topic, t.no)
    ensures Lists(Written(naming, ws, l), learner, ts + [t])
  {
    SourceIsPut(ws.resources, l, t.topic);
    TermIsPut(ws.glossary, l, t.topic, t.no);
    PutOneMore(Heading(ResourcesHeader(learner)), ts, t);
    PutOneMore(Heading(GlossaryHeader(learner)), ts, t);
  }

  lemma {:induction false} FilesAreListings(
    naming: Naming, lower: char -> char, reqs: seq<Request>, order: seq<nat>, learner: string)
    requires Indices(reqs, order) && OneLine(learner) && OneLineTopics(Tellings(reqs, order, learner))
    ensures Lists(Directory(naming, lower, reqs, order, learner), learner, Tellings(reqs, order, learner))
  {
    if order == [] {
      HeadersAreOneLine(learner);
      HeadingEntries(ResourcesHeader(learner));
      HeadingEntries(GlossaryHeader(learner));
    } else {
      var before, i := order[..|order| - 1], order[|order| - 1];
      var was, ws := Tellings(reqs, before, learner), Directory(naming, lower, reqs, before, learner);
      TutorIsShaped(lower);
      DiskMoves(naming, TutorPlan(lower), reqs, order, learner);
      if reqs[i].learner == learner {
        var t := Told(TopicOrDefault(reqs[i].topic), Number(reqs, i));
        assert OneLineTopics(was + [t]);
        assert (was + [t])[|was|] == t && forall k :: 0 <= k < |was| ==> (was + [t])[k] == was[k];
        FilesAreListings(naming, lower, reqs, before, learner);
        TaughtLines(lower, reqs, i);
        OneMoreListed(naming, ws, learner, was, Taught(TutorPlan(lower), reqs, i), t);
      } else {
        FilesAreListings(naming, lower, reqs, before, learner);
      }
    }
  }

  lemma HeadersAreOneLine(learner: string)
    requires OneLine(learner)
    ensures OneLine(ResourcesHeader(learner)) && OneLine(GlossaryHeader(learner))
  {
    assert OneLine(" · 推荐的一手来源 (RESOURCES)") && OneLine(" · 术语表 (GLOSSARY)");
  }

  // --- resources ------------------------------------------------------------------------------------

  function Topics(ts: seq<Told>): seq<string> { seq(|ts|, k requires 0 <= k < |ts| => ts[k].topic) }

  /** No topic that comes for the first time has its line inside the line of an earlier one. */
  ghost predicate NoneSwallowed(topics: seq<string>) {
    forall i, j :: 0 <= i < j < |topics| && topics[j] !in topics[..j] ==>
                     !Swallows(SourceStart, SourceEnd, topics[i], topics[j])
  }

  lemma ResourceInjective(s: string, t: string)
    ensures Resource(s) == Resource(t) <==> s == t
  {
    ResourceIs(s);
    ResourceIs(t);
    if Resource(s) == Resource(t) {
      assert Resource(s)[3..3 + |s|] == s && Resource(t)[3..3 + |t|] == t;
    }
  }

  lemma ResourceHasSlash(topic: string)
    ensures '/' in Resource(topic)
  {
    ResourceIs(topic);
    assert SourceEnd[8] == '/';
    assert Resource(topic)[3 + |topic| + 8] == SourceEnd[8];
  }

  lemma HeadingHasNoSlash(learner: string, k: nat)
    requires '/' !in learner && k < 2
    ensures '/' !in Heading(ResourcesHeader(learner))[k]
  {
    var end := " · 推荐的一手来源 (RESOURCES)";
    assert '/' !in end;
    assert '/' !in learner + end;
    assert Heading(ResourcesHeader(learner))[0] == ['#', ' '] + (learner + end);
  }

  /** A heading holds no resource line, because a directory's name holds no slash. */
  lemma HeadingHoldsNoResource(learner: string, topic: string)
    requires '/' !in learner
    ensures !Contained(Heading(ResourcesHeader(learner)), Resource(topic))
  {
    ResourceHasSlash(topic);
    HeadingHasNoSlash(learner, 0);
    HeadingHasNoSlash(learner, 1);
    NoneCarries(Heading(ResourcesHeader(learner)), Resource(topic), '/');
  }

  lemma NothingLostIsNoneSwallowed(learner: string, ts: seq<Told>)
    requires '/' !in learner
    ensures NothingLost(Heading(ResourcesHeader(learner)), SourceLines(ts)) <==> NoneSwallowed(Topics(ts))
  {
    var heading, lines, topics := Heading(ResourcesHeader(learner)), SourceLines(ts), Topics(ts);
    forall j | 0 <= j < |ts|
      ensures lines[j] in lines[..j] <==> topics[j] in topics[..j]
      ensures lines[j] !in lines[..j] ==>
                (Clear(heading, lines[..j], lines[j]) <==>
                 forall i :: 0 <= i < j ==> !Swallows(SourceStart, SourceEnd, topics[i], topics[j]))
    {
      SameRepeat(ts, j);
      if lines[j] !in lines[..j] { ClearIff(learner, ts, j); }
    }
  }

  lemma SameRepeat(ts: seq<Told>, j: nat)
    requires j < |ts|
    ensures SourceLines(ts)[j] in SourceLines(ts)[..j] <==> Topics(ts)[j] in Topics(ts)[..j]
  {
    var lines, topics := SourceLines(ts), Topics(ts);
    forall i | 0 <= i < j ensures lines[i] == lines[j] <==> topics[i] == topics[j] {
      ResourceInjective(topics[i], topics[j]);
    }
    if lines[j] in lines[..j] {
      var i :| 0 <= i < j && lines[..j][i] == lines[j];
      assert topics[..j][i] == topics[j];
    }
    if topics[j] in topics[..j] {
      var i :| 0 <= i < j && topics[..j][i] == topics[j];
      assert lines[..j][i] == lines[j];
    }
  }

  lemma ClearIff(learner: string, ts: seq<Told>, j: nat)
    requires '/' !in learner && j < |ts| && Topics(ts)[j] !in Topics(ts)[..j]
    ensures Clear(Heading(ResourcesHeader(learner)), SourceLines(ts)[..j], SourceLines(ts)[j]) <==>
            forall i :: 0 <= i < j ==> !Swallows(SourceStart, SourceEnd, Topics(ts)[i], Topics(ts)[j])
  {
    var lines, topics := SourceLines(ts), Topics(ts);
    HeadingHoldsNoResource(learner, topics[j]);
    forall i | 0 <= i < j
      ensures Includes(lines[..j][i], lines[j]) <==> Swallows(SourceStart, SourceEnd, topics[i], topics[j])
    {
      assert topics[..j][i] == topics[i];
      ResourceSwallowIff(topics[i], topics[j]);
    }
  }

  lemma ResourcesTotal(ws: Workspace, learner: string, ts: seq<Told>)
    requires Lists(ws, learner, ts) && OneLine(learner) && '/' !in learner && OneLineTopics(ts)
    ensures var topics, total := Topics(ts), CountBullets(ws.resources);
            total <= |AsSet(topics)| && (total == |AsSet(topics)| <==> NoneSwallowed(topics))
  {
    HeadersAreOneLine(learner);
    forall k | 0 <= k < |ts| ensures OneLine(SourceLines(ts)[k]) && IsBullet(SourceLines(ts)[k]) {
      ResourceIs(ts[k].topic);
    }
    TotalIff(ws.resources, ResourcesHeader(learner), SourceLines(ts));
    NothingLostIsNoneSwallowed(learner, ts);
    forall i, j | 0 <= i < |ts| && 0 <= j < |ts|
      ensures SourceLines(ts)[i] == SourceLines(ts)[j] <==> Topics(ts)[i] == Topics(ts)[j]
    {
      ResourceInjective(ts[i].topic, ts[j].topic);
    }
    SameDistinct(SourceLines(ts), Topics(ts));
  }

  /**
   * For any course of a learner, recorded in any order and however often: RESOURCES.md lists as
   * many entries as there are distinct topics if and only if no topic quotes the line of a later,
   * new one from its beginning, to its end, or whole.
   */
  lemma SourcesListedOnceIff(naming: Naming, lower: char -> char, reqs: seq<Request>, order: seq<nat>, learner: string)
    requires Indices(reqs, order) && OneLine(learner) && '/' !in learner
    requires OneLineTopics(Tellings(reqs, order, learner))
    ensures var topics := Topics(Tellings(reqs, order, learner));
            var total := CountBullets(Directory(naming, lower, reqs, order, learner).resources);
            total <= |AsSet(topics)| && (total == |AsSet(topics)| <==> NoneSwallowed(topics))
  {
    FilesAreListings(naming, lower, reqs, order, learner);
    ResourcesTotal(Directory(naming, lower, reqs, order, learner), learner, Tellings(reqs, order, learner));
  }

  /** Topics without title marks quote no line. */
  lemma UnquotedTopics(topics: seq<string>)
    requires forall k :: 0 <= k < |topics| ==> '《' !in topics[k] && '》' !in topics[k]
    ensures NoneSwallowed(topics)
  {
    forall i, j | 0 <= i < j < |topics| && topics[j] !in topics[..j]
      ensures !Swallows(SourceStart, SourceEnd, topics[i], topics[j])
    {
      UnquotedSwallowsNothing(topics[i], topics[j]);
    }
  }

  /** In particular every topic has its source when no topic has a title mark. */
  lemma EverySourceIsListed(naming: Naming, lower: char -> char, reqs: seq<Request>, order: seq<nat>, learner: string)
    requires Indices(reqs, order) && OneLine(learner) && '/' !in learner
    requires OneLineTopics(Tellings(reqs, order, learner))
    requires var topics := Topics(Tellings(reqs, order, learner));
             forall k :: 0 <= k < |topics| ==> '《' !in topics[k] && '》' !in topics[k]
    ensures CountBullets(Directory(naming, lower, reqs, order, learner).resources)
            == |AsSet(Topics(Tellings(reqs, order, learner)))|
  {
    SourcesListedOnceIff(naming, lower, reqs, order, learner);
    UnquotedTopics(Topics(Tellings(reqs, order, learner)));
  }

  lemma UnquotedSwallowsNothing(e: string, l: string)
    requires '《' !in e && '》' !in e
    ensures !Swallows(SourceStart, SourceEnd, e, l)
  {
    var part := SourceStart + l + SourceEnd;
    assert '《' in SourceStart && SourceEnd[0] == '》';
    assert '《' in SourceStart + l && '《' in part && (l + SourceEnd)[|l|] == '》';
    if EndsWith(e, SourceStart + l) {
      EndIsIncluded(e, SourceStart + l);
      CharCarries(e, SourceStart + l, '《');
    }
    if Includes(e, part) { CharCarries(e, part, '《'); }
  }

  lemma TwoTold(learner: string, a: string, b: string)
    requires Solid(a) && Solid(b)
    ensures Tellings([Request(learner, a), Request(learner, b)], [0, 1], learner) == [Told(a, 1), Told(b, 2)]
  {
    var one, two := [Request(learner, a)], [Request(learner, a), Request(learner, b)];
    TrimSolid(a);
    TrimSolid(b);
    assert one[..0] == [] && two[..1] == one && two[..2] == two;
    assert Own(one, learner) == [a];
    OwnMoves(two, learner);
    assert Number(two, 0) == 1 && Number(two, 1) == 2;
    assert [0][..0] == [] && [0, 1][..1] == [0];
    assert Tellings(two, [0], learner) == [Told(a, 1)];
  }

  /** Of two topics only the first is listed, when it swallows the second. */
  lemma SecondIsLost(ws: Workspace, learner: string, ts: seq<Told>)
    requires Lists(ws, learner, ts) && OneLine(learner) && '/' !in learner && OneLineTopics(ts) && |ts| == 2
    requires ts[0].topic != ts[1].topic && Swallows(SourceStart, SourceEnd, ts[0].topic, ts[1].topic)
    ensures CountBullets(ws.resources) <= 1
  {
    var topics := Topics(ts);
    ResourcesTotal(ws, learner, ts);
    assert topics == [ts[0].topic, ts[1].topic];
    assert topics[..1] == [ts[0].topic] && topics[1] !in topics[..1];
    assert AsSet(topics) == {ts[0].topic, ts[1].topic};
  }

  /** After a topic that quotes the end of another topic's line, that other topic is never listed. */
  lemma QuotedTopicIsLost(naming: Naming, lower: char -> char, learner: string, topic: string)
    requires Solid(topic) && OneLine(topic) && OneLine(learner) && '/' !in learner
    ensures var reqs := [Request(learner, topic + SourceEnd), Request(learner, topic)];
            CountBullets(Directory(naming, lower, reqs, [0, 1], learner).resources) <= 1
  {
    var quoting := topic + SourceEnd;
    assert |SourceEnd| > 0 && OneLine(SourceEnd) && SourceEnd[|SourceEnd| - 1] == ')';
    assert quoting[|quoting| - 1] == ')' && quoting[0] == topic[0];
    var reqs := [Request(learner, quoting), Request(learner, topic)];
    TwoTold(learner, quoting, topic);
    FilesAreListings(naming, lower, reqs, [0, 1], learner);
    SecondIsLost(Directory(naming, lower, reqs, [0, 1], learner), learner, [Told(quoting, 1), Told(topic, 2)]);
  }

  // --- terms ----------------------------------------------------------------------------------------

  function Numbers(ts: seq<Told>): seq<nat> { seq(|ts|, k requires 0 <= k < |ts| => ts[k].no) }

  /** The topics and the numbers of recorded lessons are those of the learner's own course. */
  ghost predicate OwnTold(ts: seq<Told>, own: seq<string>) {
    forall k :: 0 <= k < |ts| ==> 1 <= ts[k].no <= |own| && ts[k].topic == TopicOrDefault(own[ts[k].no - 1])
  }

  lemma {:induction false} TellingsAreOwn(reqs: seq<Request>, order: seq<nat>, learner: string)
    requires Indices(reqs, order)
    ensures OwnTold(Tellings(reqs, order, learner), Own(reqs, learner))
  {
    if order != [] {
      var i := order[|order| - 1];
      TellingsAreOwn(reqs, order[..|order| - 1], learner);
      TopicIsOwn(reqs, i);
    }
  }

  lemma {:induction false} NumbersAreRecorded(reqs: seq<Request>, order: seq<nat>, learner: string)
    requires Indices(reqs, order)
    ensures AsSet(Numbers(Tellings(reqs, order, learner))) == Recorded(reqs, order, learner)
  {
    if order == [] {
      assert AsSet(Numbers([])) == {};
    } else {
      var before, i := order[..|order| - 1], order[|order| - 1];
      NumbersAreRecorded(reqs, before, learner);
      RecordedSnoc(reqs, order, learner);
      NumbersSnoc(Tellings(reqs, before, learner), Told(TopicOrDefault(reqs[i].topic), Number(reqs, i)));
    }
  }

  lemma NumbersSnoc(was: seq<Told>, t: Told)
    ensures AsSet(Numbers(was + [t])) == AsSet(Numbers(was)) + {t.no}
  {
    assert Numbers(was + [t]) == Numbers(was) + [t.no];
  }

  lemma TopicIsOwn(reqs: seq<Request>, i: nat)
    requires i < |reqs|
    ensures var own := Own(reqs, reqs[i].learner);
            1 <= Number(reqs, i) <= |own| && own[Number(reqs, i) - 1] == reqs[i].topic
  {
    var learner := reqs[i].learner;
    OwnGrows(reqs, learner, i + 1);
    OwnMoves(reqs[..i + 1], learner);
    assert reqs[..i + 1][i] == reqs[i];
  }

  lemma GlossedInjective(s: string, m: nat, t: string, n: nat)
    ensures Glossed(s, m) == Glossed(t, n) <==> s == t && m == n
  {
    var f, g := Focus(s, m), Focus(t, n);
    GlossedIs(s, m);
    GlossedIs(t, n);
    if Glossed(s, m) == Glossed(t, n) {
      assert |f| == |g|;
      assert Glossed(s, m)[4..4 + |f|] == f && Glossed(t, n)[4..4 + |g|] == g;
      FocusInjective(s, m, t, n);
    }
  }

  lemma TermsAreBullets(ts: seq<Told>)
    requires OneLineTopics(ts)
    ensures AllBullets(TermsTold(ts))
  {
    forall k | 0 <= k < |ts| ensures OneLine(TermsTold(ts)[k]) && IsBullet(TermsTold(ts)[k]) {
      GlossedIs(ts[k].topic, ts[k].no);
      GlossedIsOneLine(ts[k].topic, ts[k].no);
    }
  }

  /** Within one course the number of a lesson tells its term. */
  lemma TermsAreNumbered(ts: seq<Told>, own: seq<string>)
    requires OwnTold(ts, own)
    ensures |AsSet(TermsTold(ts))| == |AsSet(Numbers(ts))|
  {
    var lines, nos := TermsTold(ts), Numbers(ts);
    forall i, j | 0 <= i < |ts| && 0 <= j < |ts| ensures lines[i] == lines[j] <==> nos[i] == nos[j] {
      GlossedInjective(ts[i].topic, ts[i].no, ts[j].topic, ts[j].no);
    }
    SameDistinct(lines, nos);
  }

  // --- which terms are lost ---------------------------------------------------------------------

  /** The lesson was not told before. */
  ghost predicate NewNumber(ts: seq<Told>, j: nat)
    requires j < |ts|
  {
    forall i :: 0 <= i < j ==> ts[i].no != ts[j].no
  }

  /** Neither the learner's name nor an earlier topic holds the line of a lesson that is told for the first time. */
  ghost predicate NoTermSwallowed(learner: string, ts: seq<Told>) {
    forall j :: 0 <= j < |ts| && NewNumber(ts, j) ==> TermIsClear(learner, ts, j)
  }

  ghost predicate TermIsClear(learner: string, ts: seq<Told>, j: nat)
    requires j < |ts|
  {
    && !Includes(learner, Glossed(ts[j].topic, ts[j].no))
    && forall i :: 0 <= i < j ==> !TermSwallows(ts[i].topic, ts[i].no, ts[j].topic, ts[j].no)
  }

  lemma TermEnds(topic: string, n: nat)
    ensures var line := Glossed(topic, n); |line| > 0 && line[0] == '-' && line[|line| - 1] == '。'
  {
    GlossedIs(topic, n);
    assert TermEnd[|TermEnd| - 1] == '。' && TermStart[0] == '-';
  }

  /** Around the learner's name a heading has neither the first nor the last character of a term line. */
  lemma HeadingAround(learner: string, k: nat)
    requires k < |Heading(GlossaryHeader(learner))[0]| && !(2 <= k < 2 + |learner|)
    ensures Heading(GlossaryHeader(learner))[0][k] != '-' && Heading(GlossaryHeader(learner))[0][k] != '。'
  {
    var end := " · 术语表 (GLOSSARY)";
    assert forall i :: 0 <= i < |end| ==> end[i] != '-' && end[i] != '。';
    assert Heading(GlossaryHeader(learner))[0] == ['#', ' '] + learner + end;
  }

  lemma HeadingHolds(learner: string, topic: string, n: nat)
    ensures Contained(Heading(GlossaryHeader(learner)), Glossed(topic, n)) <==> Includes(learner, Glossed(topic, n))
  {
    var heading, line := Heading(GlossaryHeader(learner)), Glossed(topic, n);
    var text, end := heading[0], " · 术语表 (GLOSSARY)";
    TermEnds(topic, n);
    assert text == "# " + learner + end;
    assert !Includes("", line);
    if Includes(text, line) {
      var i :| 0 <= i <= |text| - |line| && OccursAt(text, line, i);
      OccursChar(text, line, i, 0);
      OccursChar(text, line, i, |line| - 1);
      if !(2 <= i < 2 + |learner|) { HeadingAround(learner, i); }
      if i + |line| > 2 + |learner| { HeadingAround(learner, i + |line| - 1); }
      InsideOccurs("# ", end, learner, line, i);
      assert OccursAt(learner, line, i - 2);
    }
    if Includes(learner, line) { InsideIsIncluded("# ", learner, end, line); }
  }

  lemma TermClearIff(learner: string, ts: seq<Told>, j: nat)
    requires j < |ts| && NewNumber(ts, j)
    ensures Clear(Heading(GlossaryHeader(learner)), TermsTold(ts)[..j], TermsTold(ts)[j])
            <==> TermIsClear(learner, ts, j)
  {
    var lines := TermsTold(ts);
    HeadingHolds(learner, ts[j].topic, ts[j].no);
    forall i | 0 <= i < j
      ensures Includes(lines[..j][i], lines[j]) <==> TermSwallows(ts[i].topic, ts[i].no, ts[j].topic, ts[j].no)
    {
      GlossedSwallowIff(ts[i].topic, ts[i].no, ts[j].topic, ts[j].no);
    }
  }

  lemma NewLineIsNewNumber(ts: seq<Told>, own: seq<string>, j: nat)
    requires OwnTold(ts, own) && j < |ts|
    ensures TermsTold(ts)[j] !in TermsTold(ts)[..j] <==> NewNumber(ts, j)
  {
    var lines := TermsTold(ts);
    forall i | 0 <= i < j ensures lines[..j][i] == lines[j] <==> ts[i].no == ts[j].no {
      GlossedInjective(ts[i].topic, ts[i].no, ts[j].topic, ts[j].no);
    }
  }

  lemma NothingLostIsNoTermSwallowed(learner: string, ts: seq<Told>, own: seq<string>)
    requires OwnTold(ts, own)
    ensures NothingLost(Heading(GlossaryHeader(learner)), TermsTold(ts)) <==> NoTermSwallowed(learner, ts)
  {
    var heading, lines := Heading(GlossaryHeader(learner)), TermsTold(ts);
    forall j | 0 <= j < |ts|
      ensures lines[j] !in lines[..j] <==> NewNumber(ts, j)
      ensures NewNumber(ts, j) ==> (Clear(heading, lines[..j], lines[j]) <==> TermIsClear(learner, ts, j))
    {
      NewLineIsNewNumber(ts, own, j);
      if NewNumber(ts, j) { TermClearIff(learner, ts, j); }
    }
  }

  lemma TermsTotal(ws: Workspace, learner: string, ts: seq<Told>, own: seq<string>)
    requires Lists(ws, learner, ts) && OneLine(learner) && OneLineTopics(ts) && OwnTold(ts, own)
    ensures var distinct, total := |AsSet(Numbers(ts))|, CountBullets(ws.glossary);
            total <= distinct && (total == distinct <==> NoTermSwallowed(learner, ts))
  {
    HeadersAreOneLine(learner);
    TermsAreBullets(ts);
    TotalIff(ws.glossary, GlossaryHeader(learner), TermsTold(ts));
    TermsAreNumbered(ts, own);
    NothingLostIsNoTermSwallowed(learner, ts, own);
  }

  /**
   * For any course of a learner, recorded in any order and however often: GLOSSARY.md lists as
   * many terms as there are distinct recorded lessons if and only if neither the learner's name nor
   * an earlier topic holds the line of a new lesson.
   */
  lemma TermsListedOnceIff(naming: Naming, lower: char -> char, reqs: seq<Request>, order: seq<nat>, learner: string)
    requires Indices(reqs, order) && OneLine(learner) && OneLineTopics(Tellings(reqs, order, learner))
    ensures var total := CountBullets(Directory(naming, lower, reqs, order, learner).glossary);
            && total <= |Recorded(reqs, order, learner)|
            && (total == |Recorded(reqs, order, learner)| <==>
                NoTermSwallowed(learner, Tellings(reqs, order, learner)))
  {
    FilesAreListings(naming, lower, reqs, order, learner);
    TellingsAreOwn(reqs, order, learner);
    NumbersAreRecorded(reqs, order, learner);
    TermsTotal(Directory(naming, lower, reqs, order, learner), learner, Tellings(reqs, order, learner),
               Own(reqs, learner));
  }

  /** In particular every recorded lesson has its term when neither the learner's name nor a topic has a star. */
  lemma EveryTermIsListed(naming: Naming, lower: char -> char, reqs: seq<Request>, order: seq<nat>, learner: string)
    requires Indices(reqs, order) && OneLine(learner) && OneLineTopics(Tellings(reqs, order, learner))
    requires StarFree(learner)
    requires var ts := Tellings(reqs, order, learner); forall k :: 0 <= k < |ts| ==> StarFree(ts[k].topic)
    ensures CountBullets(Directory(naming, lower, reqs, order, learner).glossary) == |Recorded(reqs, order, learner)|
  {
    TermsListedOnceIff(naming, lower, reqs, order, learner);
    StarFreeSwallowNothing(learner, Tellings(reqs, order, learner));
  }

  lemma StarFreeSwallowNothing(learner: string, ts: seq<Told>)
    requires StarFree(learner) && forall k :: 0 <= k < |ts| ==> StarFree(ts[k].topic)
    ensures NoTermSwallowed(learner, ts)
  {
    forall j | 0 <= j < |ts| && NewNumber(ts, j) ensures TermIsClear(learner, ts, j) {
      var line := Glossed(ts[j].topic, ts[j].no);
      GlossedIs(ts[j].topic, ts[j].no);
      assert line[2] == '*';
      if Includes(learner, line) { CharCarries(learner, line, '*'); }
      forall i | 0 <= i < j ensures !TermSwallows(ts[i].topic, ts[i].no, ts[j].topic, ts[j].no) {
        GlossedSwallow(ts[i].topic, ts[i].no, ts[j].topic, ts[j].no);
        GlossedSwallowIff(ts[i].topic, ts[i].no, ts[j].topic, ts[j].no);
      }
    }
  }
}
