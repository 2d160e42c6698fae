/** The two lines the tutor's lessons add to RESOURCES.md and GLOSSARY.md, and when one holds another. */
module TutorLines {
  import opened Text
  import opened Numbers
  import opened Lessons
  import opened Bullets
  import opened Workspaces

  const SourceStart := "- 《"

  /** The line for a topic in RESOURCES.md. */
  function Resource(topic: string): string { SourceLine(PrimarySource(topic)) }

  /** The line for lesson n on a topic in GLOSSARY.md. */
  function Glossed(topic: string, n: nat): string { TermLine(GlossaryFor(topic, n)[0]) }

  lemma ResourceIs(topic: string)
    ensures Resource(topic) == SourceStart + topic + SourceEnd
    ensures IsBullet(Resource(topic)) && (OneLine(topic) ==> OneLine(Resource(topic)))
  {
    assert OneLine(SourceStart) && OneLine(SourceEnd);
  }

  // --- parts of a text with a start and an end ---------------------------------------------------

  lemma OccursChar(text: string, part: string, i: nat, k: nat)
    requires OccursAt(text, part, i) && k < |part|
    ensures text[i + k] == part[k]
  {
    assert text[i..i + |part|][k] == text[i + k];
  }

  /** A part brings its characters along. */
  lemma CharCarries(text: string, part: string, c: char)
    requires Includes(text, part) && c in part
    ensures c in text
  {
    var i :| 0 <= i <= |text| - |part| && OccursAt(text, part, i);
    var k :| 0 <= k < |part| && part[k] == c;
    OccursChar(text, part, i, k);
  }

  lemma NoneCarries(lines: seq<string>, part: string, c: char)
    requires c in part && forall k :: 0 <= k < |lines| ==> c !in lines[k]
    ensures !Contained(lines, part)
  {
    if Contained(lines, part) {
      var k :| 0 <= k < |lines| && Includes(lines[k], part);
      CharCarries(lines[k], part, c);
    }
  }

  lemma OccursPart(text: string, part: string, i: nat, a: nat, b: nat)
    requires OccursAt(text, part, i) && a <= b <= |part|
    ensures OccursAt(text, part[a..b], i + a)
  {
    var found := text[i + a..i + b];
    forall k | 0 <= k < b - a ensures found[k] == part[a..b][k] { OccursChar(text, part, i, a + k); }
    assert found == part[a..b];
  }

  /** A text between a start and an end that cannot overlap themselves. */
  ghost predicate Marked(start: string, end: string) {
    && |start| == 3 && start[0] != start[1] && start[0] != start[2]
    && |end| > 0 && (forall k :: 0 < k < |end| ==> end[k] != end[0])
  }

  /** The earlier text holds the later one with its start, its end or both. */
  ghost predicate Swallows(start: string, end: string, earlier: string, later: string) {
    || EndsWith(earlier, start + later)
    || later + end <= earlier
    || Includes(earlier, start + later + end)
  }

  lemma MadeOf(text: string, a: string, part: string, b: string)
    requires text == a + part + b
    ensures Includes(text, part)
  {
    assert OccursAt(text, part, |a|);
  }

  lemma BackIsContained(start: string, end: string, e: string, l: string)
    requires EndsWith(e, start + l)
    ensures Includes(start + e + end, start + l + end)
  {
    var x := e[..|e| - |start + l|];
    assert e == x + (start + l);
    MadeOf(start + e + end, start + x, start + l + end, "");
  }

  lemma FrontIsContained(start: string, end: string, e: string, l: string)
    requires l + end <= e
    ensures Includes(start + e + end, start + l + end)
  {
    var y := e[|l + end|..];
    assert e == l + end + y;
    MadeOf(start + e + end, "", start + l + end, y + end);
  }

  lemma InnerIsContained(start: string, end: string, e: string, part: string)
    requires Includes(e, part)
    ensures Includes(start + e + end, part)
  {
    var i :| 0 <= i <= |e| - |part| && OccursAt(e, part, i);
    assert e == e[..i] + part + e[i + |part|..];
    MadeOf(start + e + end, start + e[..i], part, e[i + |part|..] + end);
  }

  lemma SwallowedIsContained(start: string, end: string, e: string, l: string)
    requires Swallows(start, end, e, l)
    ensures Includes(start + e + end, start + l + end)
  {
    if EndsWith(e, start + l) {
      BackIsContained(start, end, e, l);
    } else if l + end <= e {
      FrontIsContained(start, end, e, l);
    } else {
      InnerIsContained(start, end, e, start + l + end);
    }
  }

  /** The start is at the start, or is inside the text. */
  lemma StartIsInside(start: string, end: string, e: string, l: string, i: nat)
    requires Marked(start, end) && OccursAt(start + e + end, start + l + end, i)
    ensures i == 0 || i >= 3
  {
    var text, part := start + e + end, start + l + end;
    assert part[0] == start[0];
    if i < 3 {
      assert text[i] == start[i];
      OccursChar(text, part, i, 0);
    }
  }

  /** The end is at the end, or is inside the text. */
  lemma EndIsInside(start: string, end: string, e: string, l: string, i: nat)
    requires Marked(start, end) && OccursAt(start + e + end, start + l + end, i)
    ensures i + |l| == |e| || i + |l| + |end| <= |e|
  {
    var text, part := start + e + end, start + l + end;
    var p := i + 3 + |l|;
    if p < 3 + |e| < p + |end| {
      var k := 3 + |e| - p;
      assert part[3 + |l| + k] == end[k] && text[3 + |e|] == end[0];
      OccursChar(text, part, i, 3 + |l| + k);
    }
  }

  /** What is found inside the text between start and end is found in it alone. */
  lemma InsideOccurs(start: string, end: string, e: string, part: string, i: nat)
    requires OccursAt(start + e + end, part, i) && |start| <= i && i + |part| <= |start| + |e|
    ensures OccursAt(e, part, i - |start|)
  {
    assert (start + e + end)[i..i + |part|] == e[i - |start|..i - |start| + |part|];
  }

  lemma FrontIsInside(start: string, end: string, e: string, l: string)
    requires Marked(start, end) && OccursAt(start + e + end, start + l + end, 0) && |l| + |end| <= |e|
    ensures l + end <= e
  {
    var text, part := start + e + end, start + l + end;
    OccursPart(text, part, 0, 3, |part|);
    assert part[3..|part|] == l + end;
    InsideOccurs(start, end, e, l + end, 3);
  }

  lemma BackIsInside(start: string, end: string, e: string, l: string, i: nat)
    requires Marked(start, end) && OccursAt(start + e + end, start + l + end, i) && 3 <= i && i + |l| == |e|
    ensures EndsWith(e, start + l)
  {
    var text, part := start + e + end, start + l + end;
    OccursPart(text, part, i, 0, 3 + |l|);
    assert part[0..3 + |l|] == start + l;
    InsideOccurs(start, end, e, start + l, i);
  }

  lemma WholeIsSame(start: string, end: string, e: string, l: string)
    requires Marked(start, end) && OccursAt(start + e + end, start + l + end, 0) && |l| == |e|
    ensures e == l
  {
    var text, part := start + e + end, start + l + end;
    OccursPart(text, part, 0, 3, 3 + |l|);
    assert part[3..3 + |l|] == l;
    InsideOccurs(start, end, e, l, 3);
    assert e[0..|l|] == e;
  }

  lemma ContainedIsSwallowed(start: string, end: string, e: string, l: string, i: nat)
    requires Marked(start, end) && OccursAt(start + e + end, start + l + end, i)
    ensures e == l || Swallows(start, end, e, l)
  {
    StartIsInside(start, end, e, l, i);
    EndIsInside(start, end, e, l, i);
    if i == 0 && |l| == |e| {
      WholeIsSame(start, end, e, l);
    } else if i == 0 {
      FrontIsInside(start, end, e, l);
    } else if i + |l| == |e| {
      BackIsInside(start, end, e, l, i);
    } else {
      InsideOccurs(start, end, e, start + l + end, i);
    }
  }

  /** Exactly when one such text is part of another. */
  lemma SwallowIff(start: string, end: string, e: string, l: string)
    requires Marked(start, end)
    ensures Includes(start + e + end, start + l + end) <==> e == l || Swallows(start, end, e, l)
  {
    var text, part := start + e + end, start + l + end;
    if e == l {
      assert OccursAt(text, part, 0);
    } else if Swallows(start, end, e, l) {
      SwallowedIsContained(start, end, e, l);
    } else if Includes(text, part) {
      var i :| 0 <= i <= |text| - |part| && OccursAt(text, part, i);
      ContainedIsSwallowed(start, end, e, l, i);
    }
  }

  lemma SourcesAreMarked()
    ensures Marked(SourceStart, SourceEnd)
  {}

  /** A topic's line is part of another's exactly if they are the same topic or the other one quotes it. */
  lemma ResourceSwallowIff(earlier: string, later: string)
    ensures Includes(Resource(earlier), Resource(later))
            <==> earlier == later || Swallows(SourceStart, SourceEnd, earlier, later)
  {
    SourcesAreMarked();
    ResourceIs(earlier);
    ResourceIs(later);
    SwallowIff(SourceStart, SourceEnd, earlier, later);
  }

  // --- terms --------------------------------------------------------------------------------------

  const TermStart := "- **"
  const TermMiddle := "** — 本课语境里「"
  const TermEnd := "」就是你这一步要弄懂的那一个点。"

  ghost predicate StarFree(s: string) { forall k :: 0 <= k < |s| ==> s[k] != '*' }

  lemma GlossedIs(topic: string, n: nat)
    ensures var f := Focus(topic, n);
            Glossed(topic, n) == TermStart + f + (TermMiddle + f + TermEnd)
    ensures IsBullet(Glossed(topic, n))
  {
    var f := Focus(topic, n);
    assert TermLine(GlossaryFor(topic, n)[0]) == "- **" + f + "** — " + ("本课语境里「" + f + TermEnd);
    assert TermMiddle == "** — " + "本课语境里「";
  }

  lemma FocusParts(topic: string, n: nat)
    ensures Focus(topic, n)[0] == '「'
    ensures OneLine(topic) ==> OneLine(Focus(topic, n))
    ensures StarFree(topic) ==> StarFree(Focus(topic, n))
  {
    var t := NatText(n);
    assert OneLine("「") && OneLine("」的第 ") && OneLine(" 个基础要点");
    assert StarFree("「") && StarFree("」的第 ") && StarFree(" 个基础要点");
    assert forall k :: 0 <= k < |t| ==> '0' <= t[k] <= '9';
  }

  lemma GlossedIsOneLine(topic: string, n: nat)
    requires OneLine(topic)
    ensures OneLine(Glossed(topic, n))
  {
    GlossedIs(topic, n);
    FocusParts(topic, n);
    assert OneLine(TermStart) && OneLine(TermMiddle) && OneLine(TermEnd);
  }

  /** The stars of a term line whose focus has none. */
  lemma Stars(f: string, k: nat)
    requires StarFree(f) && k < |TermStart + f + (TermMiddle + f + TermEnd)|
    ensures (TermStart + f + (TermMiddle + f + TermEnd))[k] == '*' <==> k == 2 || k == 3 || k == 4 + |f| || k == 5 + |f|
  {
    var rest := TermMiddle[2..] + f + TermEnd;
    assert StarFree(TermMiddle[2..]) && StarFree(TermEnd);
    assert StarFree(rest);
    assert TermStart + f + (TermMiddle + f + TermEnd) == "- " + "**" + f + "**" + rest;
  }

  /** A focus without stars is the only one whose line is a part of its line. */
  lemma TermSwallow(f: string, g: string, i: nat)
    requires StarFree(f) && f != "" && g != "" && g[0] == '「'
    requires OccursAt(TermStart + f + (TermMiddle + f + TermEnd), TermStart + g + (TermMiddle + g + TermEnd), i)
    ensures f == g
  {
    var text, part := TermStart + f + (TermMiddle + f + TermEnd), TermStart + g + (TermMiddle + g + TermEnd);
    OccursChar(text, part, i, 2);
    OccursChar(text, part, i, 3);
    OccursChar(text, part, i, 4);
    Stars(f, i + 2);
    Stars(f, i + 3);
    assert text[6 + |f|] == ' ';
    assert i == 0;
    OccursChar(text, part, i, 4 + |g|);
    OccursChar(text, part, i, 5 + |g|);
    Stars(f, 4 + |g|);
    Stars(f, 5 + |g|);
    assert |f| == |g|;
    assert text[4..4 + |f|] == f && part[4..4 + |f|] == g;
  }

  lemma DigitsBehind(a: string, m: string, k: nat)
    requires AllDigits(m) && |a| < k < |a + " " + m|
    ensures (a + " " + m)[k] != ' '
  {
    assert (a + " " + m)[k] == m[k - |a| - 1];
  }

  lemma NumberBehindSpace(a: string, m: string, b: string, n: string)
    requires AllDigits(m) && AllDigits(n) && a + " " + m == b + " " + n
    ensures a == b && m == n
  {
    var s := a + " " + m;
    assert s[|a|] == ' ' && s[|b|] == ' ';
    if |a| < |b| { DigitsBehind(a, m, |b|); }
    if |b| < |a| { DigitsBehind(b, n, |a|); }
    assert s[..|a|] == a && s[|a| + 1..] == m;
  }

  lemma FocusInjective(s: string, m: nat, t: string, n: nat)
    requires Focus(s, m) == Focus(t, n)
    ensures s == t && m == n
  {
    var end := " 个基础要点";
    var a, b := "「" + s + "」的第", "「" + t + "」的第";
    assert Focus(s, m) == a + " " + NatText(m) + end && Focus(t, n) == b + " " + NatText(n) + end;
    assert (a + " " + NatText(m) + end)[..|Focus(s, m)| - |end|] == a + " " + NatText(m);
    assert (b + " " + NatText(n) + end)[..|Focus(s, m)| - |end|] == b + " " + NatText(n);
    NumberBehindSpace(a, NatText(m), b, NatText(n));
    ValueOfNat(m);
    ValueOfNat(n);
    assert a[1..|a| - 3] == s && b[1..|b| - 3] == t;
  }

  /** Below a topic without stars, only the same lesson's line is found. */
  lemma GlossedSwallow(earlier: string, m: nat, later: string, n: nat)
    requires StarFree(earlier)
    ensures Includes(Glossed(earlier, m), Glossed(later, n)) <==> earlier == later && m == n
  {
    var f, g := Focus(earlier, m), Focus(later, n);
    GlossedIs(earlier, m);
    GlossedIs(later, n);
    FocusParts(earlier, m);
    FocusParts(later, n);
    var text, part := Glossed(earlier, m), Glossed(later, n);
    if Includes(text, part) {
      var i :| 0 <= i <= |text| - |part| && OccursAt(text, part, i);
      TermSwallow(f, g, i);
      FocusInjective(earlier, m, later, n);
    }
    if text == part { assert OccursAt(text, part, 0); }
  }

  // --- terms, whatever the topics hold ------------------------------------------------------------

  const Mark := "「"
  const Opening := TermStart + Mark

  function FocusEnd(n: nat): string { "」的第 " + NatText(n) + " 个基础要点" }

  function Between(n: nat): string { FocusEnd(n) + (TermMiddle + Mark) }

  function Closing(n: nat): string { FocusEnd(n) + TermEnd }

  /** The term line between its opening and its closing words: the topic, twice. */
  function Twice(topic: string, n: nat): string { topic + Between(n) + topic }

  lemma Framed(start: string, mark: string, topic: string, end: string, middle: string, close: string)
    ensures var f := mark + topic + end;
            start + f + (middle + f + close) == start + mark + (topic + (end + (middle + mark)) + topic) + (end + close)
  {}

  lemma GlossedFrame(topic: string, n: nat)
    ensures Glossed(topic, n) == Opening + Twice(topic, n) + Closing(n)
  {
    GlossedIs(topic, n);
    Framed(TermStart, Mark, topic, FocusEnd(n), TermMiddle, TermEnd);
    assert Focus(topic, n) == Mark + topic + FocusEnd(n);
  }

  /** The earlier topic, as it stands in its line, holds the later line whole, or begins with all but its opening. */
  ghost predicate TermSwallows(earlier: string, m: nat, later: string, n: nat) {
    || Includes(Twice(earlier, m), Glossed(later, n))
    || Twice(later, n) + Closing(n) <= Twice(earlier, m)
  }

  /** The opening words do not overlap themselves. */
  lemma OpeningInside(text: string, part: string, i: nat)
    requires Opening <= text && Opening <= part && OccursAt(text, part, i)
    ensures i == 0 || i >= 5
  {
    if 0 < i < 5 {
      assert text[i] == Opening[i] && part[0] == Opening[0];
      OccursChar(text, part, i, 0);
    }
  }

  lemma ClosingStops(n: nat)
    ensures var c := Closing(n); |c| > 0 && c[|c| - 1] == '。' && forall k :: 0 <= k < |c| - 1 ==> c[k] != '。'
  {
    var d := NatText(n);
    assert forall k :: 0 <= k < |d| ==> '0' <= d[k] <= '9';
    assert TermEnd[|TermEnd| - 1] == '。' && forall k :: 0 <= k < |TermEnd| - 1 ==> TermEnd[k] != '。';
  }

  /** A part that ends within the closing words ends with them. */
  lemma ClosingInside(front: string, m: nat, head: string, n: nat, i: nat)
    requires OccursAt(front + Closing(m), head + Closing(n), i)
    ensures i + |head + Closing(n)| <= |front| || i + |head + Closing(n)| == |front + Closing(m)|
  {
    var text, part := front + Closing(m), head + Closing(n);
    var p := i + |part| - 1;
    ClosingStops(n);
    ClosingStops(m);
    OccursChar(text, part, i, |part| - 1);
    assert part[|part| - 1] == '。';
    if p >= |front| { assert text[p] == Closing(m)[p - |front|]; }
  }

  /** Texts that end with closing words of the same length behind the number tell the number. */
  lemma ClosingTells(front: string, m: nat, head: string, n: nat)
    requires front + Closing(m) == head + Closing(n)
    ensures m == n
  {
    var a, b := "」的第", " 个基础要点" + TermEnd;
    var x, y := front + a + " " + NatText(m), head + a + " " + NatText(n);
    assert a + " " == "」的第 ";
    assert front + Closing(m) == x + b && head + Closing(n) == y + b;
    assert (x + b)[..|x|] == x && (y + b)[..|y|] == y;
    assert |x| == |y|;
    NumberBehindSpace(front + a, NatText(m), head + a, NatText(n));
    ValueOfNat(m);
    ValueOfNat(n);
  }

  /** A line of another number does not reach the closing words. */
  lemma StopsBefore(front: string, m: nat, head: string, n: nat, i: nat)
    requires m != n && OccursAt(front + Closing(m), head + Closing(n), i)
    ensures i + |head + Closing(n)| <= |front|
  {
    var text, part := front + Closing(m), head + Closing(n);
    ClosingInside(front, m, head, n, i);
    if i + |part| == |text| {
      assert text == text[..i] + part;
      assert text[..i] + part == (text[..i] + head) + Closing(n);
      ClosingTells(front, m, text[..i] + head, n);
    }
  }

  /** Exactly when the term line of another lesson is part of a term line, whatever the topics hold. */
  lemma GlossedSwallowIff(earlier: string, m: nat, later: string, n: nat)
    requires m != n
    ensures Includes(Glossed(earlier, m), Glossed(later, n)) <==> TermSwallows(earlier, m, later, n)
  {
    GlossedFrame(earlier, m);
    GlossedFrame(later, n);
    FrameSwallowIff(Twice(earlier, m), m, Twice(later, n), n);
  }

  lemma FrameSwallowIff(x: string, m: nat, y: string, n: nat)
    requires m != n
    ensures var part := Opening + y + Closing(n);
            Includes(Opening + x + Closing(m), part) <==> Includes(x, part) || y + Closing(n) <= x
  {
    var text, part := Opening + x + Closing(m), Opening + y + Closing(n);
    if Includes(text, part) {
      var i :| 0 <= i <= |text| - |part| && OccursAt(text, part, i);
      FrameIsSwallowed(x, m, y, n, i);
    }
    if Includes(x, part) { InsideIsIncluded(Opening, x, Closing(m), part); }
    if y + Closing(n) <= x {
      FrontIsIncluded(Opening, x, Closing(m), y + Closing(n));
      assert Opening + (y + Closing(n)) == part;
    }
  }

  lemma InsideIsIncluded(start: string, x: string, end: string, part: string)
    requires Includes(x, part)
    ensures Includes(start + x + end, part)
  {
    var i :| 0 <= i <= |x| - |part| && OccursAt(x, part, i);
    assert (start + x + end)[|start| + i..|start| + i + |part|] == x[i..i + |part|];
    assert OccursAt(start + x + end, part, |start| + i);
  }

  lemma FrontIsIncluded(start: string, x: string, end: string, front: string)
    requires front <= x
    ensures Includes(start + x + end, start + front)
  {
    assert (start + x + end)[..|start + front|] == start + front;
    assert OccursAt(start + x + end, start + front, 0);
  }

  lemma FrameIsSwallowed(x: string, m: nat, y: string, n: nat, i: nat)
    requires m != n && OccursAt(Opening + x + Closing(m), Opening + y + Closing(n), i)
    ensures Includes(x, Opening + y + Closing(n)) || y + Closing(n) <= x
  {
    var text, part := Opening + x + Closing(m), Opening + y + Closing(n);
    OpeningInside(text, part, i);
    StopsBefore(Opening + x, m, Opening + y, n, i);
    if i == 0 {
      OccursPart(text, part, 0, 5, |part|);
      InsideOccurs(Opening, Closing(m), x, part[5..|part|], 5);
      assert part[5..|part|] == y + Closing(n);
    } else {
      InsideOccurs(Opening, Closing(m), x, part, i);
      assert OccursAt(x, part, i - 5);
    }
  }
}
