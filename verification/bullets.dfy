/** Files that accumulate one line after another, and what a substring test does to their lines. */
module Bullets {
  import opened Options
  import opened Text

  ghost predicate OneLine(s: string) { forall i :: 0 <= i < |s| ==> s[i] != '\n' }

  // --- lines ----------------------------------------------------------------------------------

  /** `text.split('\n')`. */
  function Lines(text: string): (r: seq<string>)
    ensures r != []
  {
    if text == "" then [""]
    else
      var before, c := Lines(text[..|text| - 1]), text[|text| - 1];
      if c == '\n' then before + [""] else before[..|before| - 1] + [before[|before| - 1] + [c]]
  }

  function Joined(lines: seq<string>): string
    requires lines != []
  {
    if |lines| == 1 then lines[0] else Joined(lines[..|lines| - 1]) + "\n" + lines[|lines| - 1]
  }

  function Last(lines: seq<string>): string
    requires lines != []
  {
    lines[|lines| - 1]
  }

  function Front(lines: seq<string>): seq<string>
    requires lines != []
  {
    lines[..|lines| - 1]
  }

  lemma JoinedLonger(lines: seq<string>, s: string)
    requires lines != []
    ensures Joined(Front(lines) + [Last(lines) + s]) == Joined(lines) + s
  {
    var more := Front(lines) + [Last(lines) + s];
    assert more[..|more| - 1] == Front(lines);
    if |lines| > 1 {
      assert Joined(lines) == Joined(Front(lines)) + "\n" + Last(lines);
      assert Joined(more) == Joined(Front(lines)) + "\n" + (Last(lines) + s);
    }
  }

  lemma JoinedMore(lines: seq<string>)
    requires lines != []
    ensures Joined(lines + [""]) == Joined(lines) + "\n"
  {
    assert (lines + [""])[..|lines|] == lines;
  }

  ghost predicate OneLines(lines: seq<string>) { forall k :: 0 <= k < |lines| ==> OneLine(lines[k]) }

  lemma LinesSnoc(text: string, c: char)
    ensures Lines(text + [c]) ==
            if c == '\n' then Lines(text) + [""] else Front(Lines(text)) + [Last(Lines(text)) + [c]]
  {
    assert (text + [c])[..|text|] == text;
  }

  /** Each piece of a split text is one line. */
  lemma {:induction false} LinesAreLines(text: string)
    ensures OneLines(Lines(text))
  {
    if text != "" {
      var t, c := text[..|text| - 1], text[|text| - 1];
      assert text == t + [c];
      LinesAreLines(t);
      LinesSnoc(t, c);
      assert OneLine(Last(Lines(t)));
    }
  }

  /** Splitting gives one-line pieces that join to the text again. */
  lemma {:induction false} LinesJoin(text: string)
    ensures Joined(Lines(text)) == text && OneLines(Lines(text))
  {
    LinesAreLines(text);
    if text != "" {
      var t, c := text[..|text| - 1], text[|text| - 1];
      assert text == t + [c];
      LinesJoin(t);
      LinesSnoc(t, c);
      if c == '\n' { JoinedMore(Lines(t)); } else { JoinedLonger(Lines(t), [c]); }
    }
  }

  lemma {:induction false} LinesAppend(text: string, s: string)
    requires OneLine(s)
    ensures Lines(text + s) == Front(Lines(text)) + [Last(Lines(text)) + s]
  {
    if s == "" {
      assert text + s == text;
      assert Last(Lines(text)) + s == Last(Lines(text));
    } else {
      var t, c := s[..|s| - 1], s[|s| - 1];
      assert text + s == text + t + [c] && t + [c] == s;
      LinesAppend(text, t);
      LinesSnoc(text + t, c);
      assert Last(Lines(text)) + t + [c] == Last(Lines(text)) + s;
      assert Front(Front(Lines(text)) + [Last(Lines(text)) + t]) == Front(Lines(text));
    }
  }

  ghost predicate EndsWith(text: string, part: string) {
    |part| <= |text| && text[|text| - |part|..] == part
  }

  /** Two texts that end alike go on ending alike. */
  lemma EndsAlike(t: string, u: string, c: char, part: string)
    requires part != "" && (EndsWith(t, part[..|part| - 1]) <==> EndsWith(u, part[..|part| - 1]))
    ensures EndsWith(t + [c], part) <==> EndsWith(u + [c], part)
  {
    EndsSnoc(t, c, part);
    EndsSnoc(u, c, part);
  }

  lemma NoEndBehindBreak(t: string, part: string)
    requires OneLine(part)
    ensures EndsWith(t + "\n", part) <==> EndsWith("", part)
  {
    if part != "" { EndsSnoc(t, '\n', part); }
  }

  /** The last line of a text is what its end looks like, up to a line feed. */
  lemma {:induction false} LastLineEnds(text: string, part: string)
    requires OneLine(part)
    ensures EndsWith(text, part) <==> EndsWith(Last(Lines(text)), part)
  {
    if text != "" {
      var t, c := text[..|text| - 1], text[|text| - 1];
      assert text == t + [c];
      LinesSnoc(t, c);
      if c == '\n' {
        NoEndBehindBreak(t, part);
      } else if part != "" {
        LastLineEnds(t, part[..|part| - 1]);
        EndsAlike(t, Last(Lines(t)), c, part);
      }
    }
  }

  lemma EndIsIncluded(text: string, part: string)
    requires EndsWith(text, part)
    ensures Includes(text, part)
  {
    assert OccursAt(text, part, |text| - |part|);
  }

  lemma EndsSnoc(text: string, c: char, part: string)
    requires part != ""
    ensures EndsWith(text + [c], part) <==> EndsWith(text, part[..|part| - 1]) && c == part[|part| - 1]
  {
    var p, t := part[..|part| - 1], text + [c];
    if |part| <= |t| {
      assert t[|t| - |part|..] == text[|text| - |p|..] + [c];
      assert part == p + [part[|part| - 1]];
      assert (text[|text| - |p|..] + [c])[..|p|] == text[|text| - |p|..];
    }
  }

  /** A part of a text is a part of all but its last character, or at its end. */
  lemma IncludesSnoc(text: string, c: char, part: string)
    ensures Includes(text + [c], part) <==> Includes(text, part) || EndsWith(text + [c], part)
  {
    var t := text + [c];
    if Includes(t, part) {
      var i :| 0 <= i <= |t| - |part| && OccursAt(t, part, i);
      if i + |part| <= |text| {
        assert text[i..i + |part|] == t[i..i + |part|];
        assert OccursAt(text, part, i);
      }
    }
    if Includes(text, part) { IncludesPrefix(text, [c], part); }
    if EndsWith(t, part) { assert OccursAt(t, part, |t| - |part|); }
  }

  ghost predicate Contained(lines: seq<string>, part: string) {
    exists k :: 0 <= k < |lines| && Includes(lines[k], part)
  }

  lemma ContainedSnoc(lines: seq<string>, last: string, part: string)
    ensures Contained(lines + [last], part) <==> Contained(lines, part) || Includes(last, part)
  {
    var more := lines + [last];
    if Contained(lines, part) {
      var k :| 0 <= k < |lines| && Includes(lines[k], part);
      assert more[k] == lines[k];
    }
    assert more[|lines|] == last;
  }

  /** For one line, a test on the whole text is a test on each of its lines. */
  lemma {:induction false} IncludesIff(text: string, line: string)
    requires OneLine(line)
    ensures Includes(text, line) <==> Contained(Lines(text), line)
  {
    if text == "" {
      assert Lines(text)[0] == text;
    } else {
      var t, c := text[..|text| - 1], text[|text| - 1];
      var before := Lines(t);
      assert text == t + [c];
      IncludesIff(t, line);
      IncludesSnoc(t, c, line);
      LastLineEnds(text, line);
      if c == '\n' {
        ContainedSnoc(before, "", line);
        EmptyIncludes(line);
      } else {
        assert before == Front(before) + [Last(before)];
        ContainedSnoc(Front(before), Last(before), line);
        ContainedSnoc(Front(before), Last(before) + [c], line);
        IncludesSnoc(Last(before), c, line);
      }
    }
  }

  lemma EmptyIncludes(line: string)
    ensures Includes("", line) <==> EndsWith("", line)
  {
    if line == "" { assert OccursAt("", line, 0); }
  }

  // --- appending a line -------------------------------------------------------------------------

  function Body(file: Option<string>, header: string): string {
    match file case Some(text) => text case None => "# " + header + "\n\n"
  }

  function EndLine(text: string): string {
    if text != "" && text[|text| - 1] == '\n' then text else text + "\n"
  }

  /** `appendUnique`: the line is left out if it occurs anywhere in the text. */
  function AppendUnique(file: Option<string>, header: string, line: string): Option<string> {
    var body := Body(file, header);
    if Includes(body, line) then file else Some(EndLine(body) + line + "\n")
  }

  predicate IsBullet(line: string) { "- " <= line }

  lemma BulletIs(line: string)
    ensures IsBullet(line) <==> |line| >= 2 && line[0] == '-' && line[1] == ' '
  {
    assert IsBullet(line) ==> line[..2] == "- ";
  }

  function Bulleted(lines: seq<string>): nat {
    if lines == [] then 0
    else Bulleted(lines[..|lines| - 1]) + (if IsBullet(lines[|lines| - 1]) then 1 else 0)
  }

  /** `countBullets`. */
  function CountBullets(file: Option<string>): nat {
    match file case None => 0 case Some(text) => Bulleted(Lines(text))
  }

  /** The file is still there, and what it said is where it was. */
  predicate Extends(before: Option<string>, after: Option<string>) {
    before.Some? ==> after.Some? && before.value <= after.value
  }

  /** The line is in the file, or was already in its heading. */
  predicate Holds(file: Option<string>, header: string, line: string) { Includes(Body(file, header), line) }

  lemma AppendHolds(file: Option<string>, header: string, line: string)
    ensures var after := AppendUnique(file, header, line);
            && Holds(after, header, line) && Extends(file, after)
            && AppendUnique(after, header, line) == after
  {
    var body := Body(file, header);
    if !Includes(body, line) {
      var text := EndLine(body) + line + "\n";
      assert text[|EndLine(body)|..|EndLine(body)| + |line|] == line;
      assert OccursAt(text, line, |EndLine(body)|);
    }
  }

  lemma AppendKeeps(file: Option<string>, header: string, line: string, other: string)
    requires Holds(file, header, other)
    ensures Holds(AppendUnique(file, header, line), header, other)
  {
    var body := Body(file, header);
    if !Includes(body, line) {
      var text := EndLine(body) + line + "\n";
      assert body <= text;
      IncludesPrefix(body, text[|body|..], other);
      assert text == body + text[|body|..];
    }
  }

  lemma {:induction false} PrefixHasFewer(text: string, longer: string)
    requires text <= longer
    ensures Bulleted(Lines(text)) <= Bulleted(Lines(longer))
    decreases |longer|
  {
    if |text| < |longer| {
      var t, c := longer[..|longer| - 1], longer[|longer| - 1];
      PrefixHasFewer(text, t);
      var before := Lines(t);
      if c == '\n' {
        assert (before + [""])[..|before|] == before;
      } else {
        assert Lines(longer)[..|before| - 1] == before[..|before| - 1];
      }
    } else {
      assert text == longer;
    }
  }

  lemma BulletsNeverFewer(before: Option<string>, after: Option<string>)
    requires Extends(before, after)
    ensures CountBullets(before) <= CountBullets(after)
  {
    if before.Some? { PrefixHasFewer(before.value, after.value); }
  }

  // --- the entries of a file ----------------------------------------------------------------------

  /** The lines of a file, all of them ended. */
  function Entries(text: string): seq<string> { Front(Lines(EndLine(text))) }

  lemma EndedLines(text: string)
    ensures Lines(EndLine(text)) == Entries(text) + [""]
    ensures Lines(text) == Entries(text) || Lines(text) == Entries(text) + [""]
  {
    if text == "" || text[|text| - 1] != '\n' {
      assert EndLine(text)[..|text|] == text;
    }
  }

  /** Which line of a file, if any, holds a non-empty line as a part. */
  lemma EntriesInclude(text: string, line: string)
    requires OneLine(line) && line != ""
    ensures Includes(text, line) <==> Contained(Entries(text), line)
  {
    IncludesIff(text, line);
    EndedLines(text);
    ContainedSnoc(Entries(text), "", line);
    EmptyIncludes(line);
  }

  lemma EntriesBulleted(text: string)
    ensures Bulleted(Entries(text)) == Bulleted(Lines(text))
  {
    EndedLines(text);
    assert (Entries(text) + [""])[..|Entries(text)|] == Entries(text);
  }

  function FileEntries(file: Option<string>, header: string): seq<string> { Entries(Body(file, header)) }

  /** The entries with one more line, unless it is part of one of them. */
  ghost function Put(entries: seq<string>, line: string): seq<string> {
    if Contained(entries, line) then entries else entries + [line]
  }

  lemma EndedAppend(text: string, line: string)
    requires OneLine(line)
    ensures Entries(EndLine(text) + line + "\n") == Entries(text) + [line]
  {
    var t := EndLine(text) + line;
    EndedLines(text);
    LinesAppend(EndLine(text), line);
    assert Front(Entries(text) + [""]) == Entries(text);
    assert "" + line == line;
    LinesSnoc(t, '\n');
    assert Front(Entries(text) + [line] + [""]) == Entries(text) + [line];
  }

  /**
   * For every file and every non-empty line: it is appended, as one more entry behind the others,
   * if and only if no line of the file contains it.
   */
  lemma AppendedIff(file: Option<string>, header: string, line: string)
    requires OneLine(line) && line != ""
    ensures var after := AppendUnique(file, header, line);
            && (after == file <==> Contained(FileEntries(file, header), line))
            && FileEntries(after, header) == Put(FileEntries(file, header), line)
  {
    var body := Body(file, header);
    EntriesInclude(body, line);
    EndedAppend(body, line);
    if !Includes(body, line) { AppendHolds(file, header, line); }
  }

  /** A line is lost, and so not listed, exactly if it is a proper part of a line and no line itself. */
  lemma LostIff(file: Option<string>, header: string, line: string)
    requires OneLine(line) && line != ""
    ensures var entries := FileEntries(file, header);
            line !in FileEntries(AppendUnique(file, header, line), header) <==>
              line !in entries && exists k :: 0 <= k < |entries| && entries[k] != line && Includes(entries[k], line)
  {
    AppendedIff(file, header, line);
  }

  // --- a series of lines --------------------------------------------------------------------------

  function AddLines(file: Option<string>, header: string, lines: seq<string>): Option<string> {
    if lines == [] then file
    else AppendUnique(AddLines(file, header, lines[..|lines| - 1]), header, lines[|lines| - 1])
  }

  ghost function PutAll(entries: seq<string>, lines: seq<string>): seq<string> {
    if lines == [] then entries else Put(PutAll(entries, lines[..|lines| - 1]), lines[|lines| - 1])
  }

  ghost predicate AllBullets(lines: seq<string>) {
    forall j :: 0 <= j < |lines| ==> OneLine(lines[j]) && IsBullet(lines[j])
  }

  lemma {:induction false} AddLinesPuts(file: Option<string>, header: string, lines: seq<string>)
    requires AllBullets(lines)
    ensures FileEntries(AddLines(file, header, lines), header) == PutAll(FileEntries(file, header), lines)
  {
    if lines != [] {
      AddLinesPuts(file, header, lines[..|lines| - 1]);
      AppendedIff(AddLines(file, header, lines[..|lines| - 1]), header, lines[|lines| - 1]);
    }
  }

  /** The lines without repetitions, in the order of their first occurrences. */
  ghost function Firsts<T>(lines: seq<T>): seq<T> {
    if lines == [] then []
    else
      var before, last := lines[..|lines| - 1], lines[|lines| - 1];
      if last in before then Firsts(before) else Firsts(before) + [last]
  }

  ghost function AsSet<T>(lines: seq<T>): set<T> { set x | x in lines }

  lemma {:induction false} FirstsAreDistinct<T>(lines: seq<T>)
    ensures |Firsts(lines)| == |AsSet(lines)|
    ensures forall x :: x in Firsts(lines) <==> x in lines
  {
    if lines != [] {
      var before, last := lines[..|lines| - 1], lines[|lines| - 1];
      FirstsAreDistinct(before);
      assert lines == before + [last];
      AsSetSnoc(before, last);
    }
  }

  /** Two series that repeat themselves at the same places have as many distinct members. */
  lemma {:induction false} SameDistinct<S, T>(xs: seq<S>, ys: seq<T>)
    requires |xs| == |ys| && forall i, j :: 0 <= i < |xs| && 0 <= j < |xs| ==> (xs[i] == xs[j] <==> ys[i] == ys[j])
    ensures |AsSet(xs)| == |AsSet(ys)|
  {
    if xs != [] {
      var n := |xs| - 1;
      SameDistinct(xs[..n], ys[..n]);
      AsSetSnoc(xs[..n], xs[n]);
      AsSetSnoc(ys[..n], ys[n]);
      assert xs == xs[..n] + [xs[n]] && ys == ys[..n] + [ys[n]];
      assert xs[n] in xs[..n] <==> ys[n] in ys[..n] by {
        if xs[n] in xs[..n] { var k :| 0 <= k < n && xs[..n][k] == xs[n]; assert ys[..n][k] == ys[n]; }
        if ys[n] in ys[..n] { var k :| 0 <= k < n && ys[..n][k] == ys[n]; assert xs[..n][k] == xs[n]; }
      }
    }
  }

  lemma AsSetSnoc<T>(xs: seq<T>, x: T)
    ensures |AsSet(xs + [x])| == |AsSet(xs)| + if x in xs then 0 else 1
  {
    assert AsSet(xs + [x]) == AsSet(xs) + {x};
    assert x in AsSet(xs) <==> x in xs;
  }

  /** Each line that comes for the first time is part of no entry and of no earlier line. */
  ghost predicate NothingLost(entries: seq<string>, lines: seq<string>) {
    forall j :: 0 <= j < |lines| && lines[j] !in lines[..j] ==> Clear(entries, lines[..j], lines[j])
  }

  ghost predicate Clear(entries: seq<string>, before: seq<string>, line: string) {
    !Contained(entries, line) && !Contained(before, line)
  }

  lemma IncludesTransitive(a: string, b: string, c: string)
    requires Includes(a, b) && Includes(b, c)
    ensures Includes(a, c)
  {
    var i :| 0 <= i <= |a| - |b| && OccursAt(a, b, i);
    var j :| 0 <= j <= |b| - |c| && OccursAt(b, c, j);
    var part := a[i + j..i + j + |c|];
    forall k | 0 <= k < |c| ensures part[k] == c[k] {
      assert b[j..j + |c|][k] == b[j + k] && a[i..i + |b|][j + k] == a[i + (j + k)];
    }
    assert part == c;
    assert OccursAt(a, c, i + j);
  }

  lemma ContainedTransitive(lines: seq<string>, b: string, c: string)
    requires Contained(lines, b) && Includes(b, c)
    ensures Contained(lines, c)
  {
    var k :| 0 <= k < |lines| && Includes(lines[k], b);
    IncludesTransitive(lines[k], b, c);
  }

  lemma PutContains(entries: seq<string>, line: string, part: string)
    ensures Contained(Put(entries, line), part) <==> Contained(entries, part) || Includes(line, part)
  {
    ContainedSnoc(entries, line, part);
    if Contained(entries, line) && Includes(line, part) { ContainedTransitive(entries, line, part); }
  }

  /** A part of a listing is a part of what it began with or of a line that was offered, kept or not. */
  lemma {:induction false} PutAllContains(entries: seq<string>, lines: seq<string>, part: string)
    ensures Contained(PutAll(entries, lines), part) <==> Contained(entries, part) || Contained(lines, part)
  {
    if lines != [] {
      var before, last := lines[..|lines| - 1], lines[|lines| - 1];
      PutAllContains(entries, before, part);
      PutContains(PutAll(entries, before), last, part);
      assert lines == before + [last];
      ContainedSnoc(before, last, part);
    }
  }

  lemma NothingLostSnoc(entries: seq<string>, before: seq<string>, last: string)
    ensures NothingLost(entries, before + [last]) <==>
              NothingLost(entries, before) && (last !in before ==> Clear(entries, before, last))
  {
    var lines := before + [last];
    forall j | 0 <= j <= |before|
      ensures lines[..j] == before[..j] && lines[j] == if j < |before| then before[j] else last
    {}
    assert before[..|before|] == before;
    if NothingLost(entries, lines) {
      forall j | 0 <= j < |before| && before[j] !in before[..j] ensures Clear(entries, before[..j], before[j]) {
        assert lines[j] == before[j] && lines[..j] == before[..j];
      }
      assert lines[|before|] == last && lines[..|before|] == before;
    }
  }

  lemma RepeatedIsContained(lines: seq<string>, line: string)
    requires line in lines
    ensures Contained(lines, line)
  {
    var k :| 0 <= k < |lines| && lines[k] == line;
    assert OccursAt(line, line, 0);
  }

  /**
   * For every series of lines: each distinct line is listed exactly once, in the order of the first
   * occurrences, if and only if none is part of an earlier one or of what was there before.
   */
  lemma {:induction false} ListedOnceIff(entries: seq<string>, lines: seq<string>)
    ensures PutAll(entries, lines) == entries + Firsts(lines) <==> NothingLost(entries, lines)
    ensures |PutAll(entries, lines)| <= |entries| + |Firsts(lines)|
    ensures |PutAll(entries, lines)| == |entries| + |Firsts(lines)| <==> NothingLost(entries, lines)
  {
    if lines == [] {
      assert entries + [] == entries;
    } else {
      var before, last := lines[..|lines| - 1], lines[|lines| - 1];
      ListedOnceIff(entries, before);
      PutAllContains(entries, before, last);
      NothingLostSnoc(entries, before, last);
      assert lines == before + [last];
      if last in before { RepeatedIsContained(before, last); }
      assert entries + Firsts(before) + [last] == entries + (Firsts(before) + [last]);
    }
  }

  /** In a file: the distinct lines behind what it held, once each, exactly if nothing is lost. */
  lemma FileListsOnceIff(file: Option<string>, header: string, lines: seq<string>)
    requires AllBullets(lines)
    ensures var entries, after := FileEntries(file, header), FileEntries(AddLines(file, header, lines), header);
            after == entries + Firsts(lines) <==> NothingLost(entries, lines)
  {
    AddLinesPuts(file, header, lines);
    ListedOnceIff(FileEntries(file, header), lines);
  }

  lemma {:induction false} PutAllBulleted(entries: seq<string>, lines: seq<string>)
    requires AllBullets(lines)
    ensures Bulleted(PutAll(entries, lines)) == Bulleted(entries) + |PutAll(entries, lines)| - |entries|
  {
    if lines != [] {
      var soFar := PutAll(entries, lines[..|lines| - 1]);
      PutAllBulleted(entries, lines[..|lines| - 1]);
      assert (soFar + [lines[|lines| - 1]])[..|soFar|] == soFar;
    }
  }

  function Heading(header: string): seq<string> { ["# " + header, ""] }

  lemma HeadingLines(first: string)
    requires OneLine(first)
    ensures Lines(first + "\n\n") == [first, "", ""]
  {
    LinesAppend("", first);
    assert "" + first == first && Lines(first) == [first];
    LinesSnoc(first, '\n');
    LinesSnoc(first + "\n", '\n');
    assert first + "\n\n" == first + "\n" + "\n";
  }

  lemma HeadingEntries(header: string)
    requires OneLine(header)
    ensures FileEntries(None, header) == Heading(header) && Bulleted(Heading(header)) == 0
  {
    var first := "# " + header;
    HeadingLines(first);
    assert EndLine(first + "\n\n") == first + "\n\n";
    assert first[0] == '#';
    assert Bulleted([first]) == 0 by { assert [first][..0] == []; }
    assert Heading(header)[..1] == [first];
  }

  /** A file that is created with its heading has as many bullets as distinct lines, exactly if nothing is lost. */
  lemma TotalIff(file: Option<string>, header: string, lines: seq<string>)
    requires OneLine(header) && AllBullets(lines) && FileEntries(file, header) == PutAll(Heading(header), lines)
    ensures CountBullets(file) <= |AsSet(lines)|
    ensures CountBullets(file) == |AsSet(lines)| <==> NothingLost(Heading(header), lines)
  {
    HeadingEntries(header);
    ListedOnceIff(Heading(header), lines);
    FirstsAreDistinct(lines);
    PutAllBulleted(Heading(header), lines);
    if file.Some? { EntriesBulleted(file.value); }
  }
}
