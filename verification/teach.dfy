/** The pure lesson planner: slugs, equal-length quiz options, and one lesson from where the learner is. */
module Teach {
  import opened Text
  import opened Numbers

  // --- file names -----------------------------------------------------------------------

  /** `NNNN-<slug>.md`. */
  function FileName(no: nat, slug: string): string { Padded(NatText(no)) + "-" + slug + ".md" }

  function FirstDash(s: string): nat {
    if s == "" || s[0] == '-' then 0 else 1 + FirstDash(s[1..])
  }

  lemma {:induction false} DashBehind(a: string, x: string)
    requires forall i :: 0 <= i < |a| ==> a[i] != '-'
    ensures FirstDash(a + ("-" + x)) == |a|
  {
    if a != "" {
      assert (a + ("-" + x))[1..] == a[1..] + ("-" + x);
      DashBehind(a[1..], x);
    }
  }

  /** Lessons with different numbers never share a file, whatever their slugs. */
  lemma FileNamesDiffer(m: nat, n: nat, x: string, y: string)
    requires FileName(m, x) == FileName(n, y)
    ensures m == n
  {
    ValueOfNat(m);
    ValueOfNat(n);
    PaddedKeeps(NatText(m));
    PaddedKeeps(NatText(n));
    var a, b := Padded(NatText(m)), Padded(NatText(n));
    assert FileName(m, x) == a + ("-" + (x + ".md"));
    assert FileName(n, y) == b + ("-" + (y + ".md"));
    DashBehind(a, x + ".md");
    DashBehind(b, y + ".md");
    assert FileName(m, x)[..|a|] == a && FileName(n, y)[..|b|] == b;
  }

  predicate IsSeparator(c: char) {
    IsSpace(c) || c == '/' || c == '\\' || c == '.' || c == ',' || c == '，' || c == '。' || c == '-'
  }

  predicate IsAwkward(c: char) {
    || c == '·' || c == ':' || c == '：' || c == '*' || c == '?'
    || c == '"' || c == '<' || c == '>' || c == '|' || c == '-'
  }

  /** Every run of characters that satisfy `sep` becomes one dash. */
  function Collapse(sep: char -> bool, s: string): string {
    if s == "" then ""
    else
      var before := Collapse(sep, s[..|s| - 1]);
      var c := s[|s| - 1];
      if !sep(c) then before + [c]
      else if before != "" && before[|before| - 1] == '-' then before
      else before + "-"
  }

  /** `replace(/^-|-$/g, '')`. */
  function StripDash(s: string): string {
    var a := if s != "" && s[0] == '-' then s[1..] else s;
    if a != "" && a[|a| - 1] == '-' then a[..|a| - 1] else a
  }

  function DashCase(lower: char -> char, s: string): string {
    var t := Trim(s);
    StripDash(Collapse(IsSeparator, seq(|t|, i requires 0 <= i < |t| => lower(t[i]))))
  }

  function SlugForFile(lower: char -> char, title: string, fallback: string): string {
    var safe := StripDash(Collapse(IsAwkward, DashCase(lower, title)));
    if safe != "" then safe else fallback
  }

  ghost predicate Free(s: string, bad: char -> bool) { forall i :: 0 <= i < |s| ==> !bad(s[i]) || s[i] == '-' }

  lemma {:induction false} CollapseFree(sep: char -> bool, bad: char -> bool, s: string)
    requires forall i :: 0 <= i < |s| ==> sep(s[i]) || !bad(s[i]) || s[i] == '-'
    ensures Free(Collapse(sep, s), bad)
  {
    if s != "" {
      CollapseFree(sep, bad, s[..|s| - 1]);
    }
  }

  lemma StripKeeps(s: string, bad: char -> bool)
    requires Free(s, bad)
    ensures Free(StripDash(s), bad)
  {}

  lemma DashCaseFree(lower: char -> char, title: string)
    ensures Free(DashCase(lower, title), IsSeparator)
  {
    var t := Trim(title);
    var l := seq(|t|, i requires 0 <= i < |t| => lower(t[i]));
    CollapseFree(IsSeparator, IsSeparator, l);
    StripKeeps(Collapse(IsSeparator, l), IsSeparator);
  }

  /** No slug of a title holds a path separator, white space or a dot: the file stays in its directory. */
  lemma SlugIsOneName(lower: char -> char, title: string, fallback: string)
    requires fallback != "" && Free(fallback, IsSeparator) && Free(fallback, IsAwkward)
    ensures SlugForFile(lower, title, fallback) != ""
    ensures Free(SlugForFile(lower, title, fallback), IsSeparator)
    ensures Free(SlugForFile(lower, title, fallback), IsAwkward)
  {
    DashCaseFree(lower, title);
    var d := DashCase(lower, title);
    CollapseFree(IsAwkward, IsSeparator, d);
    CollapseFree(IsAwkward, IsAwkward, d);
    StripKeeps(Collapse(IsAwkward, d), IsSeparator);
    StripKeeps(Collapse(IsAwkward, d), IsAwkward);
  }

  // --- what of a title survives in its slug ---------------------------------------------------

  predicate IsLetter(c: char) { !IsSeparator(c) && !IsAwkward(c) }

  lemma LetterIs(c: char)
    ensures IsLetter(c) <==> !IsSpace(c) && c !in "/\\.,，。-·:：*?\"<>|"
  {}

  /** The characters of a text that a file name keeps, in order. */
  function Letters(s: string): string {
    if s == "" then "" else Letters(s[..|s| - 1]) + (if IsLetter(s[|s| - 1]) then [s[|s| - 1]] else "")
  }

  lemma {:induction false} LettersAppend(a: string, b: string)
    ensures Letters(a + b) == Letters(a) + Letters(b)
  {
    if b == "" {
      assert a + b == a;
    } else {
      assert (a + b)[..|a + b| - 1] == a + b[..|b| - 1];
      LettersAppend(a, b[..|b| - 1]);
    }
  }

  lemma LettersSnoc(a: string, c: char)
    ensures Letters(a + [c]) == Letters(a) + if IsLetter(c) then [c] else ""
  {
    assert (a + [c])[..|a|] == a;
  }

  lemma {:induction false} CollapseKeepsLetters(sep: char -> bool, s: string)
    requires forall c :: sep(c) ==> !IsLetter(c)
    ensures Letters(Collapse(sep, s)) == Letters(s)
  {
    if s != "" {
      var before, c := Collapse(sep, s[..|s| - 1]), s[|s| - 1];
      CollapseKeepsLetters(sep, s[..|s| - 1]);
      LettersSnoc(before, c);
      LettersSnoc(before, '-');
      assert before + "-" == before + ['-'];
    }
  }

  lemma StripKeepsLetters(s: string)
    ensures Letters(StripDash(s)) == Letters(s)
  {
    var a := if s != "" && s[0] == '-' then s[1..] else s;
    if a != s {
      assert s == ['-'] + a && ['-'] == "" + ['-'];
      LettersAppend(['-'], a);
      LettersSnoc("", '-');
    }
    if a != "" && a[|a| - 1] == '-' {
      assert a == a[..|a| - 1] + ['-'];
      LettersSnoc(a[..|a| - 1], '-');
    }
  }

  /** Dashes stand alone, so a text of nothing but them has at most one. */
  ghost predicate SingleDashes(s: string) { forall i :: 0 <= i < |s| - 1 ==> s[i] != '-' || s[i + 1] != '-' }

  lemma {:induction false} CollapseSingles(sep: char -> bool, s: string)
    requires sep('-')
    ensures SingleDashes(Collapse(sep, s))
  {
    if s != "" { CollapseSingles(sep, s[..|s| - 1]); }
  }

  lemma {:induction false} NoLetters(s: string)
    requires Letters(s) == ""
    ensures forall i :: 0 <= i < |s| ==> !IsLetter(s[i])
  {
    if s != "" { NoLetters(s[..|s| - 1]); }
  }

  /** The lower-cased title without the white space around it. */
  function Lowered(lower: char -> char, title: string): string {
    var t := Trim(title);
    seq(|t|, i requires 0 <= i < |t| => lower(t[i]))
  }

  /**
   * The slug keeps exactly the letters of the lower-cased title, in order, with single dashes
   * between; only a title without any is replaced by the fallback.
   */
  lemma SlugKeepsTheLetters(lower: char -> char, title: string, fallback: string)
    ensures var slug, letters := SlugForFile(lower, title, fallback), Letters(Lowered(lower, title));
            if letters == "" then slug == fallback
            else Letters(slug) == letters && SingleDashes(slug) && slug[0] != '-' && slug[|slug| - 1] != '-'
  {
    var lowered, d := Lowered(lower, title), DashCase(lower, title);
    CollapseKeepsLetters(IsSeparator, lowered);
    StripKeepsLetters(Collapse(IsSeparator, lowered));
    CollapseKeepsLetters(IsAwkward, d);
    StripKeepsLetters(Collapse(IsAwkward, d));
    CollapseSingles(IsAwkward, d);
    var safe := StripDash(Collapse(IsAwkward, d));
    StripIsBare(Collapse(IsAwkward, d));
    if Letters(lowered) == "" {
      NoLetters(safe);
      CollapseFree(IsSeparator, IsSeparator, lowered);
      DashCaseFree(lower, title);
      CollapseFree(IsAwkward, IsSeparator, d);
      CollapseFree(IsAwkward, IsAwkward, d);
      StripKeeps(Collapse(IsAwkward, d), IsSeparator);
      StripKeeps(Collapse(IsAwkward, d), IsAwkward);
      OnlyDashes(safe);
    }
  }

  lemma StripIsBare(s: string)
    requires SingleDashes(s)
    ensures var t := StripDash(s); SingleDashes(t) && (t == "" || (t[0] != '-' && t[|t| - 1] != '-'))
  {}

  lemma OnlyDashes(s: string)
    requires forall i :: 0 <= i < |s| ==> !IsLetter(s[i])
    requires Free(s, IsSeparator) && Free(s, IsAwkward) && (s == "" || s[0] != '-')
    ensures s == ""
  {}

  // --- the quiz -------------------------------------------------------------------------

  datatype Quiz = Quiz(question: string, options: seq<string>, answer: nat)

  function MaxLength(options: seq<string>): (r: nat)
    ensures forall i :: 0 <= i < |options| ==> |options[i]| <= r
    ensures options != [] ==> exists i :: 0 <= i < |options| && |options[i]| == r
  {
    if options == [] then 0
    else
      var last := |options[|options| - 1]|;
      var before := MaxLength(options[..|options| - 1]);
      if last >= before then last else before
  }

  const Wide: char := '\U{3000}'

  function PadTo(s: string, n: nat): string { s + seq(if |s| < n then n - |s| else 0, i => Wide) }

  function EqualizeOptionLengths(options: seq<string>): (r: seq<string>)
    ensures |r| == |options|
    ensures forall i, j :: 0 <= i < |r| && 0 <= j < |r| ==> |r[i]| == |r[j]|
    ensures forall i :: 0 <= i < |r| ==> options[i] <= r[i]
    ensures (forall i, j :: 0 <= i < |options| && 0 <= j < |options| ==> |options[i]| == |options[j]|) ==> r == options
  {
    var max := MaxLength(options);
    var r := seq(|options|, i requires 0 <= i < |options| => PadTo(options[i], max));
    assert (forall i, j :: 0 <= i < |options| && 0 <= j < |options| ==> |options[i]| == |options[j]|) ==>
             forall i :: 0 <= i < |options| ==> r[i] == options[i];
    r
  }

  /** They get the length of the longest, filled up with ideographic spaces. */
  lemma FilledUp(options: seq<string>, i: nat)
    requires i < |options|
    ensures var r := EqualizeOptionLengths(options);
            && (exists j :: 0 <= j < |options| && |options[j]| == |r[i]|)
            && forall k :: |options[i]| <= k < |r[i]| ==> r[i][k] == '\U{3000}'
  {
    assert |options[i]| <= MaxLength(options);
    var j :| 0 <= j < |options| && |options[j]| == MaxLength(options);
  }

  const Correct := "先理解再练习"
  const Distractors := ["背下答案就行", "多刷题不理解"]

  function Question(topic: string): string { "学「" + topic + "」这一小步, 最该怎么做?" }

  /** `makeStudyQuiz`: the right option moves with the lesson number. */
  method MakeStudyQuiz(topic: string, lessonNo: nat) returns (q: Quiz)
    ensures q == StudyQuiz(topic, lessonNo)
  {
    var answer := lessonNo % 3;
    var options: seq<string> := [];
    var di := 0;
    for i := 0 to 3
      invariant |options| == i && di == (if i <= answer then i else i - 1)
      invariant forall k :: 0 <= k < i ==>
                  options[k] == if k == answer then Correct else Distractors[if k < answer then k else k - 1]
    {
      if i == answer {
        options := options + [Correct];
      } else {
        options := options + [Distractors[di]];
        di := di + 1;
      }
    }
    assert options == Placed(answer);
    q := Quiz(Question(topic), EqualizeOptionLengths(options), answer);
  }

  function Placed(answer: nat): seq<string> {
    if answer == 0 then [Correct] + Distractors
    else if answer == 1 then [Distractors[0], Correct, Distractors[1]]
    else Distractors + [Correct]
  }

  function StudyQuiz(topic: string, lessonNo: nat): Quiz {
    Quiz(Question(topic), EqualizeOptionLengths(Placed(lessonNo % 3)), lessonNo % 3)
  }

  lemma PlacedIsEqual(n: nat)
    ensures EqualizeOptionLengths(Placed(n % 3)) == Placed(n % 3)
    ensures |Placed(n % 3)| == 3 && forall i :: 0 <= i < 3 ==> |Placed(n % 3)[i]| == 6
  {
    assert |Correct| == 6 && |Distractors[0]| == 6 && |Distractors[1]| == 6;
    assert forall i :: 0 <= i < 3 ==> |Placed(n % 3)[i]| == 6;
  }

  lemma PlacedRight(n: nat)
    ensures |Placed(n % 3)| == 3
    ensures forall i :: 0 <= i < 3 ==> (Placed(n % 3)[i] == Correct <==> i == n % 3)
  {
    assert Distractors[0][0] != Correct[0] && Distractors[1][0] != Correct[0];
  }

  /** One right option, at the place that moves with the lesson number, and options of equal length. */
  lemma QuizIsFair(topic: string, n: nat)
    ensures var q := StudyQuiz(topic, n);
            && |q.options| == 3 && q.answer == n % 3
            && q.question == "学「" + topic + "」这一小步, 最该怎么做?"
            && (forall i :: 0 <= i < 3 ==> (q.options[i] == "先理解再练习" <==> i == q.answer))
            && q.options[..n % 3] + q.options[n % 3 + 1..] == ["背下答案就行", "多刷题不理解"]
            && (forall i, j :: 0 <= i < 3 && 0 <= j < 3 ==> |q.options[i]| == |q.options[j]|)
  {
    PlacedIsEqual(n);
    PlacedRight(n);
    var options := Placed(n % 3);
    assert StudyQuiz(topic, n).options == options;
  }
}
