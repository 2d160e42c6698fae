/** What the preceptor reads back out of the prompt that the day is written into. */
module PreceptorPrompt {
  import opened Options
  import opened Text
  import opened Situation
  import opened ToolLoop
  import opened Preceptor
  import opened PreceptorSession

  const Greeting := "今日操练。\n"

  /** The prompt: the day and the ranks as two labelled JSON blocks. */
  function Prompt(day: string, ranks: string): string {
    Greeting + (SituationLabel + (": " + (day + ("\n" + (ArchiveLabel + (": " + ranks))))))
  }

  function Front(system: string): string { if system != "" then system + "\n" else "" }

  lemma PromptText(system: string, prompt: string)
    ensures GatherText(system, [UserText(prompt)]) == Front(system) + prompt
  {
    var start: seq<Message<Pillar>> := [UserText(prompt)];
    assert start[..0] == [];
    assert Texts(start) == [prompt];
    if system != "" {
      var parts := [system] + [prompt];
      assert parts[..1] == [system] && parts[1] == prompt;
      assert Join([system]) == system;
      assert Join(parts) == system + "\n" + prompt;
    } else {
      assert [] + [prompt] == [prompt];
    }
  }

  /** Written as JSON, an object: it opens with a brace and has a closing one. */
  predicate IsBlock(s: string) { s != "" && s[0] == '{' && FindBrace(s, 0) < |s| }

  lemma {:induction false} FirstMatch(text: string, label_: string, i: nat, n: nat)
    requires i <= n <= |text| && BlockAt(text, label_, n).Some?
    requires forall k :: i <= k < n ==> BlockAt(text, label_, k).None?
    ensures FindFrom(text, label_, i) == BlockAt(text, label_, n)
    decreases n - i
  {
    if i < n { FirstMatch(text, label_, i + 1, n); }
  }

  lemma LabelChar(text: string, label_: string, i: nat, d: nat)
    requires LabelAt(text, label_, i) && d < |label_|
    ensures text[i + d] == label_[d]
  {
    assert text[i..i + |label_|][d] == text[i + d];
  }

  lemma BlockBraced(t: string, o: nat, block: string)
    requires IsBlock(block) && LabelAt(t, block, o)
    ensures Braced(t, o) == Some(block[..FindBrace(block, 0) + 1])
  {
    var c := FindBrace(block, 0);
    forall k | 0 <= k <= c ensures t[o + k] == block[k] { LabelChar(t, block, o, k); }
    assert SkipSpaces(t, o) == o;
    var close := FindBrace(t, o + 1);
    forall k | o + 1 <= k < o + c ensures t[k] != '}' { assert t[o + (k - o)] == block[k - o]; }
    assert t[o + c] == '}';
    assert close == o + c;
    assert t[o..close + 1] == block[..c + 1];
  }

  lemma NoSpaceAt(t: string, j: nat)
    requires j < |t| && !IsSpace(t[j])
    ensures SkipSpaces(t, j) == j
  {}

  lemma SpaceAt(t: string, j: nat)
    requires j < |t| && t[j] == ' '
    ensures Braced(t, j) == Braced(t, j + 1)
  {
    assert SkipSpaces(t, j) == SkipSpaces(t, j + 1);
  }

  lemma ColonAndBlock(t: string, j: nat, block: string)
    requires j + 2 + |block| <= |t| && t[j] == ':' && t[j + 1] == ' ' && LabelAt(t, block, j + 2) && IsBlock(block)
    ensures Tail(t, j) == Some(block[..FindBrace(block, 0) + 1])
  {
    NoSpaceAt(t, j);
    SpaceAt(t, j + 1);
    BlockBraced(t, j + 2, block);
  }

  /** A label followed by a colon and a block matches, up to the block's first closing brace. */
  lemma BlockMatches(pre: string, label_: string, block: string, rest: string)
    requires IsBlock(block)
    ensures BlockAt(pre + (label_ + (": " + (block + rest))), label_, |pre|) == Some(block[..FindBrace(block, 0) + 1])
  {
    var behind := ": " + (block + rest);
    var t := pre + (label_ + behind);
    var j := |pre| + |label_|;
    assert t[|pre|..j] == label_;
    assert t[j] == behind[0] && t[j + 1] == behind[1];
    assert t[j + 2..j + 2 + |block|] == block;
    ColonAndBlock(t, j, block);
  }

  /** In front of a text that goes on with neither a space nor a colon, colon-less lines hold no match. */
  lemma NoneInFront(front: string, text: string, label_: string, i: nat)
    requires forall k :: 0 <= k < |front| ==> front[k] != ':'
    requires front == "" || front[|front| - 1] == '\n'
    requires text != "" && !IsSpace(text[0]) && text[0] != ':'
    requires forall k :: 0 <= k < |label_| ==> label_[k] != '\n'
    requires i < |front|
    ensures BlockAt(front + text, label_, i).None?
  {
    var t := front + text;
    if LabelAt(t, label_, i) {
      var j := i + |label_|;
      if j > |front| {
        LabelChar(t, label_, i, |front| - 1 - i);
        assert false;
      }
      var colon := SkipSpaces(t, j);
      assert t[|front|] == text[0];
      assert !(j <= |front| < colon);
    }
  }

  lemma LabelHead(text: string, label_: string, i: nat)
    requires LabelAt(text, label_, i) && label_ != ""
    ensures text[i] == label_[0]
  {
    LabelChar(text, label_, i, 0);
  }

  lemma NoLabelWithout(text: string, label_: string, i: nat)
    requires label_ != "" && i < |text| && text[i] != label_[0]
    ensures BlockAt(text, label_, i).None?
  {
    if LabelAt(text, label_, i) {
      LabelHead(text, label_, i);
      assert false;
    }
  }

  lemma SituationMatch(system: string, day: string, ranks: string)
    requires forall k :: 0 <= k < |system| ==> system[k] != ':'
    requires IsBlock(day)
    ensures FindBlock(Front(system) + Prompt(day, ranks), SituationLabel) == Some(day[..FindBrace(day, 0) + 1])
  {
    var front := Front(system);
    var text := Prompt(day, ranks);
    var t := front + text;
    var rest := "\n" + (ArchiveLabel + (": " + ranks));
    var pre := front + Greeting;
    assert t == pre + (SituationLabel + (": " + (day + rest)));
    BlockMatches(pre, SituationLabel, day, rest);
    forall i | 0 <= i < |pre| ensures BlockAt(t, SituationLabel, i).None? {
      if i < |front| {
        NoneInFront(front, text, SituationLabel, i);
      } else if i == |front| {
        assert t[i + 2] == Greeting[2];
        if LabelAt(t, SituationLabel, i) {
          LabelChar(t, SituationLabel, i, 2);
          assert false;
        }
      } else {
        assert t[i] == Greeting[i - |front|];
        NoLabelWithout(t, SituationLabel, i);
      }
    }
    FirstMatch(t, SituationLabel, 0, |pre|);
  }

  /** An object ends with its last closing brace. */
  predicate Closed(s: string) { IsBlock(s) && s[|s| - 1] == '}' }

  /** The day stands in the text from position `o` on. */
  ghost predicate Stands(t: string, day: string, o: nat) {
    o + |day| <= |t| && forall k :: 0 <= k < |day| ==> t[o + k] == day[k]
  }

  lemma StandsBetween(pre: string, day: string, rest: string)
    ensures Stands(pre + day + rest, day, |pre|)
  {}

  lemma SliceInDay(t: string, day: string, o: nat, a: nat, b: nat)
    requires Stands(t, day, o) && a <= b <= |day|
    ensures t[o + a..o + b] == day[a..b]
  {
    var x, y := t[o + a..o + b], day[a..b];
    forall k | 0 <= k < b - a ensures x[k] == y[k] { assert t[o + (a + k)] == day[a + k]; }
  }

  /** A label does not reach over a closing brace. */
  lemma LabelStops(text: string, label_: string, i: nat, brace: nat)
    requires LabelAt(text, label_, i) && i <= brace < |text| && text[brace] == '}' && NoBrace(label_)
    ensures i + |label_| <= brace
  {
    if i + |label_| > brace { LabelChar(text, label_, i, brace - i); }
  }

  /** A label that begins inside the day ends inside it, in front of its last character. */
  lemma LabelInDay(t: string, day: string, o: nat, label_: string, i: nat)
    requires Closed(day) && Stands(t, day, o) && i < |day| && NoBrace(label_)
    ensures LabelAt(t, label_, o + i) <==> LabelAt(day, label_, i)
    ensures LabelAt(day, label_, i) ==> i + |label_| < |day|
  {
    assert t[o + (|day| - 1)] == '}';
    if LabelAt(t, label_, o + i) { LabelStops(t, label_, o + i, o + |day| - 1); }
    if LabelAt(day, label_, i) { LabelStops(day, label_, i, |day| - 1); }
    if i + |label_| < |day| { SliceInDay(t, day, o, i, i + |label_|); }
  }

  /** A match that begins inside the day ends inside it: no match reaches over its last brace. */
  lemma MatchEndsInDay(t: string, day: string, o: nat, label_: string, i: nat)
    requires Closed(day) && Stands(t, day, o) && i < |day| && NoBrace(label_)
    ensures BlockAt(t, label_, o + i) == BlockAt(day, label_, i)
  {
    LabelInDay(t, day, o, label_, i);
    if LabelAt(day, label_, i) { TailInDay(t, day, o, i + |label_|); }
  }

  lemma {:induction false} SpacesInDay(t: string, day: string, o: nat, j: nat)
    requires Closed(day) && Stands(t, day, o) && j < |day|
    ensures SkipSpaces(day, j) < |day| && SkipSpaces(t, o + j) == o + SkipSpaces(day, j)
    decreases |day| - j
  {
    assert t[o + j] == day[j];
    if IsSpace(day[j]) { SpacesInDay(t, day, o, j + 1); }
  }

  lemma {:induction false} BraceInDay(t: string, day: string, o: nat, j: nat)
    requires Closed(day) && Stands(t, day, o) && j < |day|
    ensures FindBrace(day, j) < |day| && FindBrace(t, o + j) == o + FindBrace(day, j)
    decreases |day| - j
  {
    assert t[o + j] == day[j];
    if day[j] != '}' { BraceInDay(t, day, o, j + 1); }
  }

  lemma TailInDay(t: string, day: string, o: nat, j: nat)
    requires Closed(day) && Stands(t, day, o) && j < |day|
    ensures Tail(t, o + j) == Tail(day, j)
  {
    var colon := SkipSpaces(day, j);
    SpacesInDay(t, day, o, j);
    assert t[o + colon] == day[colon];
    if day[colon] == ':' { BracedInDay(t, day, o, colon + 1); }
  }

  lemma BracedInDay(t: string, day: string, o: nat, j: nat)
    requires Closed(day) && Stands(t, day, o) && j < |day|
    ensures Braced(t, o + j) == Braced(day, j)
  {
    var open := SkipSpaces(day, j);
    SpacesInDay(t, day, o, j);
    assert t[o + open] == day[open];
    if day[open] == '{' {
      BraceInDay(t, day, o, open + 1);
      SliceInDay(t, day, o, open, FindBrace(day, open + 1) + 1);
    }
  }

  lemma {:induction false} NoMatchAnywhere(text: string, label_: string, i: nat, k: nat)
    requires i <= k <= |text| && FindFrom(text, label_, i).None?
    ensures BlockAt(text, label_, k).None?
    decreases |text| - i
  {
    if i < k { NoMatchAnywhere(text, label_, i + 1, k); }
  }

  const Head := Greeting + SituationLabel + ": "

  lemma HeadHasNoArchive(k: nat)
    requires k < |Head|
    ensures Head[k] != ArchiveLabel[0]
  {}

  /** No archive block begins in front of the day. */
  lemma ArchiveNotInFront(front: string, behind: string, i: nat)
    requires forall k :: 0 <= k < |front| ==> front[k] != ':'
    requires front == "" || front[|front| - 1] == '\n'
    requires i < |front + Head|
    ensures BlockAt(front + Head + behind, ArchiveLabel, i).None?
  {
    var t := front + Head + behind;
    if i < |front| {
      assert t == front + (Head + behind);
      NoneInFront(front, Head + behind, ArchiveLabel, i);
    } else {
      HeadHasNoArchive(i - |front|);
      assert t[i] == Head[i - |front|];
      NoLabelWithout(t, ArchiveLabel, i);
    }
  }

  /** If the day holds no archive block, none begins in front of the ranks. */
  lemma ArchiveNotBefore(pre: string, day: string, rest: string, i: nat)
    requires forall k :: 0 <= k < |pre| ==> BlockAt(pre + day + ("\n" + rest), ArchiveLabel, k).None?
    requires Closed(day) && FindBlock(day, ArchiveLabel).None? && i <= |pre + day|
    ensures BlockAt(pre + day + ("\n" + rest), ArchiveLabel, i).None?
  {
    var t := pre + day + ("\n" + rest);
    if |pre| <= i < |pre + day| {
      StandsBetween(pre, day, "\n" + rest);
      MatchEndsInDay(t, day, |pre|, ArchiveLabel, i - |pre|);
      NoMatchAnywhere(day, ArchiveLabel, 0, i - |pre|);
    } else if i == |pre + day| {
      assert t[i] == '\n';
      NoLabelWithout(t, ArchiveLabel, i);
    }
  }

  /** The first match inside the day is the first one from its place in the text on. */
  lemma {:induction false} FindInDay(t: string, day: string, o: nat, label_: string, i: nat)
    requires Closed(day) && Stands(t, day, o) && i <= |day| && NoBrace(label_) && label_ != ""
    requires FindFrom(day, label_, i).Some?
    ensures FindFrom(t, label_, o + i) == FindFrom(day, label_, i)
    decreases |day| - i
  {
    if i < |day| {
      MatchEndsInDay(t, day, o, label_, i);
      if BlockAt(day, label_, i).None? { FindInDay(t, day, o, label_, i + 1); }
    }
  }

  lemma {:induction false} SkipMisses(text: string, label_: string, i: nat, n: nat)
    requires i <= n <= |text| && forall k :: i <= k < n ==> BlockAt(text, label_, k).None?
    ensures FindFrom(text, label_, i) == FindFrom(text, label_, n)
    decreases n - i
  {
    if i < n { SkipMisses(text, label_, i + 1, n); }
  }

  lemma PromptSplit(day: string, ranks: string)
    ensures Prompt(day, ranks) == Head + day + ("\n" + (ArchiveLabel + (": " + ranks)))
  {}

  lemma ArchiveOfDay(pre: string, day: string, rest: string)
    requires forall k :: 0 <= k < |pre| ==> BlockAt(pre + day + rest, ArchiveLabel, k).None?
    requires Closed(day) && FindBlock(day, ArchiveLabel).Some?
    ensures FindBlock(pre + day + rest, ArchiveLabel) == FindBlock(day, ArchiveLabel)
  {
    SkipMisses(pre + day + rest, ArchiveLabel, 0, |pre|);
    StandsBetween(pre, day, rest);
    FindInDay(pre + day + rest, day, |pre|, ArchiveLabel, 0);
  }

  lemma ArchiveOfRanks(pre: string, day: string, ranks: string)
    requires var rest := ArchiveLabel + (": " + ranks);
             forall k :: 0 <= k < |pre| ==> BlockAt(pre + day + ("\n" + rest), ArchiveLabel, k).None?
    requires Closed(day) && FindBlock(day, ArchiveLabel).None? && IsBlock(ranks)
    ensures FindBlock(pre + day + ("\n" + (ArchiveLabel + (": " + ranks))), ArchiveLabel)
            == Some(ranks[..FindBrace(ranks, 0) + 1])
  {
    var rest := ArchiveLabel + (": " + ranks);
    var front := pre + day + "\n";
    var t := pre + day + ("\n" + rest);
    forall i | 0 <= i < |front| ensures BlockAt(t, ArchiveLabel, i).None? {
      ArchiveNotBefore(pre, day, rest, i);
    }
    assert t == front + rest;
    assert ranks + "" == ranks;
    BlockMatches(front, ArchiveLabel, ranks, "");
    FirstMatch(t, ArchiveLabel, 0, |front|);
  }

  /** What is read as the ranks: the block in the day, if it holds one, else the ranks as written. */
  lemma ArchiveMatch(system: string, day: string, ranks: string)
    requires forall k :: 0 <= k < |system| ==> system[k] != ':'
    requires Closed(day) && IsBlock(ranks)
    ensures FindBlock(Front(system) + Prompt(day, ranks), ArchiveLabel) ==
            if FindBlock(day, ArchiveLabel).Some? then FindBlock(day, ArchiveLabel)
            else Some(ranks[..FindBrace(ranks, 0) + 1])
  {
    var front, behind := Front(system), "\n" + (ArchiveLabel + (": " + ranks));
    var pre := front + Head;
    PromptSplit(day, ranks);
    assert front + Prompt(day, ranks) == pre + day + behind;
    forall i | 0 <= i < |pre| ensures BlockAt(pre + day + behind, ArchiveLabel, i).None? {
      assert pre + day + behind == pre + (day + behind);
      ArchiveNotInFront(front, day + behind, i);
    }
    if FindBlock(day, ArchiveLabel).Some? { ArchiveOfDay(pre, day, behind); } else { ArchiveOfRanks(pre, day, ranks); }
  }

  /**
   * The day is read back as it was written exactly if its JSON has no closing brace but the
   * last one: an ailment that contains one cuts the block short.
   */
  lemma DayReadBackIff(system: string, day: string, ranks: string)
    requires forall k :: 0 <= k < |system| ==> system[k] != ':'
    requires Closed(day)
    ensures FindBlock(GatherText(system, [UserText(Prompt(day, ranks))]), SituationLabel) == Some(day) <==>
            NoBrace(day[..|day| - 1])
  {
    PromptText(system, Prompt(day, ranks));
    SituationMatch(system, day, ranks);
    var c := FindBrace(day, 0);
    if NoBrace(day[..|day| - 1]) {
      WholeBlock(day);
    } else {
      var k :| 0 <= k < |day| - 1 && day[..|day| - 1][k] == '}';
      assert day[k] == '}';
      assert c <= k;
    }
  }

  /** The ranks as they are written: three numbers in one block, which the reader takes apart. */
  ghost predicate WrittenRanks(reader: Reader, ranks: string, rs: seq<PillarRank>) {
    && Closed(ranks) && NoBrace(ranks[..|ranks| - 1])
    && |rs| == 3 && rs[0].pillar == Body && rs[1].pillar == Mind && rs[2].pillar == Lore
    && forall k :: 0 <= k < 3 ==> reader.rank(ranks, rs[k].pillar) == Some(rs[k].rank)
  }

  /** What the loop dispatches for a written day and written ranks. */
  function Dispatched(reader: Reader, system: string, tool: Tool<Pillar>, day: string, ranks: string): seq<Pillar> {
    Loop(Brained(reader, system), tool, [UserText(Prompt(day, ranks))], 0, DefaultRounds).dispatched
  }

  /** From the prompt to the dispatches: the plan of the day up to its first closing brace, or of a normal day. */
  lemma SessionReadsTheCut(reader: Reader, system: string, tool: Tool<Pillar>, day: string, ranks: string,
                           rs: seq<PillarRank>)
    requires forall k :: 0 <= k < |system| ==> system[k] != ':'
    requires Closed(day) && FindBlock(day, ArchiveLabel).None? && WrittenRanks(reader, ranks, rs)
    ensures var read := reader.situation(day[..FindBrace(day, 0) + 1]);
            Dispatched(reader, system, tool, day, ranks)
            == Targets(Plan(if read.Some? then read.value else NormalDay, rs).drills)
  {
    var text := GatherText(system, [UserText(Prompt(day, ranks))]);
    LoopDispatchesThePlan(reader, system, tool, Prompt(day, ranks));
    PromptText(system, Prompt(day, ranks));
    SituationMatch(system, day, ranks);
    ArchiveMatch(system, day, ranks);
    WholeBlock(ranks);
    ReadThree(reader, text, ranks, rs);
  }

  /** From the written prompt to the dispatches: the loop drills exactly the plan of the day and the ranks. */
  lemma SessionDrillsThePlan(reader: Reader, system: string, tool: Tool<Pillar>, day: string, ranks: string,
                             s: Situation, rs: seq<PillarRank>)
    requires forall k :: 0 <= k < |system| ==> system[k] != ':'
    requires Closed(day) && NoBrace(day[..|day| - 1]) && FindBlock(day, ArchiveLabel).None?
    requires reader.situation(day) == Some(s) && WrittenRanks(reader, ranks, rs)
    ensures Dispatched(reader, system, tool, day, ranks) == Targets(Plan(s, rs).drills)
  {
    WholeBlock(day);
    SessionReadsTheCut(reader, system, tool, day, ranks, rs);
  }

  /**
   * A closing brace in front of the last one cuts the day short.  If what is left cannot be parsed, the loop drills the
   * plan of a normal day, whatever the written day says about time, energy, focus and ailment.
   */
  lemma BracedDayIsNormal(reader: Reader, system: string, tool: Tool<Pillar>, day: string, ranks: string,
                          rs: seq<PillarRank>)
    requires forall k :: 0 <= k < |system| ==> system[k] != ':'
    requires Closed(day) && !NoBrace(day[..|day| - 1]) && FindBlock(day, ArchiveLabel).None?
    requires reader.situation(day[..FindBrace(day, 0) + 1]) == None && WrittenRanks(reader, ranks, rs)
    ensures day[..FindBrace(day, 0) + 1] != day
    ensures Dispatched(reader, system, tool, day, ranks) == Targets(Plan(NormalDay, rs).drills)
  {
    var k :| 0 <= k < |day| - 1 && day[..|day| - 1][k] == '}';
    assert day[k] == '}';
    SessionReadsTheCut(reader, system, tool, day, ranks, rs);
  }

  // --- one such day -----------------------------------------------------------------------------

  /** `{"minutes":60,"energy":"high","ailment":"a}b"}`, in two parts. */
  const InjuredOpen := "{\"minutes\":60,\"energy\":\"high\",\"ailment\":\"a"
  const InjuredCut := InjuredOpen + "}"
  const Injured := InjuredCut + "b\"}"
  const InjuredDay := Situation(60.0, High, None, Some("a}b"))

  const LadderOpen := "{\"body\":1,\"mind\":2,\"lore\":3"
  const Ladder := LadderOpen + "}"
  const LadderRanks := [PillarRank(Body, 1), PillarRank(Mind, 2), PillarRank(Lore, 3)]

  /** The first closing brace is the one behind the brace-less opening. */
  lemma CutBehind(opening: string, rest: string)
    requires opening != "" && opening[0] == '{' && NoBrace(opening)
    ensures var s := opening + "}" + rest;
            IsBlock(s) && FindBrace(s, 0) == |opening| && s[..|opening| + 1] == opening + "}"
  {
    var s := opening + "}" + rest;
    assert s[|opening|] == '}';
    assert forall k :: 0 <= k < |opening| ==> s[k] == opening[k];
  }

  lemma InjuredIsCut()
    ensures Closed(Injured) && !NoBrace(Injured[..|Injured| - 1]) && FindBlock(Injured, ArchiveLabel).None?
    ensures Injured[..FindBrace(Injured, 0) + 1] == InjuredCut
  {
    OpeningsArePlain();
    CutBehind(InjuredOpen, "b\"}");
    assert Injured[|Injured| - 1] == '}';
    assert Injured[..|Injured| - 1][|InjuredOpen|] == '}';
    NoArchiveInside(Injured, 0);
  }

  lemma OpeningsArePlain()
    ensures InjuredOpen != "" && InjuredOpen[0] == '{' && NoBrace(InjuredOpen)
    ensures LadderOpen != "" && LadderOpen[0] == '{' && NoBrace(LadderOpen)
    ensures forall k :: 0 <= k < |InjuredOpen| ==> InjuredOpen[k] != ArchiveLabel[0]
  {}

  lemma {:induction false} NoArchiveInside(text: string, i: nat)
    requires i <= |text| && forall k :: 0 <= k < |text| ==> text[k] != ArchiveLabel[0]
    ensures FindFrom(text, ArchiveLabel, i).None?
    decreases |text| - i
  {
    if i < |text| {
      NoLabelWithout(text, ArchiveLabel, i);
      NoArchiveInside(text, i + 1);
    }
  }

  lemma LadderIsWritten(reader: Reader)
    requires forall k :: 0 <= k < 3 ==> reader.rank(Ladder, LadderRanks[k].pillar) == Some(LadderRanks[k].rank)
    ensures WrittenRanks(reader, Ladder, LadderRanks)
  {
    OpeningsArePlain();
    CutBehind(LadderOpen, "");
    assert LadderOpen + "}" + "" == Ladder;
    assert Ladder[..|Ladder| - 1] == LadderOpen;
  }

  lemma InjuredIsSpared()
    ensures Body !in Targets(Plan(InjuredDay, LadderRanks).drills)
  {
    assert Trim("a}b") == "a}b" by {
      assert TrimStart("a}b") == "a}b" && TrimEnd("a}b") == "a}b";
    }
    DrillsFit(InjuredDay, LadderRanks);
  }

  lemma NormalLadder()
    ensures Targets(Plan(NormalDay, LadderRanks).drills) == [Body, Mind]
  {
    var a, b, c := Candidate(LadderRanks[0], 0), Candidate(LadderRanks[1], 1), Candidate(LadderRanks[2], 2);
    AllFit(LadderRanks);
    assert Numbered(LadderRanks) == [a, b, c];
    assert [a, b, c][1..] == [b, c] && [b, c][1..] == [c] && [c][1..] == [];
    assert Sort(NormalDay, [c]) == [c];
    assert Sort(NormalDay, [b, c]) == [b] + [c];
    assert Sort(NormalDay, [a, b, c]) == [a] + [b, c];
    assert [a, b, c][..2] == [a, b];
  }

  /** A text without the two blocks is drilled as a normal day of a beginner. */
  lemma NothingToRead(reader: Reader, text: string)
    requires FindBlock(text, SituationLabel).None? && FindBlock(text, ArchiveLabel).None?
    ensures PlanOf(reader, text) == SessionPlan(
              2, [Drill(Body, MostBehind(1)), Drill(Mind, MostBehind(1))], [Deferral(Lore, Trimmed(1))])
  {
    var ranks := [PillarRank(Body, 1), PillarRank(Mind, 1), PillarRank(Lore, 1)];
    var a, b, c := Candidate(ranks[0], 0), Candidate(ranks[1], 1), Candidate(ranks[2], 2);
    AllFit(ranks);
    assert Numbered(ranks) == [a, b, c];
    assert [a, b, c][1..] == [b, c] && [b, c][1..] == [c] && [c][1..] == [];
    assert Sort(NormalDay, [c]) == [c];
    assert Sort(NormalDay, [b, c]) == [b] + [c];
    assert Sort(NormalDay, [a, b, c]) == [a] + [b, c] == [a, b, c];
    assert [a, b, c][..2] == [a, b] && [a, b, c][2..] == [c];
    assert Drills(NormalDay, [a, b]) == [Drill(Body, MostBehind(1)), Drill(Mind, MostBehind(1))];
    assert Held([c]) == [Deferral(Lore, Trimmed(1))];
    NobodyHurt(ranks);
  }

  /** A rank that the archive block does not tell is that of a beginner, and the others are as it tells. */
  lemma EachRankIsRead(reader: Reader, text: string, block: string)
    requires FindBlock(text, ArchiveLabel) == Some(block)
    ensures var ranks := ReadRanks(reader, text);
            && |ranks| == 3 && ranks[0].pillar == Body && ranks[1].pillar == Mind && ranks[2].pillar == Lore
            && forall r :: r in ranks ==>
                 r.rank == match reader.rank(block, r.pillar) case None => 1 case Some(n) => n
  {}

  lemma {:induction false} NobodyHurt(ranks: seq<PillarRank>)
    ensures Unfit(false, ranks) == []
  {
    if ranks != [] { NobodyHurt(ranks[..|ranks| - 1]); }
  }

  lemma {:induction false} AllFit(ranks: seq<PillarRank>)
    ensures Fit(false, ranks) == ranks
  {
    if ranks != [] { AllFit(ranks[..|ranks| - 1]); }
  }

  /**
   * The brace in this ailment hides it: although a plan of the day as written spares the body,
   * the body is drilled.
   */
  lemma BraceDrillsTheInjured(reader: Reader, system: string, tool: Tool<Pillar>)
    requires forall k :: 0 <= k < |system| ==> system[k] != ':'
    requires reader.situation(Injured) == Some(InjuredDay) && reader.situation(InjuredCut) == None
    requires forall k :: 0 <= k < 3 ==> reader.rank(Ladder, LadderRanks[k].pillar) == Some(LadderRanks[k].rank)
    ensures FindBlock(GatherText(system, [UserText(Prompt(Injured, Ladder))]), SituationLabel) == Some(InjuredCut)
    ensures Body !in Targets(Plan(InjuredDay, LadderRanks).drills)
    ensures Dispatched(reader, system, tool, Injured, Ladder) == [Body, Mind]
  {
    InjuredIsCut();
    LadderIsWritten(reader);
    PromptText(system, Prompt(Injured, Ladder));
    SituationMatch(system, Injured, Ladder);
    BracedDayIsNormal(reader, system, tool, Injured, Ladder, LadderRanks);
    InjuredIsSpared();
    NormalLadder();
  }

  lemma ReadThree(reader: Reader, text: string, ranks: string, rs: seq<PillarRank>)
    requires FindBlock(text, ArchiveLabel) == Some(ranks)
    requires |rs| == 3 && rs[0].pillar == Body && rs[1].pillar == Mind && rs[2].pillar == Lore
    requires forall k :: 0 <= k < 3 ==> reader.rank(ranks, rs[k].pillar) == Some(rs[k].rank)
    ensures ReadRanks(reader, text) == rs
  {
    assert ReadRank(reader, text, Body) == rs[0];
    assert ReadRank(reader, text, Mind) == rs[1];
    assert ReadRank(reader, text, Lore) == rs[2];
  }

  lemma WholeBlock(block: string)
    requires IsBlock(block) && block[|block| - 1] == '}' && NoBrace(block[..|block| - 1])
    ensures block[..FindBrace(block, 0) + 1] == block
  {
    if FindBrace(block, 0) < |block| - 1 {
      BraceInside(block[..|block| - 1], block, FindBrace(block, 0));
      assert false;
    }
  }

  lemma BraceInside(part: string, s: string, c: nat)
    requires part <= s && c < |part| && s[c] == '}'
    ensures !NoBrace(part)
  {
    assert part[c] == '}';
  }
}
