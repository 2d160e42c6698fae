/** The trainee's archive: one text file a pillar, one marked line an entry; its count is the rank. */
module Codex {
  import opened Options
  import opened Situation
  import opened LineMarks
  import opened Numbers

  const Marker := "- [第"

  /** What `^` matches behind in a multiline pattern. */
  predicate IsBreak(c: char) { c == '\n' || c == '\r' || c == '\U{2028}' || c == '\U{2029}' }

  predicate Single(s: string) { Unbroken(s, IsBreak) }

  /** Matches of `/^- \[第/gm`. */
  function Entries(text: string): nat { Marks(text, Marker, IsBreak) }

  /** Files are written line by line. */
  predicate Ended(text: string) { Whole(text, IsBreak) }

  // --- what is written ----------------------------------------------------------------------

  function Tag(i: Intensity): (r: string)
    ensures Single(r)
  {
    match i case Recovery => "轻负荷·恢复" case Standard => "常规" case Max => "满负荷"
  }

  /** The directives of each pillar. */
  datatype Regimen = Regimen(drills: Pillar -> seq<string>, recovery: Pillar -> string)

  ghost predicate Usable(r: Regimen) {
    forall p :: r.drills(p) != [] && Single(r.recovery(p)) &&
                forall k :: 0 <= k < |r.drills(p)| ==> Single(r.drills(p)[k])
  }

  function EntryLine(rank: nat, i: Intensity, directive: string): (r: string)
    ensures Marker <= r
    ensures Single(directive) ==> Single(r)
  {
    Marker + NatText(rank) + "阶·" + Tag(i) + "] 承前 " + NatText(rank) + " 阶 — " + directive
  }

  /** An entry says which rank it is, how hard the day was, what it builds on, and the directive. */
  lemma EntryReads(rank: nat, i: Intensity, directive: string)
    ensures var load := match i case Recovery => "轻负荷·恢复" case Standard => "常规" case Max => "满负荷";
            EntryLine(rank, i, directive) ==
            "- [第" + NatText(rank) + "阶·" + load + "] 承前 " + NatText(rank) + " 阶 — " + directive
  {}

  function Heading(p: Pillar): string {
    match p case Body => "# 肉身\n\n" case Mind => "# 心志\n\n" case Lore => "# 学识\n\n"
  }

  /** `setupCodex` with some baseline text behind the entry of rank 0. */
  function Baseline(p: Pillar, text: string): string { Heading(p) + (Marker + "0阶] " + text) + "\n" }

  /** Each file opens with its pillar's heading and the entry of rank 0. */
  lemma BaselineReads(p: Pillar, text: string)
    ensures var title := match p case Body => "肉身" case Mind => "心志" case Lore => "学识";
            Baseline(p, text) == "# " + title + "\n\n- [第0阶] " + text + "\n"
  {}

  lemma BaselineIsOne(p: Pillar, text: string)
    requires Single(text)
    ensures Entries(Baseline(p, text)) == 1 && Ended(Baseline(p, text))
  {
    NoHeadingEntry(p, |Heading(p)|);
    AppendAddsOne(Heading(p), Marker + "0阶] " + text, Marker, IsBreak);
  }

  lemma {:induction false} NoHeadingEntry(p: Pillar, i: nat)
    requires i <= |Heading(p)|
    ensures MarksBefore(Heading(p), Marker, IsBreak, i) == 0
  {
    if i > 0 {
      NoHeadingEntry(p, i - 1);
      assert Heading(p)[i - 1] != '-';
      if MarkAt(Heading(p), Marker, IsBreak, i - 1) {
        MarkChar(Heading(p), Marker, IsBreak, i - 1, i - 1);
        assert false;
      }
    }
  }

  // --- the archive --------------------------------------------------------------------------

  /** How many entries each pillar holds. */
  datatype Ranks = Ranks(body: nat, mind: nat, lore: nat)

  function RankOf(r: Ranks, p: Pillar): nat {
    match p case Body => r.body case Mind => r.mind case Lore => r.lore
  }

  function Raise(r: Ranks, p: Pillar): Ranks {
    match p case Body => r.(body := r.body + 1) case Mind => r.(mind := r.mind + 1) case Lore => r.(lore := r.lore + 1)
  }

  class Archive {
    var files: map<Pillar, string>

    ghost predicate Valid()
      reads this
    {
      forall p :: p in files && Ended(files[p]) && Entries(files[p]) >= 1
    }

    /** `priorSteps` of all pillars. */
    function Steps(): Ranks
      reads this
      requires Valid()
    {
      Ranks(Entries(files[Body]), Entries(files[Mind]), Entries(files[Lore]))
    }

    constructor (baseline: Pillar -> string)
      requires forall p :: Single(baseline(p))
      ensures Valid() && Steps() == Ranks(1, 1, 1)
    {
      BaselineIsOne(Body, baseline(Body));
      BaselineIsOne(Mind, baseline(Mind));
      BaselineIsOne(Lore, baseline(Lore));
      files := map[Body := Baseline(Body, baseline(Body)), Mind := Baseline(Mind, baseline(Mind)),
                   Lore := Baseline(Lore, baseline(Lore))];
      new;
      forall p ensures p in files && Ended(files[p]) && Entries(files[p]) == 1 {
        match p case Body => case Mind => case Lore =>
      }
    }

    method AppendEntry(p: Pillar, line: string)
      requires Valid() && Single(line) && Marker <= line
      modifies this
      ensures Valid() && Steps() == Raise(old(Steps()), p)
      ensures files == old(files)[p := old(files)[p] + line + "\n"]
    {
      AppendAddsOne(files[p], line, Marker, IsBreak);
      files := files[p := files[p] + line + "\n"];
    }

    /** A pillar agent's task: read the count, choose the directive, append one entry. */
    method HandleTask(regimen: Regimen, p: Pillar, situation: Option<Situation>) returns (rank: nat)
      requires Valid() && Usable(regimen)
      modifies this
      ensures Valid() && Steps() == Raise(old(Steps()), p) && rank == RankOf(old(Steps()), p)
      ensures var i := if situation.Some? then DrillIntensity(situation.value) else Standard;
              var n := |regimen.drills(p)|;
              files[p] == old(files)[p] +
                EntryLine(rank, i,
                          if i.Recovery? then regimen.recovery(p) else regimen.drills(p)[(rank - 1) % n]) + "\n"
      ensures forall q :: q != p ==> files[q] == old(files)[q]
    {
      rank := Entries(files[p]);
      var intensity := if situation.Some? then DrillIntensity(situation.value) else Standard;
      var directive := if intensity.Recovery? then regimen.recovery(p)
                       else regimen.drills(p)[(rank - 1) % |regimen.drills(p)|];
      AppendEntry(p, EntryLine(rank, intensity, directive));
    }
  }
}
