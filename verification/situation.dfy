/** Planning a training session from today's situation and the pillars' ranks. */
module Situation {
  import opened Options
  import opened Text
  import opened Numbers

  datatype Pillar = Body | Mind | Lore

  datatype Energy = Low | Normal | High

  datatype Situation = Situation(minutes: real, energy: Energy, focus: Option<Pillar>, ailment: Option<string>)

  datatype PillarRank = PillarRank(pillar: Pillar, rank: int)

  datatype Why = Focused | MostBehind(rank: int)
  datatype Drill = Drill(pillar: Pillar, why: Why)

  datatype Hold = Injured | Trimmed(rank: int)
  datatype Deferral = Deferral(pillar: Pillar, hold: Hold)

  datatype SessionPlan = SessionPlan(capacity: nat, drills: seq<Drill>, deferred: seq<Deferral>)

  datatype Intensity = Recovery | Standard | Max

  function SessionCapacity(s: Situation): nat {
    if s.energy.Low? || s.minutes < 20.0 then 1
    else if s.energy.High? && s.minutes >= 50.0 then 3
    else 2
  }

  function DrillIntensity(s: Situation): Intensity {
    if s.energy.Low? || s.minutes < 20.0 then Recovery
    else if s.energy.High? && s.minutes >= 50.0 then Max
    else Standard
  }

  predicate Ailing(s: Situation) { s.ailment.Some? && Trim(s.ailment.value) != "" }

  /** A candidate with its place in the roster. */
  datatype Candidate = Candidate(r: PillarRank, i: nat)

  /** The focus pillar first, then the lower rank, then the earlier place. */
  predicate Before(s: Situation, a: Candidate, b: Candidate) {
    var af := s.focus == Some(a.r.pillar);
    var bf := s.focus == Some(b.r.pillar);
    if af != bf then af
    else if a.r.rank != b.r.rank then a.r.rank < b.r.rank
    else a.i < b.i
  }

  /** The pillars that may be drilled: under an ailment, all but the body. */
  function Fit(ailing: bool, ranks: seq<PillarRank>): seq<PillarRank> {
    if ranks == [] then []
    else
      var last := ranks[|ranks| - 1];
      Fit(ailing, ranks[..|ranks| - 1]) + (if ailing && last.pillar.Body? then [] else [last])
  }

  function Numbered(ranks: seq<PillarRank>): (r: seq<Candidate>)
    ensures |r| == |ranks| && forall i :: 0 <= i < |r| ==> r[i] == Candidate(ranks[i], i)
  {
    seq(|ranks|, i requires 0 <= i < |ranks| => Candidate(ranks[i], i))
  }

  // --- sorting ------------------------------------------------------------------------------

  predicate Sorted(s: Situation, cs: seq<Candidate>) {
    forall i, j :: 0 <= i < j < |cs| ==> Before(s, cs[i], cs[j])
  }

  predicate Apart(cs: seq<Candidate>) {
    forall i, j :: 0 <= i < j < |cs| ==> cs[i].i != cs[j].i
  }

  lemma BeforeIsOrder(s: Situation, a: Candidate, b: Candidate, c: Candidate)
    ensures Before(s, a, b) && Before(s, b, c) ==> Before(s, a, c)
    ensures a.i != b.i ==> Before(s, a, b) || Before(s, b, a)
    ensures Before(s, a, b) ==> !Before(s, b, a)
  {}

  function Insert(s: Situation, c: Candidate, cs: seq<Candidate>): seq<Candidate> {
    if cs == [] then [c]
    else if Before(s, c, cs[0]) then [c] + cs
    else [cs[0]] + Insert(s, c, cs[1..])
  }

  /** The ordering by the comparator (the only one: see `SortIsUnique`). */
  function Sort(s: Situation, cs: seq<Candidate>): seq<Candidate> {
    if cs == [] then [] else Insert(s, cs[0], Sort(s, cs[1..]))
  }

  lemma {:induction false} InsertKeeps(s: Situation, c: Candidate, cs: seq<Candidate>)
    ensures multiset(Insert(s, c, cs)) == multiset(cs) + multiset{c}
  {
    if cs != [] {
      assert cs == [cs[0]] + cs[1..];
      if !Before(s, c, cs[0]) { InsertKeeps(s, c, cs[1..]); }
    }
  }

  lemma {:induction false} InsertSorted(s: Situation, c: Candidate, cs: seq<Candidate>)
    requires Sorted(s, cs) && forall k :: 0 <= k < |cs| ==> cs[k].i != c.i
    ensures Sorted(s, Insert(s, c, cs))
  {
    if cs != [] {
      var r := Insert(s, c, cs);
      if Before(s, c, cs[0]) {
        forall k | 0 <= k < |cs| ensures Before(s, c, cs[k]) {
          BeforeIsOrder(s, c, cs[0], cs[k]);
        }
      } else {
        var rest := Insert(s, c, cs[1..]);
        InsertSorted(s, c, cs[1..]);
        InsertKeeps(s, c, cs[1..]);
        BeforeIsOrder(s, cs[0], c, c);
        forall k | 0 <= k < |rest| ensures Before(s, cs[0], rest[k]) {
          assert rest[k] in multiset(rest);
          if rest[k] != c {
            assert rest[k] in cs[1..];
          }
        }
      }
    }
  }

  lemma {:induction false} SortKeeps(s: Situation, cs: seq<Candidate>)
    ensures multiset(Sort(s, cs)) == multiset(cs)
  {
    if cs != [] {
      SortKeeps(s, cs[1..]);
      InsertKeeps(s, cs[0], Sort(s, cs[1..]));
      assert cs == [cs[0]] + cs[1..];
    }
  }

  lemma {:induction false} SortSorts(s: Situation, cs: seq<Candidate>)
    requires Apart(cs)
    ensures Sorted(s, Sort(s, cs))
  {
    if cs != [] {
      var rest := Sort(s, cs[1..]);
      SortSorts(s, cs[1..]);
      SortKeeps(s, cs[1..]);
      forall k | 0 <= k < |rest| ensures rest[k].i != cs[0].i {
        assert rest[k] in multiset(rest);
        assert rest[k] in cs[1..];
      }
      InsertSorted(s, cs[0], rest);
    }
  }

  /** Whatever sorting algorithm is used, its result is this one. */
  lemma {:induction false} SortIsUnique(s: Situation, a: seq<Candidate>, b: seq<Candidate>)
    requires Sorted(s, a) && Sorted(s, b) && multiset(a) == multiset(b)
    ensures a == b
  {
    assert |a| == |multiset(a)| == |b|;
    if a != [] {
      HeadsAgree(s, a, b);
      assert a == [a[0]] + a[1..] && b == [b[0]] + b[1..];
      assert multiset(a[1..]) == multiset(a) - multiset{a[0]};
      assert multiset(b[1..]) == multiset(b) - multiset{b[0]};
      SortIsUnique(s, a[1..], b[1..]);
    }
  }

  lemma HeadsAgree(s: Situation, a: seq<Candidate>, b: seq<Candidate>)
    requires Sorted(s, a) && Sorted(s, b) && multiset(a) == multiset(b) && a != [] && b != []
    ensures a[0] == b[0]
  {
    assert a[0] in multiset(b) && b[0] in multiset(a);
    var i :| 0 <= i < |b| && b[i] == a[0];
    var j :| 0 <= j < |a| && a[j] == b[0];
    BeforeIsOrder(s, a[0], b[0], b[0]);
  }

  // --- the plan -------------------------------------------------------------------------

  function Ordered(s: Situation, ranks: seq<PillarRank>): seq<Candidate> {
    Sort(s, Numbered(Fit(Ailing(s), ranks)))
  }

  function Reason(s: Situation, r: PillarRank): Why {
    if s.focus == Some(r.pillar) then Focused else MostBehind(r.rank)
  }

  function Drills(s: Situation, cs: seq<Candidate>): seq<Drill> {
    seq(|cs|, i requires 0 <= i < |cs| => Drill(cs[i].r.pillar, Reason(s, cs[i].r)))
  }

  function Held(cs: seq<Candidate>): seq<Deferral> {
    seq(|cs|, i requires 0 <= i < |cs| => Deferral(cs[i].r.pillar, Trimmed(cs[i].r.rank)))
  }

  function Unfit(ailing: bool, ranks: seq<PillarRank>): seq<Deferral> {
    if ranks == [] then []
    else
      var last := ranks[|ranks| - 1];
      Unfit(ailing, ranks[..|ranks| - 1]) + (if ailing && last.pillar.Body? then [Deferral(Body, Injured)] else [])
  }

  /** The first `capacity` fit pillars in priority order are drilled, all others deferred. */
  function Plan(s: Situation, ranks: seq<PillarRank>): SessionPlan {
    var ordered := Ordered(s, ranks);
    var n := Min(SessionCapacity(s), |ordered|);
    SessionPlan(SessionCapacity(s), Drills(s, ordered[..n]), Unfit(Ailing(s), ranks) + Held(ordered[n..]))
  }

  /** The first loop of `planSession`: who may be drilled, who is held back for an injury. */
  method Screen(ailing: bool, ranks: seq<PillarRank>) returns (candidates: seq<PillarRank>, deferred: seq<Deferral>)
    ensures candidates == Fit(ailing, ranks) && deferred == Unfit(ailing, ranks)
  {
    candidates, deferred := [], [];
    for i := 0 to |ranks|
      invariant candidates == Fit(ailing, ranks[..i]) && deferred == Unfit(ailing, ranks[..i])
    {
      assert ranks[..i + 1][..i] == ranks[..i];
      if ailing && ranks[i].pillar.Body? {
        deferred := deferred + [Deferral(Body, Injured)];
      } else {
        candidates := candidates + [ranks[i]];
      }
    }
    assert ranks[..|ranks|] == ranks;
  }

  /** The next in order is drilled while there is capacity, and deferred afterwards. */
  lemma HandOut(s: Situation, ordered: seq<Candidate>, capacity: nat, i: nat)
    requires i < |ordered|
    ensures |Drills(s, ordered[..Min(capacity, i)])| == Min(capacity, i)
    ensures i < capacity ==>
              && Min(capacity, i) == i && Min(capacity, i + 1) == i + 1
              && Drills(s, ordered[..i + 1]) ==
                 Drills(s, ordered[..i]) + [Drill(ordered[i].r.pillar, Reason(s, ordered[i].r))]
    ensures i >= capacity ==>
              && Min(capacity, i) == Min(capacity, i + 1) == capacity
              && Held(ordered[capacity..i + 1]) ==
                 Held(ordered[capacity..i]) + [Deferral(ordered[i].r.pillar, Trimmed(ordered[i].r.rank))]
  {
    if i < capacity {
      assert ordered[..i + 1] == ordered[..i] + [ordered[i]];
    } else {
      assert ordered[capacity..i + 1] == ordered[capacity..i] + [ordered[i]];
    }
  }

  lemma NoneHeld(cs: seq<Candidate>, i: nat)
    requires i <= |cs|
    ensures Held(cs[i..i]) == []
  {}

  /** `planSession`: filter, sort, then hand out places one by one. */
  method PlanSession(s: Situation, ranks: seq<PillarRank>) returns (plan: SessionPlan)
    ensures plan == Plan(s, ranks)
  {
    var capacity := SessionCapacity(s);
    var candidates, deferred := Screen(Ailing(s), ranks);
    var ordered := Sort(s, Numbered(candidates));
    var drills: seq<Drill> := [];
    ghost var unfit := deferred;
    NoneHeld(ordered, 0);
    for i := 0 to |ordered|
      invariant drills == Drills(s, ordered[..Min(capacity, i)])
      invariant deferred == unfit + Held(ordered[Min(capacity, i)..i])
    {
      var r := ordered[i].r;
      HandOut(s, ordered, capacity, i);
      if |drills| < capacity {
        drills := drills + [Drill(r.pillar, Reason(s, r))];
        NoneHeld(ordered, i);
        NoneHeld(ordered, i + 1);
      } else {
        deferred := deferred + [Deferral(r.pillar, Trimmed(r.rank))];
      }
    }
    assert ordered[..|ordered|] == ordered;
    plan := SessionPlan(capacity, drills, deferred);
  }

  // --- what the plan promises -----------------------------------------------------------

  function DrillPillars(ds: seq<Drill>): seq<Pillar> {
    if ds == [] then [] else [ds[0].pillar] + DrillPillars(ds[1..])
  }
  function HeldPillars(ds: seq<Deferral>): seq<Pillar> {
    if ds == [] then [] else [ds[0].pillar] + HeldPillars(ds[1..])
  }
  function Pillars(rs: seq<PillarRank>): seq<Pillar> {
    if rs == [] then [] else [rs[0].pillar] + Pillars(rs[1..])
  }
  function CandidatePillars(cs: seq<Candidate>): seq<Pillar> {
    if cs == [] then [] else [cs[0].r.pillar] + CandidatePillars(cs[1..])
  }

  lemma {:induction false} HeldPillarsAppend(a: seq<Deferral>, b: seq<Deferral>)
    ensures HeldPillars(a + b) == HeldPillars(a) + HeldPillars(b)
  {
    if a == [] { assert a + b == b; } else {
      assert (a + b)[1..] == a[1..] + b;
      HeldPillarsAppend(a[1..], b);
    }
  }

  lemma {:induction false} PillarsAppend(a: seq<PillarRank>, b: seq<PillarRank>)
    ensures Pillars(a + b) == Pillars(a) + Pillars(b)
  {
    if a == [] { assert a + b == b; } else {
      assert (a + b)[1..] == a[1..] + b;
      PillarsAppend(a[1..], b);
    }
  }

  lemma FitSnoc(ailing: bool, init: seq<PillarRank>, last: PillarRank)
    ensures var out := ailing && last.pillar.Body?;
            && Pillars(Fit(ailing, init + [last])) == Pillars(Fit(ailing, init)) + (if out then [] else [last.pillar])
            && HeldPillars(Unfit(ailing, init + [last])) ==
               HeldPillars(Unfit(ailing, init)) + (if out then [last.pillar] else [])
  {
    var ranks := init + [last];
    assert ranks[..|ranks| - 1] == init;
    if ailing && last.pillar.Body? {
      assert Fit(ailing, ranks) == Fit(ailing, init);
      HeldPillarsAppend(Unfit(ailing, init), [Deferral(Body, Injured)]);
      assert HeldPillars([Deferral(Body, Injured)]) == [Body];
    } else {
      assert Unfit(ailing, ranks) == Unfit(ailing, init);
      LastPillar(Fit(ailing, init), last);
    }
  }

  lemma {:induction false} SplitByFitness(ailing: bool, ranks: seq<PillarRank>)
    ensures multiset(Pillars(ranks)) ==
            multiset(Pillars(Fit(ailing, ranks))) + multiset(HeldPillars(Unfit(ailing, ranks)))
  {
    if ranks != [] {
      var init, last := ranks[..|ranks| - 1], ranks[|ranks| - 1];
      SplitByFitness(ailing, init);
      FitSnoc(ailing, init, last);
      LastPillar(init, last);
      assert ranks == init + [last];
    }
  }

  lemma LastPillar(init: seq<PillarRank>, last: PillarRank)
    ensures Pillars(init + [last]) == Pillars(init) + [last.pillar]
  {
    PillarsAppend(init, [last]);
    assert Pillars([last]) == [last.pillar];
  }

  lemma {:induction false} InsertPillars(s: Situation, c: Candidate, cs: seq<Candidate>)
    ensures multiset(CandidatePillars(Insert(s, c, cs))) == multiset(CandidatePillars(cs)) + multiset{c.r.pillar}
  {
    if cs != [] {
      if Before(s, c, cs[0]) {
        assert ([c] + cs)[1..] == cs;
      } else {
        var rest := Insert(s, c, cs[1..]);
        InsertPillars(s, c, cs[1..]);
        assert ([cs[0]] + rest)[1..] == rest;
      }
    }
  }

  lemma {:induction false} SortPillars(s: Situation, cs: seq<Candidate>)
    ensures multiset(CandidatePillars(Sort(s, cs))) == multiset(CandidatePillars(cs))
  {
    if cs != [] {
      SortPillars(s, cs[1..]);
      InsertPillars(s, cs[0], Sort(s, cs[1..]));
    }
  }

  lemma {:induction false} SlicePillars(s: Situation, cs: seq<Candidate>, n: nat)
    requires n <= |cs|
    ensures CandidatePillars(cs) == DrillPillars(Drills(s, cs[..n])) + HeldPillars(Held(cs[n..]))
    decreases |cs|
  {
    if n > 0 {
      SlicePillars(s, cs[1..], n - 1);
      assert cs[1..][..n - 1] == cs[..n][1..] && cs[1..][n - 1..] == cs[n..];
      assert Drills(s, cs[..n])[1..] == Drills(s, cs[..n][1..]);
    } else {
      assert cs[0..] == cs;
      AllHeld(cs);
    }
  }

  lemma {:induction false} AllHeld(cs: seq<Candidate>)
    ensures HeldPillars(Held(cs)) == CandidatePillars(cs)
  {
    if cs != [] {
      AllHeld(cs[1..]);
      assert Held(cs)[1..] == Held(cs[1..]);
    }
  }

  lemma {:induction false} NumberedPillars(ranks: seq<PillarRank>, cs: seq<Candidate>)
    requires |cs| == |ranks| && forall k :: 0 <= k < |cs| ==> cs[k].r == ranks[k]
    ensures CandidatePillars(cs) == Pillars(ranks)
  {
    if ranks != [] { NumberedPillars(ranks[1..], cs[1..]); }
  }

  /** Every pillar of the roster is drilled or deferred, as often as it is listed. */
  lemma PlanPartitions(s: Situation, ranks: seq<PillarRank>)
    ensures var plan := Plan(s, ranks);
            multiset(DrillPillars(plan.drills)) + multiset(HeldPillars(plan.deferred)) == multiset(Pillars(ranks))
  {
    var fit := Fit(Ailing(s), ranks);
    var unfit := Unfit(Ailing(s), ranks);
    var ordered := Ordered(s, ranks);
    var n := Min(SessionCapacity(s), |ordered|);
    SplitByFitness(Ailing(s), ranks);
    SortPillars(s, Numbered(fit));
    NumberedPillars(fit, Numbered(fit));
    SlicePillars(s, ordered, n);
    HeldPillarsAppend(unfit, Held(ordered[n..]));
  }

  /** The order the places are handed out in: sorted, and exactly the fit pillars. */
  lemma OrderedIs(s: Situation, ranks: seq<PillarRank>)
    ensures Sorted(s, Ordered(s, ranks))
    ensures multiset(Ordered(s, ranks)) == multiset(Numbered(Fit(Ailing(s), ranks)))
    ensures |Ordered(s, ranks)| == |Fit(Ailing(s), ranks)|
  {
    var cs := Numbered(Fit(Ailing(s), ranks));
    SortSorts(s, cs);
    SortKeeps(s, cs);
    assert |Sort(s, cs)| == |multiset(Sort(s, cs))| == |multiset(cs)| == |cs|;
  }

  lemma {:induction false} FitIsFit(ailing: bool, ranks: seq<PillarRank>, r: PillarRank)
    ensures r in Fit(ailing, ranks) <==> r in ranks && !(ailing && r.pillar.Body?)
  {
    if ranks != [] {
      FitIsFit(ailing, ranks[..|ranks| - 1], r);
      assert ranks == ranks[..|ranks| - 1] + [ranks[|ranks| - 1]];
    }
  }

  lemma OrderedFrom(s: Situation, ranks: seq<PillarRank>, k: nat)
    requires k < |Ordered(s, ranks)|
    ensures Ordered(s, ranks)[k].r in Fit(Ailing(s), ranks)
  {
    OrderedIs(s, ranks);
    var c := Ordered(s, ranks)[k];
    assert c in multiset(Ordered(s, ranks));
    assert c in Numbered(Fit(Ailing(s), ranks));
  }

  /** As many drills as the day sustains; under an ailment never the body. */
  lemma DrillsFit(s: Situation, ranks: seq<PillarRank>)
    ensures var plan := Plan(s, ranks);
            && |plan.drills| == Min(SessionCapacity(s), |Fit(Ailing(s), ranks)|)
            && (Ailing(s) ==> forall k :: 0 <= k < |plan.drills| ==> plan.drills[k].pillar != Body)
  {
    OrderedIs(s, ranks);
    var plan := Plan(s, ranks);
    forall k | 0 <= k < |plan.drills| && Ailing(s) ensures plan.drills[k].pillar != Body {
      OrderedFrom(s, ranks, k);
      FitIsFit(Ailing(s), ranks, Ordered(s, ranks)[k].r);
    }
  }

  /** The focus goes first, then the lower rank, and among equals the earlier in the roster. */
  lemma HandedOutInOrder(s: Situation, ranks: seq<PillarRank>, i: nat, j: nat)
    requires i < j < |Ordered(s, ranks)|
    ensures var a, b, fit := Ordered(s, ranks)[i], Ordered(s, ranks)[j], Fit(Ailing(s), ranks);
            && a.i < |fit| && a.r == fit[a.i] && b.i < |fit| && b.r == fit[b.i]
            && (s.focus == Some(b.r.pillar) ==> s.focus == Some(a.r.pillar))
            && ((s.focus == Some(a.r.pillar) <==> s.focus == Some(b.r.pillar)) ==>
                  a.r.rank < b.r.rank || (a.r.rank == b.r.rank && a.i < b.i))
  {
    OrderedIs(s, ranks);
    var a, b := Ordered(s, ranks)[i], Ordered(s, ranks)[j];
    assert Before(s, a, b);
    assert a in multiset(Ordered(s, ranks)) && b in multiset(Ordered(s, ranks));
    assert a in Numbered(Fit(Ailing(s), ranks)) && b in Numbered(Fit(Ailing(s), ranks));
  }

  /** What is fit is what the roster lists, in its order: only an ailing body falls out. */
  lemma {:induction false} FitCuts(ailing: bool, a: seq<PillarRank>, r: PillarRank, b: seq<PillarRank>)
    ensures Fit(ailing, []) == [] && Fit(ailing, [r]) == if ailing && r.pillar == Body then [] else [r]
    ensures Fit(ailing, a + b) == Fit(ailing, a) + Fit(ailing, b)
    ensures Unfit(ailing, []) == []
    ensures Unfit(ailing, [r]) == if ailing && r.pillar == Body then [Deferral(Body, Injured)] else []
    ensures Unfit(ailing, a + b) == Unfit(ailing, a) + Unfit(ailing, b)
  {
    assert [r][..0] == [];
    if b == [] { assert a + b == a; } else {
      assert (a + b)[..|a + b| - 1] == a + b[..|b| - 1];
      FitCuts(ailing, a, r, b[..|b| - 1]);
    }
  }

  /** The plan says why each is drilled or held: the injured first, then those there was no time for. */
  lemma PlanSaysWhy(s: Situation, ranks: seq<PillarRank>, k: nat)
    ensures var plan, o := Plan(s, ranks), Ordered(s, ranks);
            var n, hurt := |plan.drills|, Unfit(Ailing(s), ranks);
            && (k < n ==> plan.drills[k] == if s.focus == Some(o[k].r.pillar) then Drill(o[k].r.pillar, Focused)
                                           else Drill(o[k].r.pillar, MostBehind(o[k].r.rank)))
            && n <= |o| && |plan.deferred| == |hurt| + |o| - n && hurt <= plan.deferred
            && (n <= k < |o| ==> plan.deferred[|hurt| + k - n] == Deferral(o[k].r.pillar, Trimmed(o[k].r.rank)))
  {}

  /** How many pillars, and how hard, for each energy: below 20 minutes and from 50 on it makes a difference. */
  lemma CapacityTable(s: Situation)
    ensures SessionCapacity(s) ==
            match s.energy
            case Low => 1
            case Normal => (if s.minutes >= 20.0 then 2 else 1)
            case High => (if s.minutes >= 50.0 then 3 else if s.minutes >= 20.0 then 2 else 1)
    ensures DrillIntensity(s) ==
            match SessionCapacity(s) case 1 => Recovery case 2 => Standard case _ => Intensity.Max
  {}

  /** More time or more energy never sustains fewer pillars, and the load follows the capacity. */
  lemma CapacityMonotone(s: Situation, t: Situation)
    requires s.minutes <= t.minutes
    requires s.energy == t.energy || s.energy.Low? || t.energy.High?
    ensures SessionCapacity(s) <= SessionCapacity(t)
    ensures DrillIntensity(s).Max? <==> SessionCapacity(s) == 3
    ensures DrillIntensity(s).Recovery? <==> SessionCapacity(s) == 1
  {}

  lemma {:induction false} InsertSameOrder(s: Situation, t: Situation, c: Candidate, cs: seq<Candidate>)
    requires s.focus == t.focus
    ensures Insert(s, c, cs) == Insert(t, c, cs)
  {
    if cs != [] { InsertSameOrder(s, t, c, cs[1..]); }
  }

  lemma {:induction false} SameOrder(s: Situation, t: Situation, cs: seq<Candidate>)
    requires s.focus == t.focus
    ensures Sort(s, cs) == Sort(t, cs)
  {
    if cs != [] {
      SameOrder(s, t, cs[1..]);
      InsertSameOrder(s, t, cs[0], Sort(t, cs[1..]));
    }
  }

  /** On an otherwise equal day, more time or more energy only extends the drill list. */
  lemma MoreOnlyExtends(s: Situation, t: Situation, ranks: seq<PillarRank>)
    requires s.focus == t.focus && Ailing(s) == Ailing(t)
    requires s.minutes <= t.minutes && (s.energy == t.energy || s.energy.Low? || t.energy.High?)
    ensures Plan(s, ranks).drills <= Plan(t, ranks).drills
  {
    CapacityMonotone(s, t);
    SameOrder(s, t, Numbered(Fit(Ailing(s), ranks)));
    var ordered := Ordered(s, ranks);
    FewerDrills(s, t, ordered, Min(SessionCapacity(s), |ordered|), Min(SessionCapacity(t), |ordered|));
  }

  lemma FewerDrills(s: Situation, t: Situation, cs: seq<Candidate>, m: nat, n: nat)
    requires s.focus == t.focus && m <= n <= |cs|
    ensures Drills(s, cs[..m]) <= Drills(t, cs[..n])
  {
    var few, more := Drills(s, cs[..m]), Drills(t, cs[..n]);
    forall i | 0 <= i < m ensures few[i] == more[i] {
      assert cs[..m][i] == cs[..n][i];
    }
  }
}
