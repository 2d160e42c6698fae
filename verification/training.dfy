/** Training over many days: the archive feeds the ranks, the ranks feed the plan, the plan feeds the archive. */
module Training {
  import opened Options
  import opened Situation
  import opened Codex
  import opened PreceptorSession

  /** The ranks as the plan reads them, in the fixed order of the pillars. */
  function Roster(r: Ranks): seq<PillarRank> {
    [PillarRank(Body, r.body), PillarRank(Mind, r.mind), PillarRank(Lore, r.lore)]
  }

  function RaiseAll(r: Ranks, ps: seq<Pillar>): Ranks
    decreases |ps|
  {
    if ps == [] then r else RaiseAll(Raise(r, ps[0]), ps[1..])
  }

  function AfterDay(r: Ranks, s: Situation): Ranks {
    RaiseAll(r, Targets(Plan(s, Roster(r)).drills))
  }

  function AfterDays(r: Ranks, days: seq<Situation>): Ranks {
    if days == [] then r else AfterDay(AfterDays(r, days[..|days| - 1]), days[|days| - 1])
  }

  /** A day on which nothing but rank and place decides. */
  predicate Plain(s: Situation) { s.focus.None? && !Ailing(s) }

  predicate Spread(r: Ranks, b: nat) {
    forall p, q :: RankOf(r, p) - RankOf(r, q) <= b
  }

  // --- who is drilled -----------------------------------------------------------------------

  /** The pillar stands among the first `n` of the order. */
  ghost predicate Among(cs: seq<Candidate>, n: nat, p: Pillar)
    requires n <= |cs|
  {
    exists k :: 0 <= k < n && cs[k].r.pillar == p
  }

  lemma {:induction false} AllFit(ranks: seq<PillarRank>)
    ensures Fit(false, ranks) == ranks
  {
    if ranks != [] { AllFit(ranks[..|ranks| - 1]); }
  }

  function PlaceOf(p: Pillar): nat { match p case Body => 0 case Mind => 1 case Lore => 2 }

  /** The pillar's candidate: its rank and its place in the roster. */
  function Entry(r: Ranks, p: Pillar): Candidate { Candidate(PillarRank(p, RankOf(r, p)), PlaceOf(p)) }

  /** Without an ailment the order lists each pillar once, with its rank. */
  lemma OrderOfRoster(s: Situation, r: Ranks)
    requires !Ailing(s)
    ensures var o := Ordered(s, Roster(r));
            && |o| == 3 && Sorted(s, o)
            && (forall k :: 0 <= k < 3 ==> o[k] == Entry(r, o[k].r.pillar))
  {
    var roster := Roster(r);
    var o := Ordered(s, roster);
    AllFit(roster);
    OrderedIs(s, roster);
    forall k | 0 <= k < 3
      ensures o[k] == Entry(r, o[k].r.pillar)
    {
      assert o[k] in multiset(o);
      assert o[k] in Numbered(roster);
    }
  }

  lemma EachPillarListed(s: Situation, r: Ranks, p: Pillar)
    requires !Ailing(s)
    ensures |Ordered(s, Roster(r))| == 3 && Among(Ordered(s, Roster(r)), 3, p)
  {
    var roster := Roster(r);
    var o := Ordered(s, roster);
    AllFit(roster);
    OrderedIs(s, roster);
    var c := Numbered(roster)[PlaceOf(p)];
    assert c in multiset(Numbered(roster));
    assert c in o;
  }

  /** No pillar is listed twice. */
  lemma OrderedApart(s: Situation, r: Ranks, j: nat, k: nat)
    requires !Ailing(s) && j < k < 3
    ensures var o := Ordered(s, Roster(r)); |o| == 3 && o[j].r.pillar != o[k].r.pillar
  {
    OrderOfRoster(s, r);
    var o := Ordered(s, Roster(r));
    BeforeIsOrder(s, o[j], o[k], o[k]);
  }

  lemma {:induction false} RaisedOnce(r: Ranks, ps: seq<Pillar>, p: Pillar)
    requires forall j, k :: 0 <= j < k < |ps| ==> ps[j] != ps[k]
    ensures RankOf(RaiseAll(r, ps), p) == RankOf(r, p) + if p in ps then 1 else 0
    decreases |ps|
  {
    if ps != [] {
      RaisedOnce(Raise(r, ps[0]), ps[1..], p);
      assert ps == [ps[0]] + ps[1..];
      assert p == ps[0] ==> p !in ps[1..];
    }
  }

  /** A drilled pillar ranks no higher than one that is left out. */
  lemma LowestFirst(s: Situation, r: Ranks, p: Pillar, q: Pillar)
    requires Plain(s)
    ensures var ps := Targets(Plan(s, Roster(r)).drills);
            && (forall j, k :: 0 <= j < k < |ps| ==> ps[j] != ps[k])
            && (p in ps && q !in ps ==> RankOf(r, p) <= RankOf(r, q))
  {
    OrderOfRoster(s, r);
    var o := Ordered(s, Roster(r));
    var ps := Targets(Plan(s, Roster(r)).drills);
    assert forall k :: 0 <= k < |ps| ==> ps[k] == o[k].r.pillar;
    forall j, k | 0 <= j < k < |ps| ensures ps[j] != ps[k] { OrderedApart(s, r, j, k); }
    if p in ps && q !in ps {
      EachPillarListed(s, r, q);
      var j :| 0 <= j < |ps| && ps[j] == p;
      var k :| 0 <= k < 3 && o[k].r.pillar == q;
      assert k >= |ps|;
      assert Before(s, o[j], o[k]);
    }
  }

  lemma DayKeepsSpread(s: Situation, r: Ranks, b: nat)
    requires Plain(s) && Spread(r, b) && b >= 1
    ensures Spread(AfterDay(r, s), b)
  {
    var ps := Targets(Plan(s, Roster(r)).drills);
    forall p, q ensures RankOf(AfterDay(r, s), p) - RankOf(AfterDay(r, s), q) <= b {
      LowestFirst(s, r, p, q);
      RaisedOnce(r, ps, p);
      RaisedOnce(r, ps, q);
      assert RankOf(r, p) - RankOf(r, q) <= b;
    }
  }

  /** However many days, whatever their length: no pillar falls behind by more than it did, or by one. */
  lemma {:induction false} FairOverAllDays(r: Ranks, days: seq<Situation>, b: nat)
    requires forall k :: 0 <= k < |days| ==> Plain(days[k])
    requires b >= 1 && Spread(r, b)
    ensures Spread(AfterDays(r, days), b)
  {
    if days != [] {
      FairOverAllDays(r, days[..|days| - 1], b);
      DayKeepsSpread(days[|days| - 1], AfterDays(r, days[..|days| - 1]), b);
    }
  }

  /** The day on which only the pillar asked for is drilled. */
  const TiredForLore := Situation(15.0, Low, Some(Lore), None)

  lemma FocusDay(r: Ranks)
    ensures AfterDay(r, TiredForLore) == Raise(r, Lore)
  {
    var s := TiredForLore;
    OrderOfRoster(s, r);
    EachPillarListed(s, r, Lore);
    var o := Ordered(s, Roster(r));
    var k :| 0 <= k < 3 && o[k].r.pillar == Lore;
    assert k == 0 || Before(s, o[0], o[k]);
    assert o[0].r.pillar == Lore;
    var ps := Targets(Plan(s, Roster(r)).drills);
    assert ps == [Lore];
    assert RaiseAll(Raise(r, Lore), ps[1..]) == Raise(r, Lore);
  }

  /** The guard is needed: asking for one pillar day after day drives the ranks apart without bound. */
  lemma {:induction false} FocusDriftsApart(r: Ranks, days: seq<Situation>)
    requires forall k :: 0 <= k < |days| ==> days[k] == TiredForLore
    ensures RankOf(AfterDays(r, days), Lore) - RankOf(AfterDays(r, days), Body) == r.lore - r.body + |days|
  {
    if days != [] {
      FocusDriftsApart(r, days[..|days| - 1]);
      FocusDay(AfterDays(r, days[..|days| - 1]));
    }
  }

  // --- on the archive -----------------------------------------------------------------------

  /** One session: read the ranks, plan, and let each planned pillar append its entry. */
  method TrainDay(kb: Archive, regimen: Regimen, s: Situation)
    requires kb.Valid() && Usable(regimen)
    modifies kb
    ensures kb.Valid() && kb.Steps() == AfterDay(old(kb.Steps()), s)
  {
    var ranks := kb.Steps();
    var plan := PlanSession(s, Roster(ranks));
    ghost var ps := Targets(plan.drills);
    ghost var after := AfterDay(ranks, s);
    for k := 0 to |plan.drills|
      invariant kb.Valid() && RaiseAll(kb.Steps(), ps[k..]) == after
    {
      assert ps[k..][1..] == ps[k + 1..];
      var _ := kb.HandleTask(regimen, plan.drills[k].pillar, Some(s));
    }
  }

  /** Plain days from the induction on: the archive never lets a pillar fall behind by more than one entry. */
  method Train(kb: Archive, regimen: Regimen, days: seq<Situation>)
    requires kb.Valid() && Usable(regimen)
    modifies kb
    ensures kb.Valid() && kb.Steps() == AfterDays(old(kb.Steps()), days)
    ensures kb.Valid() && (forall k :: 0 <= k < |days| ==> Plain(days[k])) && Spread(old(kb.Steps()), 1) ==>
              Spread(kb.Steps(), 1)
  {
    ghost var r := kb.Steps();
    for k := 0 to |days|
      invariant kb.Valid() && kb.Steps() == AfterDays(r, days[..k])
    {
      assert days[..k + 1][..k] == days[..k];
      TrainDay(kb, regimen, days[k]);
    }
    assert days[..|days|] == days;
    if (forall k :: 0 <= k < |days| ==> Plain(days[k])) && Spread(r, 1) {
      FairOverAllDays(r, days, 1);
    }
  }
}
