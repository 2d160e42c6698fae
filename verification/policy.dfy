/** The standing arrangement as a file: edits clause by clause, a stored normal form, load and save. */
module Policy {
  import opened Options
  import opened Routing

  datatype Key = Profiles | Unavailable | SingleCoder | PreferLead

  /** A policy object: its fields, and the order in which its keys were inserted. */
  datatype Policy = Policy(
    profiles: seq<Profile>,
    unavailable: Option<seq<Agent>>,
    singleCoder: Option<bool>,
    preferLead: Option<Agent>,
    keys: seq<Key>)

  const Default := Policy(
    [ Profile(DeepseekTui, ["review", "analysis", "design", "refactor", "multi-file"]),
      Profile(Codex, ["implement", "quick-fix", "scaffold", "single-file"]) ],
    None, None, None, [Profiles])

  /** The keys a freshly cloned policy has, in the order the clone writes them. */
  function CloneKeys(p: Policy): seq<Key> {
    [Profiles] + (if p.unavailable.Some? then [Unavailable] else [])
    + (if p.singleCoder.Some? then [SingleCoder] else []) + (if p.preferLead.Some? then [PreferLead] else [])
  }

  function Clone(p: Policy): Policy { p.(keys := CloneKeys(p)) }

  function AddKey(keys: seq<Key>, k: Key): seq<Key> { if k in keys then keys else keys + [k] }

  function DropKey(keys: seq<Key>, k: Key): (r: seq<Key>)
    ensures forall x :: x in r <==> x in keys && x != k
  {
    if keys == [] then [] else (if keys[0] == k then [] else [keys[0]]) + DropKey(keys[1..], k)
  }

  function SetUnavailable(p: Policy, off: seq<Agent>): Policy {
    p.(unavailable := Some(off), keys := AddKey(p.keys, Unavailable))
  }
  function DropUnavailable(p: Policy): Policy { p.(unavailable := None, keys := DropKey(p.keys, Unavailable)) }
  function SetSingle(p: Policy): Policy { p.(singleCoder := Some(true), keys := AddKey(p.keys, SingleCoder)) }
  function DropSingle(p: Policy): Policy { p.(singleCoder := None, keys := DropKey(p.keys, SingleCoder)) }
  function SetLead(p: Policy, a: Agent): Policy { p.(preferLead := Some(a), keys := AddKey(p.keys, PreferLead)) }

  /** What the planner reads out of a policy object. */
  function ArrangementOf(p: Policy): Arrangement {
    Arrangement(p.profiles, OffList(p), p.singleCoder == Some(true), p.preferLead)
  }

  // --- one clause ---------------------------------------------------------------------------

  datatype Change = MarkedOff(agent: Agent) | BackOn(agent: Agent) | LeadIs(agent: Agent) | CapLifted | Capped

  function OffList(p: Policy): seq<Agent> { if p.unavailable.Some? then p.unavailable.value else [] }

  predicate Distinct(s: seq<Agent>) {
    forall i, j :: 0 <= i < j < |s| ==> s[i] != s[j]
  }

  /** Insert into a JavaScript set kept in insertion order. */
  function Insert(set_: seq<Agent>, a: Agent): (r: seq<Agent>)
    ensures forall x :: x in r <==> x in set_ || x == a
    ensures Distinct(set_) ==> Distinct(r)
    ensures set_ <= r
  {
    if a in set_ then set_ else set_ + [a]
  }

  function InsertAll(set_: seq<Agent>, more: seq<Agent>): (r: seq<Agent>)
    ensures forall x :: x in r <==> x in set_ || x in more
    ensures Distinct(set_) ==> Distinct(r)
    decreases |more|
  {
    if more == [] then set_ else InsertAll(Insert(set_, more[0]), more[1..])
  }

  function MarkChanges(off: seq<Agent>, named: seq<Agent>): seq<Change>
    decreases |named|
  {
    if named == [] then []
    else (if named[0] in off then [] else [MarkedOff(named[0])]) + MarkChanges(Insert(off, named[0]), named[1..])
  }

  function BackChanges(off: seq<Agent>, named: seq<Agent>): seq<Change>
    decreases |named|
  {
    if named == [] then []
    else (if named[0] in off then [BackOn(named[0])] else []) + BackChanges(Without(off, [named[0]]), named[1..])
  }

  function ApplyCall(lex: Lexicon, p: Policy, clause: string): (Policy, seq<Change>) {
    var named := AgentsIn(lex, clause);
    var off := InsertAll([], OffList(p));
    if lex.off(clause) && named != [] then
      (SetUnavailable(p, InsertAll(off, named)), MarkChanges(off, named))
    else if lex.on(clause) && named != [] then
      var left := Without(off, named);
      (if left != [] then SetUnavailable(p, left) else DropUnavailable(p), BackChanges(off, named))
    else (p, [])
  }

  function ApplyLead(lex: Lexicon, p: Policy, clause: string): (Policy, seq<Change>) {
    var named := AgentsIn(lex, clause);
    if lex.lead(clause) && named != [] && p.preferLead != Some(named[0])
    then (SetLead(p, named[0]), [LeadIs(named[0])]) else (p, [])
  }

  function ApplyBudget(lex: Lexicon, p: Policy, clause: string): (Policy, seq<Change>) {
    if lex.singleOff(clause) then
      if p.singleCoder == Some(true) then (DropSingle(p), [CapLifted]) else (p, [])
    else if lex.singleOn(clause) && p.singleCoder != Some(true) then (SetSingle(p), [Capped])
    else (p, [])
  }

  /** One intent of each sort, in the order the source tests them, on a clone. */
  function ApplyOne(lex: Lexicon, p: Policy, clause: string): (Policy, seq<Change>) {
    var (p1, c1) := ApplyCall(lex, Clone(p), clause);
    var (p2, c2) := ApplyLead(lex, p1, clause);
    var (p3, c3) := ApplyBudget(lex, p2, clause);
    (p3, c1 + c2 + c3)
  }

  function ApplyAll(lex: Lexicon, p: Policy, clauses: seq<string>): (Policy, seq<Change>) {
    if clauses == [] then (p, [])
    else
      var (q, c) := ApplyAll(lex, p, clauses[..|clauses| - 1]);
      var (r, d) := ApplyOne(lex, q, clauses[|clauses| - 1]);
      (r, c + d)
  }

  datatype EditResult = EditResult(policy: Policy, changes: seq<Change>)

  function Edit(lex: Lexicon, p: Policy, instruction: string): EditResult {
    var (q, c) := ApplyAll(lex, Clone(p), lex.split(instruction));
    EditResult(Clone(q), c)
  }

  /** `applyPolicyEdit`: the clauses one after the other, the changes collected. */
  method ApplyPolicyEdit(lex: Lexicon, policy: Policy, instruction: string) returns (r: EditResult)
    ensures r == Edit(lex, policy, instruction)
  {
    var next := Clone(policy);
    var changes: seq<Change> := [];
    var clauses := lex.split(instruction);
    for i := 0 to |clauses|
      invariant (next, changes) == ApplyAll(lex, Clone(policy), clauses[..i])
    {
      assert clauses[..i + 1][..i] == clauses[..i];
      var (q, c) := ApplyOne(lex, next, clauses[i]);
      next, changes := q, changes + c;
    }
    assert clauses[..|clauses|] == clauses;
    r := EditResult(Clone(next), changes);
  }

  // --- the normal form ------------------------------------------------------------------

  /** No redundant field, keys in the order the clone writes them. */
  predicate NormalForm(p: Policy) {
    && p.profiles != [] && p.keys == CloneKeys(p)
    && p.unavailable != Some([]) && p.singleCoder != Some(false)
  }

  /** What one clause keeps, whatever the key order. */
  predicate Plain(p: Policy) {
    p.profiles != [] && p.unavailable != Some([]) && p.singleCoder != Some(false)
  }

  lemma CallKeepsPlain(lex: Lexicon, p: Policy, clause: string)
    requires Plain(p)
    ensures Plain(ApplyCall(lex, p, clause).0)
  {
    var named := AgentsIn(lex, clause);
    if named != [] {
      assert named[0] in InsertAll(InsertAll([], OffList(p)), named);
    }
  }

  lemma LeadKeepsPlain(lex: Lexicon, p: Policy, clause: string)
    requires Plain(p)
    ensures Plain(ApplyLead(lex, p, clause).0)
  {}

  lemma BudgetKeepsPlain(lex: Lexicon, p: Policy, clause: string)
    requires Plain(p)
    ensures Plain(ApplyBudget(lex, p, clause).0)
  {}

  lemma OneKeepsPlain(lex: Lexicon, p: Policy, clause: string)
    requires Plain(p)
    ensures Plain(ApplyOne(lex, p, clause).0)
  {
    CallKeepsPlain(lex, Clone(p), clause);
    var p1 := ApplyCall(lex, Clone(p), clause).0;
    LeadKeepsPlain(lex, p1, clause);
    BudgetKeepsPlain(lex, ApplyLead(lex, p1, clause).0, clause);
  }

  lemma {:induction false} AllKeepPlain(lex: Lexicon, p: Policy, clauses: seq<string>)
    requires Plain(p)
    ensures Plain(ApplyAll(lex, p, clauses).0)
  {
    if clauses != [] {
      AllKeepPlain(lex, p, clauses[..|clauses| - 1]);
      OneKeepsPlain(lex, ApplyAll(lex, p, clauses[..|clauses| - 1]).0, clauses[|clauses| - 1]);
    }
  }

  lemma EditNormalises(lex: Lexicon, p: Policy, instruction: string)
    requires Plain(p)
    ensures NormalForm(Edit(lex, p, instruction).policy)
  {
    AllKeepPlain(lex, Clone(p), lex.split(instruction));
  }

  /** The policy after a whole session of edits. */
  function EditAll(lex: Lexicon, p: Policy, instructions: seq<string>): Policy
    decreases |instructions|
  {
    if instructions == [] then p else EditAll(lex, Edit(lex, p, instructions[0]).policy, instructions[1..])
  }

  lemma {:induction false} EditsStayNormal(lex: Lexicon, p: Policy, instructions: seq<string>)
    requires NormalForm(p)
    ensures NormalForm(EditAll(lex, p, instructions))
    decreases |instructions|
  {
    if instructions != [] {
      EditNormalises(lex, p, instructions[0]);
      EditsStayNormal(lex, Edit(lex, p, instructions[0]).policy, instructions[1..]);
    }
  }

  /** Every policy reachable from the default by edits is in normal form. */
  lemma ReachableIsNormal(lex: Lexicon, instructions: seq<string>)
    ensures NormalForm(EditAll(lex, Default, instructions))
  {
    EditsStayNormal(lex, Default, instructions);
  }

  // --- edits that do not get in each other's way --------------------------------------------

  predicate EditsCall(lex: Lexicon, clause: string) {
    (lex.off(clause) || lex.on(clause)) && AgentsIn(lex, clause) != []
  }
  predicate EditsLead(lex: Lexicon, clause: string) { lex.lead(clause) && AgentsIn(lex, clause) != [] }
  predicate EditsBudget(lex: Lexicon, clause: string) { lex.singleOff(clause) || lex.singleOn(clause) }

  /** The fields of a policy without the order of its keys. */
  predicate SameFields(p: Policy, q: Policy) {
    p.profiles == q.profiles && p.unavailable == q.unavailable && p.singleCoder == q.singleCoder
    && p.preferLead == q.preferLead
  }

  lemma CallField(lex: Lexicon, p: Policy, q: Policy, clause: string)
    ensures var a := ApplyCall(lex, p, clause).0; var b := ApplyCall(lex, q, clause).0;
            && (p.unavailable == q.unavailable ==> a.unavailable == b.unavailable)
            && a.profiles == p.profiles && a.preferLead == p.preferLead && a.singleCoder == p.singleCoder
            && (!EditsCall(lex, clause) ==> a.unavailable == p.unavailable)
  {}

  lemma LeadField(lex: Lexicon, p: Policy, q: Policy, clause: string)
    ensures var a := ApplyLead(lex, p, clause).0; var b := ApplyLead(lex, q, clause).0;
            && (p.preferLead == q.preferLead ==> a.preferLead == b.preferLead)
            && a.profiles == p.profiles && a.unavailable == p.unavailable && a.singleCoder == p.singleCoder
            && (!EditsLead(lex, clause) ==> a.preferLead == p.preferLead)
  {}

  lemma BudgetField(lex: Lexicon, p: Policy, q: Policy, clause: string)
    ensures var a := ApplyBudget(lex, p, clause).0; var b := ApplyBudget(lex, q, clause).0;
            && (p.singleCoder == q.singleCoder ==> a.singleCoder == b.singleCoder)
            && a.profiles == p.profiles && a.unavailable == p.unavailable && a.preferLead == p.preferLead
            && (!EditsBudget(lex, clause) ==> a.singleCoder == p.singleCoder)
  {}

  /** A clause leaves the fields alone that it does not edit. */
  lemma OthersUntouched(lex: Lexicon, p: Policy, clause: string)
    ensures var a := ApplyOne(lex, p, clause).0;
            && a.profiles == p.profiles
            && a.unavailable == ApplyCall(lex, Clone(p), clause).0.unavailable
            && (!EditsCall(lex, clause) ==> a.unavailable == p.unavailable)
            && (!EditsLead(lex, clause) ==> a.preferLead == p.preferLead)
            && (!EditsBudget(lex, clause) ==> a.singleCoder == p.singleCoder)
  {
    var p1 := ApplyCall(lex, Clone(p), clause).0;
    var p2 := ApplyLead(lex, p1, clause).0;
    CallField(lex, Clone(p), Clone(p), clause);
    LeadField(lex, p1, p1, clause);
    BudgetField(lex, p2, p2, clause);
  }

  /** Each field of the result depends on that field alone. */
  lemma FieldByField(lex: Lexicon, p: Policy, q: Policy, clause: string)
    ensures var a := ApplyOne(lex, p, clause).0; var b := ApplyOne(lex, q, clause).0;
            && (p.unavailable == q.unavailable ==> a.unavailable == b.unavailable)
            && (p.preferLead == q.preferLead ==> a.preferLead == b.preferLead)
            && (p.singleCoder == q.singleCoder ==> a.singleCoder == b.singleCoder)
  {
    var p1, q1 := ApplyCall(lex, Clone(p), clause).0, ApplyCall(lex, Clone(q), clause).0;
    var p2, q2 := ApplyLead(lex, p1, clause).0, ApplyLead(lex, q1, clause).0;
    CallField(lex, Clone(p), Clone(q), clause);
    CallField(lex, Clone(q), Clone(q), clause);
    LeadField(lex, p1, q1, clause);
    LeadField(lex, q1, q1, clause);
    BudgetField(lex, p2, q2, clause);
    BudgetField(lex, q2, q2, clause);
  }

  /** Two clauses that edit different fields give the same stored policy in either order. */
  lemma DisjointClausesCommute(lex: Lexicon, p: Policy, a: string, b: string)
    requires !(EditsCall(lex, a) && EditsCall(lex, b))
    requires !(EditsLead(lex, a) && EditsLead(lex, b))
    requires !(EditsBudget(lex, a) && EditsBudget(lex, b))
    ensures Clone(ApplyOne(lex, ApplyOne(lex, p, a).0, b).0) == Clone(ApplyOne(lex, ApplyOne(lex, p, b).0, a).0)
  {
    var pa := ApplyOne(lex, p, a).0;
    var pb := ApplyOne(lex, p, b).0;
    OthersUntouched(lex, p, a);
    OthersUntouched(lex, p, b);
    OthersUntouched(lex, pa, b);
    OthersUntouched(lex, pb, a);
    FieldByField(lex, pa, p, b);
    FieldByField(lex, pb, p, a);
    assert SameFields(ApplyOne(lex, pa, b).0, ApplyOne(lex, pb, a).0);
  }

  predicate IsOffCall(lex: Lexicon, clause: string) { lex.off(clause) && AgentsIn(lex, clause) != [] }

  lemma OffCallSet(lex: Lexicon, p: Policy, clause: string)
    requires IsOffCall(lex, clause)
    ensures forall x :: x in OffList(ApplyOne(lex, p, clause).0) <==> x in OffList(p) || x in AgentsIn(lex, clause)
  {
    var p1 := ApplyCall(lex, Clone(p), clause).0;
    OthersUntouched(lex, p, clause);
    assert OffList(p1) == InsertAll(InsertAll([], OffList(Clone(p))), AgentsIn(lex, clause));
  }

  /**
   * What a clause means for each field, in terms of the coders it mentions: off-call is tested
   * before on-call, the lead is the first coder on the roster of names, and lifting the cap is
   * tested before setting it.  A field that no intent of the clause touches stays.
   */
  lemma ClauseMeans(lex: Lexicon, p: Policy, clause: string)
    ensures var r := ApplyOne(lex, p, clause).0;
            var named := lex.mentionsDeepseek(clause) || lex.mentionsCodex(clause);
            && (forall x :: x in OffList(r) <==>
                  if lex.off(clause) && named then x in OffList(p) || Mentions(lex, clause, x)
                  else if lex.on(clause) && named then x in OffList(p) && !Mentions(lex, clause, x)
                  else x in OffList(p))
            && r.preferLead == (if lex.lead(clause) && named
                                then Some(if lex.mentionsDeepseek(clause) then DeepseekTui else Codex)
                                else p.preferLead)
            && (r.singleCoder == Some(true) <==>
                  if lex.singleOff(clause) then false else lex.singleOn(clause) || p.singleCoder == Some(true))
            && r.profiles == p.profiles
  {
    OthersUntouched(lex, p, clause);
    NamedIsMentioned(lex, clause);
    NamedMentions(lex, clause);
    var p1 := ApplyCall(lex, Clone(p), clause).0;
    var p2 := ApplyLead(lex, p1, clause).0;
    LeadField(lex, p1, p1, clause);
    BudgetField(lex, p2, p2, clause);
    CallField(lex, Clone(p), Clone(p), clause);
    if AgentsIn(lex, clause) != [] { CallMeans(lex, Clone(p), clause); }
    assert OffList(ApplyOne(lex, p, clause).0) == OffList(p1);
  }

  lemma {:induction false} MarkReports(off: seq<Agent>, named: seq<Agent>, c: Change)
    ensures c in MarkChanges(off, named) <==> c.MarkedOff? && c.agent in named && c.agent !in off
    decreases |named|
  {
    if named != [] { MarkReports(Insert(off, named[0]), named[1..], c); }
  }

  lemma {:induction false} BackReports(off: seq<Agent>, named: seq<Agent>, c: Change)
    ensures c in BackChanges(off, named) <==> c.BackOn? && c.agent in named && c.agent in off
    decreases |named|
  {
    if named != [] {
      BackReports(Without(off, [named[0]]), named[1..], c);
    }
  }

  lemma CallSays(lex: Lexicon, p: Policy, clause: string, named: seq<Agent>, c: Change)
    requires named == AgentsIn(lex, clause)
    ensures c in ApplyCall(lex, p, clause).1 <==>
              || (c.MarkedOff? && lex.off(clause) && c.agent in named && c.agent !in OffList(p))
              || (c.BackOn? && !lex.off(clause) && lex.on(clause) && c.agent in named && c.agent in OffList(p))
  {
    var off := InsertAll([], OffList(p));
    MarkReports(off, named, c);
    BackReports(off, named, c);
    if named != [] && lex.off(clause) {
      assert ApplyCall(lex, p, clause).1 == MarkChanges(off, named);
    } else if named != [] && lex.on(clause) {
      assert ApplyCall(lex, p, clause).1 == BackChanges(off, named);
    } else {
      assert ApplyCall(lex, p, clause).1 == [];
    }
  }

  lemma OthersSay(lex: Lexicon, p: Policy, clause: string, c: Change)
    ensures c in ApplyLead(lex, p, clause).1 <==>
              && AgentsIn(lex, clause) != [] && lex.lead(clause)
              && c == LeadIs(AgentsIn(lex, clause)[0]) && p.preferLead != Some(c.agent)
    ensures c in ApplyBudget(lex, p, clause).1 <==>
              || (c.CapLifted? && lex.singleOff(clause) && p.singleCoder == Some(true))
              || (c.Capped? && !lex.singleOff(clause) && lex.singleOn(clause) && p.singleCoder != Some(true))
  {}

  lemma SaidInTurn(lex: Lexicon, p: Policy, clause: string, c: Change)
    ensures var p1 := ApplyCall(lex, Clone(p), clause).0; var p2 := ApplyLead(lex, p1, clause).0;
            && p1.preferLead == p.preferLead && p2.singleCoder == p.singleCoder
            && (c in ApplyOne(lex, p, clause).1 <==>
                  || c in ApplyCall(lex, Clone(p), clause).1 || c in ApplyLead(lex, p1, clause).1
                  || c in ApplyBudget(lex, p2, clause).1)
  {}

  /** What a clause reports: exactly what it changes. */
  lemma ReportMeans(lex: Lexicon, p: Policy, clause: string, c: Change)
    ensures c in ApplyOne(lex, p, clause).1 <==>
            match c
            case MarkedOff(x) => lex.off(clause) && Mentions(lex, clause, x) && x !in OffList(p)
            case BackOn(x) => !lex.off(clause) && lex.on(clause) && Mentions(lex, clause, x) && x in OffList(p)
            case LeadIs(x) => lex.lead(clause) && p.preferLead != Some(x) && Mentions(lex, clause, x)
                              && (lex.mentionsDeepseek(clause) ==> x == DeepseekTui)
            case CapLifted => lex.singleOff(clause) && p.singleCoder == Some(true)
            case Capped => !lex.singleOff(clause) && lex.singleOn(clause) && p.singleCoder != Some(true)
  {
    var p1 := ApplyCall(lex, Clone(p), clause).0;
    SaidInTurn(lex, p, clause, c);
    CallSays(lex, Clone(p), clause, AgentsIn(lex, clause), c);
    OthersSay(lex, p1, clause, c);
    OthersSay(lex, ApplyLead(lex, p1, clause).0, clause, c);
    NamedMentions(lex, clause);
    NamedIsMentioned(lex, clause);
  }

  lemma CallMeans(lex: Lexicon, p: Policy, clause: string)
    requires AgentsIn(lex, clause) != []
    ensures var named := AgentsIn(lex, clause); var r := ApplyCall(lex, p, clause).0;
            && (lex.off(clause) ==> forall x :: x in OffList(r) <==> x in OffList(p) || x in named)
            && (!lex.off(clause) && lex.on(clause) ==> forall x :: x in OffList(r) <==> x in OffList(p) && x !in named)
  {
    var off := InsertAll([], OffList(p));
    assert forall x :: x in off <==> x in OffList(p);
    var left := Without(off, AgentsIn(lex, clause));
    assert left == [] ==> forall x :: x in off ==> x in AgentsIn(lex, clause);
  }

  /** Two off-call clauses mark the same coders, whichever comes first. */
  lemma OffCallClausesCommute(lex: Lexicon, p: Policy, a: string, b: string, x: Agent)
    requires IsOffCall(lex, a) && IsOffCall(lex, b)
    ensures x in OffList(ApplyOne(lex, ApplyOne(lex, p, a).0, b).0) <==>
            x in OffList(ApplyOne(lex, ApplyOne(lex, p, b).0, a).0)
  {
    OffCallSet(lex, p, a);
    OffCallSet(lex, p, b);
    OffCallSet(lex, ApplyOne(lex, p, a).0, b);
    OffCallSet(lex, ApplyOne(lex, p, b).0, a);
  }

  // --- "unchanged if nothing was understood" ------------------------------------------------

  lemma {:induction false} DistinctKept(s: seq<Agent>, i: nat)
    requires Distinct(s) && i <= |s|
    ensures InsertAll(s[..i], s[i..]) == s
    decreases |s| - i
  {
    if i < |s| {
      assert Insert(s[..i], s[i]) == s[..i + 1];
      assert s[i..][1..] == s[i + 1..];
      DistinctKept(s, i + 1);
    } else {
      assert s[..i] == s;
    }
  }

  lemma {:induction false} NoneMarked(off: seq<Agent>, named: seq<Agent>)
    requires MarkChanges(off, named) == []
    ensures InsertAll(off, named) == off
    decreases |named|
  {
    if named != [] { NoneMarked(off, named[1..]); }
  }

  lemma {:induction false} WithoutAbsent(off: seq<Agent>, x: seq<Agent>)
    requires forall a :: a in x ==> a !in off
    ensures Without(off, x) == off
  {
    if off != [] {
      assert off[0] in off;
      forall a | a in x ensures a !in off[1..] { }
      WithoutAbsent(off[1..], x);
    }
  }

  lemma {:induction false} NoneBack(off: seq<Agent>, named: seq<Agent>)
    requires BackChanges(off, named) == []
    ensures forall a :: a in named ==> a !in off
    decreases |named|
  {
    if named != [] {
      WithoutAbsent(off, [named[0]]);
      NoneBack(off, named[1..]);
    }
  }

  lemma QuietCall(lex: Lexicon, p: Policy, clause: string)
    requires Plain(p) && ApplyCall(lex, p, clause).1 == [] && (Distinct(OffList(p)) || !EditsCall(lex, clause))
    ensures SameFields(ApplyCall(lex, p, clause).0, p)
  {
    if EditsCall(lex, clause) {
      var named := AgentsIn(lex, clause);
      var off := OffList(p);
      DistinctKept(off, 0);
      assert off[..0] == [] && off[0..] == off;
      if lex.off(clause) {
        NoneMarked(off, named);
        assert named[0] in InsertAll(off, named);
      } else {
        NoneBack(off, named);
        WithoutAbsent(off, named);
      }
    }
  }

  lemma QuietOne(lex: Lexicon, p: Policy, clause: string)
    requires Plain(p) && ApplyOne(lex, p, clause).1 == [] && (Distinct(OffList(p)) || !EditsCall(lex, clause))
    ensures SameFields(ApplyOne(lex, p, clause).0, p)
  {
    QuietCall(lex, Clone(p), clause);
  }

  ghost predicate SomeCall(lex: Lexicon, clauses: seq<string>) {
    exists i :: 0 <= i < |clauses| && EditsCall(lex, clauses[i])
  }

  lemma SomeCallSnoc(lex: Lexicon, clauses: seq<string>)
    requires clauses != []
    ensures SomeCall(lex, clauses) <==>
              SomeCall(lex, clauses[..|clauses| - 1]) || EditsCall(lex, clauses[|clauses| - 1])
  {
    var before := clauses[..|clauses| - 1];
    if SomeCall(lex, before) {
      var i :| 0 <= i < |before| && EditsCall(lex, before[i]);
      assert clauses[i] == before[i];
    }
    if SomeCall(lex, clauses) {
      var i :| 0 <= i < |clauses| && EditsCall(lex, clauses[i]);
      if i < |before| { assert before[i] == clauses[i]; }
    }
  }

  lemma {:induction false} QuietAll(lex: Lexicon, p: Policy, clauses: seq<string>)
    requires Plain(p) && ApplyAll(lex, p, clauses).1 == [] && (Distinct(OffList(p)) || !SomeCall(lex, clauses))
    ensures SameFields(ApplyAll(lex, p, clauses).0, p)
  {
    if clauses != [] {
      var before := clauses[..|clauses| - 1];
      SomeCallSnoc(lex, clauses);
      QuietAll(lex, p, before);
      AllKeepPlain(lex, p, before);
      QuietOne(lex, ApplyAll(lex, p, before).0, clauses[|clauses| - 1]);
    }
  }

  /** A clause about calls leaves no repetition on the list, and other clauses make none. */
  lemma OneTidies(lex: Lexicon, p: Policy, clause: string)
    requires EditsCall(lex, clause) || Distinct(OffList(p))
    ensures Distinct(OffList(ApplyOne(lex, p, clause).0))
  {
    OthersUntouched(lex, p, clause);
  }

  lemma {:induction false} AllTidy(lex: Lexicon, p: Policy, clauses: seq<string>)
    requires SomeCall(lex, clauses)
    ensures Distinct(OffList(ApplyAll(lex, p, clauses).0))
  {
    SomeCallSnoc(lex, clauses);
    var before, last := clauses[..|clauses| - 1], clauses[|clauses| - 1];
    if SomeCall(lex, before) { AllTidy(lex, p, before); }
    OneTidies(lex, ApplyAll(lex, p, before).0, last);
  }

  /**
   * An edit that reports no change stores the same policy if and only if no coder is listed
   * off-call twice or no clause is about calls.
   */
  lemma NothingUnderstoodNothingChanged(lex: Lexicon, p: Policy, instruction: string)
    requires NormalForm(p) && Edit(lex, p, instruction).changes == []
    ensures Edit(lex, p, instruction).policy == p <==>
              Distinct(OffList(p)) || !SomeCall(lex, lex.split(instruction))
  {
    var clauses := lex.split(instruction);
    if Distinct(OffList(p)) || !SomeCall(lex, clauses) {
      QuietAll(lex, Clone(p), clauses);
    } else {
      AllTidy(lex, Clone(p), clauses);
    }
  }

  lemma {:induction false} AllMarked(off: seq<Agent>, named: seq<Agent>)
    requires forall a :: a in named ==> a in off
    ensures MarkChanges(off, named) == []
    decreases |named|
  {
    if named != [] {
      assert named[0] in named;
      forall a | a in named[1..] ensures a in off { }
      AllMarked(off, named[1..]);
    }
  }

  /**
   * A hand-written file may list a coder twice, and then the promise fails: an off-call clause
   * about coders already listed reports no change and yet rewrites the list.
   */
  lemma DuplicatesRewritten(lex: Lexicon, p: Policy, instruction: string, clause: string)
    requires p.unavailable.Some? && !Distinct(p.unavailable.value)
    requires lex.split(instruction) == [clause] && IsOffCall(lex, clause)
    requires forall a :: a in AgentsIn(lex, clause) ==> a in p.unavailable.value
    requires !EditsBudget(lex, clause) && !lex.lead(clause)
    ensures Edit(lex, p, instruction).changes == [] && Edit(lex, p, instruction).policy.unavailable != p.unavailable
  {
    var c := Clone(Clone(p));
    var off := InsertAll([], OffList(c));
    AllMarked(off, AgentsIn(lex, clause));
    assert [clause][..0] == [];
    var one := ApplyOne(lex, Clone(p), clause);
    assert ApplyAll(lex, Clone(p), [clause]) == (one.0, [] + one.1);
    var p1 := ApplyCall(lex, c, clause).0;
    OthersUntouched(lex, Clone(p), clause);
    assert Distinct(p1.unavailable.value);
  }
}
