/** Self-renewing heartbeat rows: each wake fires once and parks again, whatever the fire does. */
module Heartbeat {
  import opened Options
  import opened Text

  /** A parked row.  It also records when it was seeded, how often it has fired, and how long its fires took in all. */
  datatype Row = Row(id: nat, interval: nat, resumeAt: int, seedAt: int, fires: nat, busy: int)

  /** The rows in the order their ids first appeared, and the time of the last event. */
  datatype World = World(rows: seq<Row>, clock: int)

  /** A row is seeded, some time after what happened before. */
  datatype Seeding = Seeding(id: nat, interval: nat, wait: nat)

  /** What happens while a sweep awaits one fire: rows are seeded, and then it takes some more time. */
  datatype Pause = Pause(seeds: seq<Seeding>, took: nat)

  /** Time passes before an event, and during each fire of a sweep (nothing where `pauses` says nothing). */
  datatype Event = Seed(seeding: Seeding) | Sweep(wait: nat, pauses: seq<Pause>)

  function PauseAt(pauses: seq<Pause>, k: nat): Pause { if k < |pauses| then pauses[k] else Pause([], 0) }

  // --- the store: insert or replace -------------------------------------------------------

  predicate Distinct(rows: seq<Row>) { forall i, j :: 0 <= i < j < |rows| ==> rows[i].id != rows[j].id }

  function IndexOf(rows: seq<Row>, id: nat): (r: nat)
    ensures r <= |rows| && (r < |rows| ==> rows[r].id == id)
    ensures r == |rows| ==> forall i :: 0 <= i < |rows| ==> rows[i].id != id
  {
    if rows == [] then 0
    else if rows[0].id == id then 0
    else 1 + IndexOf(rows[1..], id)
  }

  function Put(rows: seq<Row>, row: Row): seq<Row> {
    var i := IndexOf(rows, row.id);
    if i < |rows| then rows[i := row] else rows + [row]
  }

  // --- which rows a sweep takes -----------------------------------------------------------

  function Due(rows: seq<Row>, now: int): seq<Row> {
    if rows == [] then []
    else
      var last := rows[|rows| - 1];
      var before := Due(rows[..|rows| - 1], now);
      if last.resumeAt <= now then InsertDue(before, last) else before
  }

  /** Behind every row that is due no later: the order of a stable sort by due time. */
  function InsertDue(due: seq<Row>, row: Row): seq<Row> {
    if due == [] then [row]
    else
      var last := due[|due| - 1];
      if last.resumeAt <= row.resumeAt then due + [row] else InsertDue(due[..|due| - 1], row) + [last]
  }

  /** The broker's wake: one fire, then the row parks one interval after the fire is over. */
  function Beat(row: Row, began: int, over: int): Row {
    row.(fires := row.fires + 1, busy := row.busy + (over - began), resumeAt := over + row.interval)
  }

  function SeedStep(w: World, s: Seeding): World {
    var now := w.clock + s.wait;
    World(Put(w.rows, Row(s.id, s.interval, now + s.interval, now, 0, 0)), now)
  }

  function SeedAll(w: World, seeds: seq<Seeding>): World {
    if seeds == [] then w else SeedStep(SeedAll(w, seeds[..|seeds| - 1]), seeds[|seeds| - 1])
  }

  /** The fire of one row: what happens while it is awaited, then the row parks. */
  function FireStep(w: World, row: Row, pause: Pause): World {
    var w1 := SeedAll(w, pause.seeds);
    var over := w1.clock + pause.took;
    World(Put(w1.rows, Beat(row, w.clock, over)), over)
  }

  /** The rows of `due` from the `k`-th on, one after the other. */
  function Beats(w: World, due: seq<Row>, pauses: seq<Pause>, k: nat): World
    requires k <= |due|
    decreases |due| - k
  {
    if k == |due| then w else Beats(FireStep(w, due[k], PauseAt(pauses, k)), due, pauses, k + 1)
  }

  function Step(w: World, e: Event): World {
    match e
    case Seed(s) => SeedStep(w, s)
    case Sweep(wait, pauses) => Beats(World(w.rows, w.clock + wait), Due(w.rows, w.clock + wait), pauses, 0)
  }

  function Run(es: seq<Event>): World {
    if es == [] then World([], 0) else Step(Run(es[..|es| - 1]), es[|es| - 1])
  }

  // --- what a sweep does to each row ------------------------------------------------------

  lemma {:induction false} InsertDueHas(due: seq<Row>, row: Row, x: Row)
    ensures x in InsertDue(due, row) <==> x in due || x == row
  {
    if due != [] && due[|due| - 1].resumeAt > row.resumeAt {
      InsertDueHas(due[..|due| - 1], row, x);
      assert due == due[..|due| - 1] + [due[|due| - 1]];
    }
  }

  lemma {:induction false} DueIs(rows: seq<Row>, now: int, x: Row)
    ensures x in Due(rows, now) <==> x in rows && x.resumeAt <= now
  {
    if rows != [] {
      var last := rows[|rows| - 1];
      DueIs(rows[..|rows| - 1], now, x);
      InsertDueHas(Due(rows[..|rows| - 1], now), last, x);
      assert rows == rows[..|rows| - 1] + [last];
    }
  }

  lemma {:induction false} InsertDueDistinct(due: seq<Row>, row: Row)
    requires Distinct(due) && forall i :: 0 <= i < |due| ==> due[i].id != row.id
    ensures Distinct(InsertDue(due, row))
  {
    if due != [] && due[|due| - 1].resumeAt > row.resumeAt {
      var init := due[..|due| - 1];
      InsertDueDistinct(init, row);
      forall i | 0 <= i < |InsertDue(init, row)| ensures InsertDue(init, row)[i].id != due[|due| - 1].id {
        InsertDueHas(init, row, InsertDue(init, row)[i]);
      }
    }
  }

  lemma {:induction false} DueDistinct(rows: seq<Row>, now: int)
    requires Distinct(rows)
    ensures Distinct(Due(rows, now))
  {
    if rows != [] {
      var init := rows[..|rows| - 1];
      DueDistinct(init, now);
      forall i | 0 <= i < |Due(init, now)| ensures Due(init, now)[i].id != rows[|rows| - 1].id {
        DueIs(init, now, Due(init, now)[i]);
      }
      if rows[|rows| - 1].resumeAt <= now { InsertDueDistinct(Due(init, now), rows[|rows| - 1]); }
    }
  }

  /** Rows are taken in the order they fell due. */
  lemma {:induction false} DueSorted(rows: seq<Row>, now: int)
    ensures forall i, j :: 0 <= i < j < |Due(rows, now)| ==> Due(rows, now)[i].resumeAt <= Due(rows, now)[j].resumeAt
  {
    if rows != [] {
      DueSorted(rows[..|rows| - 1], now);
      InsertDueSorted(Due(rows[..|rows| - 1], now), rows[|rows| - 1]);
    }
  }

  lemma {:induction false} InsertDueSorted(due: seq<Row>, row: Row)
    requires forall i, j :: 0 <= i < j < |due| ==> due[i].resumeAt <= due[j].resumeAt
    ensures forall i, j :: 0 <= i < j < |InsertDue(due, row)| ==>
              InsertDue(due, row)[i].resumeAt <= InsertDue(due, row)[j].resumeAt
  {
    if due != [] && due[|due| - 1].resumeAt > row.resumeAt {
      var init, last := due[..|due| - 1], due[|due| - 1];
      InsertDueSorted(init, row);
      forall i | 0 <= i < |InsertDue(init, row)| ensures InsertDue(init, row)[i].resumeAt <= last.resumeAt {
        InsertDueHas(init, row, InsertDue(init, row)[i]);
      }
    }
  }

  /** Putting a row moves that row alone, in its place or behind the others. */
  lemma PutMoves(rows: seq<Row>, row: Row)
    requires Distinct(rows)
    ensures var rows' := Put(rows, row);
            && Distinct(rows') && |rows| <= |rows'| && row in rows'
            && (forall i :: 0 <= i < |rows| ==> rows'[i] == if rows[i].id == row.id then row else rows[i])
            && (forall x :: x in rows' ==> x in rows || x == row)
  {
    var i := IndexOf(rows, row.id);
    if i < |rows| { assert rows[i := row][i] == row; }
  }

  /** No row goes, and a row that is not seeded anew keeps its interval and its seed. */
  ghost predicate Kept(before: seq<Row>, after: seq<Row>, ids: set<nat>) {
    && |before| <= |after|
    && forall i :: 0 <= i < |before| ==>
         && after[i].id == before[i].id
         && (before[i].id !in ids ==> after[i].interval == before[i].interval && after[i].seedAt == before[i].seedAt)
  }

  lemma KeptOn(a: seq<Row>, b: seq<Row>, c: seq<Row>, ids: set<nat>)
    requires Kept(a, b, ids) && Kept(b, c, ids)
    ensures Kept(a, c, ids)
  {}

  ghost predicate Beaten(before: Row, after: Row, now: int, clock: int) {
    && after.fires == before.fires + 1
    && after.resumeAt >= now + before.interval && after.resumeAt <= clock + before.interval
  }

  ghost predicate InRest(due: seq<Row>, k: nat, row: Row)
    requires k <= |due|
  {
    exists j :: k <= j < |due| && due[j] == row
  }

  ghost predicate SeedsAmong(seeds: seq<Seeding>, ids: set<nat>) { forall i :: 0 <= i < |seeds| ==> seeds[i].id in ids }

  /** The rows seeded during the sweep are among `ids`. */
  ghost predicate PausesAmong(pauses: seq<Pause>, ids: set<nat>) {
    forall k :: 0 <= k < |pauses| ==> SeedsAmong(pauses[k].seeds, ids)
  }

  lemma {:induction false} SeedAllMoves(w: World, seeds: seq<Seeding>, ids: set<nat>)
    requires Distinct(w.rows) && SeedsAmong(seeds, ids)
    ensures var w' := SeedAll(w, seeds);
            && w'.clock >= w.clock && Distinct(w'.rows) && Kept(w.rows, w'.rows, ids)
            && forall i :: 0 <= i < |w.rows| && w.rows[i].id !in ids ==> w'.rows[i] == w.rows[i]
  {
    if seeds != [] {
      var before, s := seeds[..|seeds| - 1], seeds[|seeds| - 1];
      assert SeedsAmong(before, ids);
      SeedAllMoves(w, before, ids);
      var w1 := SeedAll(w, before);
      PutMoves(w1.rows, Row(s.id, s.interval, w1.clock + s.wait + s.interval, w1.clock + s.wait, 0, 0));
    }
  }

  /** The fire of `row` moves that row and the rows that are seeded meanwhile. */
  lemma FireMoves(w: World, row: Row, pause: Pause, ids: set<nat>)
    requires Distinct(w.rows) && SeedsAmong(pause.seeds, ids)
    requires row.id in ids || row in w.rows
    ensures var w' := FireStep(w, row, pause);
            && w'.clock >= w.clock && Distinct(w'.rows) && Kept(w.rows, w'.rows, ids)
            && forall i :: 0 <= i < |w.rows| && w.rows[i].id !in ids ==>
                 if w.rows[i] == row then Beaten(row, w'.rows[i], w.clock, w'.clock) else w'.rows[i] == w.rows[i]
  {
    var w1 := SeedAll(w, pause.seeds);
    SeedAllMoves(w, pause.seeds, ids);
    PutMoves(w1.rows, Beat(row, w.clock, w1.clock + pause.took));
  }

  lemma {:induction false} BeatsEach(w: World, due: seq<Row>, pauses: seq<Pause>, k: nat, ids: set<nat>)
    requires k <= |due| && Distinct(due) && Distinct(w.rows) && PausesAmong(pauses, ids)
    requires forall j :: k <= j < |due| ==> due[j].id in ids || due[j] in w.rows
    ensures var w' := Beats(w, due, pauses, k);
            && w'.clock >= w.clock && Kept(w.rows, w'.rows, ids) && Distinct(w'.rows)
            && forall i :: 0 <= i < |w.rows| && w.rows[i].id !in ids ==>
                 if InRest(due, k, w.rows[i]) then Beaten(w.rows[i], w'.rows[i], w.clock, w'.clock)
                 else w'.rows[i] == w.rows[i]
    decreases |due| - k
  {
    if k < |due| {
      var w1 := FireStep(w, due[k], PauseAt(pauses, k));
      FireMoves(w, due[k], PauseAt(pauses, k), ids);
      forall j | k + 1 <= j < |due| ensures due[j].id in ids || due[j] in w1.rows {
        if due[j].id !in ids {
          var i :| 0 <= i < |w.rows| && w.rows[i] == due[j];
          assert due[j].id != due[k].id;
          assert w1.rows[i] == due[j];
        }
      }
      BeatsEach(w1, due, pauses, k + 1, ids);
      KeptOn(w.rows, w1.rows, Beats(w1, due, pauses, k + 1).rows, ids);
      forall i | 0 <= i < |w.rows| && w.rows[i].id !in ids
        ensures w.rows[i] == due[k] ==> InRest(due, k, w.rows[i]) && !InRest(due, k + 1, w1.rows[i])
        ensures w.rows[i] != due[k] ==> (InRest(due, k, w.rows[i]) <==> InRest(due, k + 1, w1.rows[i]))
      {
        OneBeat(due, k, w.rows[i], w1.rows[i]);
      }
    }
  }

  /** Whether a row still has a beat ahead, before and after the `k`-th. */
  lemma OneBeat(due: seq<Row>, k: nat, row: Row, row': Row)
    requires k < |due| && Distinct(due) && row'.id == row.id && (row != due[k] ==> row' == row)
    ensures row == due[k] ==> InRest(due, k, row) && !InRest(due, k + 1, row')
    ensures row != due[k] ==> (InRest(due, k, row) <==> InRest(due, k + 1, row'))
  {}

  // --- every history ----------------------------------------------------------------------

  /** A row never runs ahead of its interval: between two of its fires it rests for one. */
  ghost predicate InTime(r: Row, clock: int) {
    && r.resumeAt >= r.seedAt + r.busy + (r.fires + 1) * r.interval
    && r.fires * r.interval + r.busy <= clock - r.seedAt
    && r.resumeAt <= clock + r.interval
  }

  ghost predicate AllInTime(w: World) {
    Distinct(w.rows) && forall r :: r in w.rows ==> InTime(r, w.clock)
  }

  lemma BeatInTime(r: Row, now: int, began: int, over: int)
    requires InTime(r, now) && r.resumeAt <= now <= began <= over
    ensures InTime(Beat(r, began, over), over)
  {
    assert (r.fires + 1 + 1) * r.interval == (r.fires + 1) * r.interval + r.interval;
  }

  lemma SeedInTime(w: World, s: Seeding)
    requires AllInTime(w)
    ensures AllInTime(SeedStep(w, s)) && SeedStep(w, s).clock >= w.clock
  {
    var now := w.clock + s.wait;
    PutMoves(w.rows, Row(s.id, s.interval, now + s.interval, now, 0, 0));
  }

  lemma {:induction false} SeedAllInTime(w: World, seeds: seq<Seeding>)
    requires AllInTime(w)
    ensures AllInTime(SeedAll(w, seeds)) && SeedAll(w, seeds).clock >= w.clock
  {
    if seeds != [] {
      SeedAllInTime(w, seeds[..|seeds| - 1]);
      SeedInTime(SeedAll(w, seeds[..|seeds| - 1]), seeds[|seeds| - 1]);
    }
  }

  lemma FireInTime(w: World, row: Row, pause: Pause, now: int)
    requires AllInTime(w) && InTime(row, now) && row.resumeAt <= now <= w.clock
    ensures AllInTime(FireStep(w, row, pause)) && FireStep(w, row, pause).clock >= w.clock
  {
    var w1 := SeedAll(w, pause.seeds);
    var over := w1.clock + pause.took;
    SeedAllInTime(w, pause.seeds);
    BeatInTime(row, now, w.clock, over);
    PutMoves(w1.rows, Beat(row, w.clock, over));
  }

  lemma {:induction false} BeatsInTime(w: World, due: seq<Row>, pauses: seq<Pause>, k: nat, now: int)
    requires k <= |due| && AllInTime(w) && now <= w.clock
    requires forall j :: 0 <= j < |due| ==> InTime(due[j], now) && due[j].resumeAt <= now
    ensures AllInTime(Beats(w, due, pauses, k))
    decreases |due| - k
  {
    if k < |due| {
      FireInTime(w, due[k], PauseAt(pauses, k), now);
      BeatsInTime(FireStep(w, due[k], PauseAt(pauses, k)), due, pauses, k + 1, now);
    }
  }

  /**
   * One sweep, with rows seeded while it awaits its fires: no row goes, and of the rows that are not
   * seeded anew meanwhile, a due one fires exactly once and one that is not due does not fire,
   * however long the fires take.
   */
  lemma SweepFiresEachDueRowOnce(w: World, wait: nat, pauses: seq<Pause>, ids: set<nat>)
    requires AllInTime(w) && PausesAmong(pauses, ids)
    ensures var w' := Step(w, Sweep(wait, pauses));
            && Kept(w.rows, w'.rows, ids)
            && forall i :: 0 <= i < |w.rows| && w.rows[i].id !in ids ==>
                 w'.rows[i].fires == w.rows[i].fires + if w.rows[i].resumeAt <= w.clock + wait then 1 else 0
  {
    var now := w.clock + wait;
    var due := Due(w.rows, now);
    DueDistinct(w.rows, now);
    forall j | 0 <= j < |due| ensures due[j] in w.rows { DueIs(w.rows, now, due[j]); }
    BeatsEach(World(w.rows, now), due, pauses, 0, ids);
    forall i | 0 <= i < |w.rows| && w.rows[i].id !in ids
      ensures InRest(due, 0, w.rows[i]) <==> w.rows[i].resumeAt <= now
    {
      InRestIs(w.rows, now, w.rows[i]);
    }
  }

  lemma InRestIs(rows: seq<Row>, now: int, row: Row)
    requires row in rows
    ensures InRest(Due(rows, now), 0, row) <==> row.resumeAt <= now
  {
    DueIs(rows, now, row);
  }

  /** Over every history, also with seeds within sweeps: `fires * interval + busy <= now - seedAt`, for every row. */
  lemma {:induction false} NeverAheadOfTime(es: seq<Event>)
    ensures AllInTime(Run(es))
  {
    if es != [] {
      var w := Run(es[..|es| - 1]);
      NeverAheadOfTime(es[..|es| - 1]);
      match es[|es| - 1]
      case Seed(s) => SeedInTime(w, s);
      case Sweep(wait, pauses) =>
        var now := w.clock + wait;
        var due := Due(w.rows, now);
        forall j | 0 <= j < |due| ensures InTime(due[j], now) && due[j].resumeAt <= now {
          DueIs(w.rows, now, due[j]);
        }
        BeatsInTime(World(w.rows, now), due, pauses, 0, now);
    }
  }

  // --- reading a reply ------------------------------------------------------------------

  datatype Output = TextOutput(text: string) | FieldOutput(text: string) | NoText
  datatype Result = Ok(output: Output) | Failed(error: string) | OtherResult

  datatype Disposition = Idle | Active(summary: string) | Broken(error: string)

  const HeartbeatOk := "HEARTBEAT_OK"

  /** The text of a reply, if it has one. */
  function ReplyText(o: Output): string { if o.NoText? then "" else Trim(o.text) }

  function Classify(r: Result): Disposition {
    match r
    case Failed(e) => Broken(e)
    case OtherResult => Idle
    case Ok(o) => if ReplyText(o) == HeartbeatOk || ReplyText(o) == "" then Idle else Active(ReplyText(o))
  }

  /** What is surfaced is never blank nor the sentinel, and surfaces unchanged if it is said again. */
  lemma SurfacedIsReal(r: Result)
    requires Classify(r).Active?
    ensures var text := Classify(r).summary;
            text != "" && text != HeartbeatOk && Classify(Ok(TextOutput(text))) == Classify(r)
  {
    TrimIdempotent(r.output.text);
  }

  /** What each kind of reply means: only a blank text, none, or exactly the sentinel is idle. */
  lemma ReplyMeans(text: string, error: string)
    ensures forall o :: o == TextOutput(text) || o == FieldOutput(text) ==>
              Classify(Ok(o)) == if Trim(text) == "" || Trim(text) == "HEARTBEAT_OK" then Idle else Active(Trim(text))
    ensures Classify(Ok(NoText)) == Idle && Classify(OtherResult) == Idle
    ensures Classify(Failed(error)) == Broken(error)
    ensures Surfaced(Some(Failed(error))) == [error] && Surfaced(None) == []
    ensures Trim(text) != "" && Trim(text) != "HEARTBEAT_OK" ==> Surfaced(Some(Ok(TextOutput(text)))) == [Trim(text)]
    ensures Trim(text) == "" || Trim(text) == "HEARTBEAT_OK" ==> Surfaced(Some(Ok(TextOutput(text)))) == []
  {}

  /** What one fire surfaces; `None` is a fire that threw. */
  function Surfaced(reply: Option<Result>): seq<string> {
    match reply
    case None => []
    case Some(r) =>
      (match Classify(r) case Idle => [] case Active(summary) => [summary] case Broken(error) => [error])
  }

  function SurfacedBy(replies: nat -> Option<Result>, n: nat): seq<string> {
    if n == 0 then [] else SurfacedBy(replies, n - 1) + Surfaced(replies(n - 1))
  }

  // --- the broker and its store, in place ---------------------------------------------------

  class Broker {
    var rows: seq<Row>
    var clock: int
    var surfaced: seq<string>

    ghost function View(): World
      reads this
    {
      World(rows, clock)
    }

    constructor ()
      ensures View() == World([], 0) && surfaced == []
    {
      rows, clock, surfaced := [], 0, [];
    }

    /** The suspend notifier: one row for each id. */
    method Park(row: Row)
      modifies this`rows
      ensures rows == Put(old(rows), row)
    {
      var i := 0;
      while i < |rows| && rows[i].id != row.id
        invariant 0 <= i <= |rows|
        invariant IndexOf(rows, row.id) == i + IndexOf(rows[i..], row.id)
      {
        assert rows[i..][1..] == rows[i + 1..];
        i := i + 1;
      }
      if i < |rows| { rows := rows[i := row]; } else { rows := rows + [row]; }
    }

    method SeedRow(id: nat, interval: nat, wait: nat)
      modifies this`rows, this`clock
      ensures View() == Step(old(View()), Seed(Seeding(id, interval, wait)))
    {
      clock := clock + wait;
      Park(Row(id, interval, clock + interval, clock, 0, 0));
    }

    /** One heartbeat is over: idle ones stay quiet, anything else is surfaced. */
    method Report(result: Result)
      modifies this`surfaced
      ensures surfaced == old(surfaced) + Surfaced(Some(result))
    {
      match Classify(result) {
        case Idle =>
        case Active(summary) => surfaced := surfaced + [summary];
        case Broken(error) => surfaced := surfaced + [error];
      }
    }

    /** Fire once; whether it threw or not, park for the next beat. */
    method HandleResume(row: Row, took: nat, reply: Option<Result>)
      modifies this
      ensures View() == FireStep(old(View()), row, Pause([], took))
      ensures surfaced == old(surfaced) + Surfaced(reply)
    {
      var fires := row.fires + 1;
      var busy := row.busy + took;
      clock := clock + took;
      if reply.Some? {
        Report(reply.value);
      }
      Park(row.(fires := fires, busy := busy, resumeAt := clock + row.interval));
    }

    /** Resume every row that is due at the start of the sweep; nothing is seeded meanwhile. */
    method RunSweep(wait: nat, took: seq<nat>, replies: nat -> Option<Result>) returns (count: nat)
      modifies this
      ensures View() == Step(old(View()), Sweep(wait, Quietly(took)))
      ensures count == |Due(old(rows), old(clock) + wait)|
      ensures surfaced == old(surfaced) + SurfacedBy(replies, count)
    {
      clock := clock + wait;
      var due := Due(rows, clock);
      ResumeAll(due, took, replies);
      count := |due|;
    }

    method ResumeAll(due: seq<Row>, took: seq<nat>, replies: nat -> Option<Result>)
      modifies this
      ensures View() == Beats(old(View()), due, Quietly(took), 0)
      ensures surfaced == old(surfaced) + SurfacedBy(replies, |due|)
    {
      ghost var before, pauses := surfaced, Quietly(took);
      ghost var target := Beats(View(), due, pauses, 0);
      for k := 0 to |due|
        invariant Beats(View(), due, pauses, k) == target
        invariant surfaced == before + SurfacedBy(replies, k)
      {
        var time := if k < |took| then took[k] else 0;
        NextBeat(View(), due, took, k, time);
        HandleResume(due[k], time, replies(k));
        SurfacedNext(before, replies, k);
      }
    }
  }

  lemma SurfacedNext(before: seq<string>, replies: nat -> Option<Result>, k: nat)
    ensures before + SurfacedBy(replies, k) + Surfaced(replies(k)) == before + SurfacedBy(replies, k + 1)
  {}

  lemma NextBeat(w: World, due: seq<Row>, took: seq<nat>, k: nat, time: nat)
    requires k < |due| && time == if k < |took| then took[k] else 0
    ensures Beats(w, due, Quietly(took), k) == Beats(FireStep(w, due[k], Pause([], time)), due, Quietly(took), k + 1)
  {}

  function Quietly(took: seq<nat>): seq<Pause> { seq(|took|, k requires 0 <= k < |took| => Pause([], took[k])) }
}
