/** The sweep loop in place: poll counters, parked rows and results are updated row by row. */
module SweepHub {
  import opened Sweep

  class Hub {
    const maxAttempts: nat
    var jobs: seq<Job>
    var parked: map<RowId, nat>
    var results: map<nat, bool>
    var ended: map<nat, bool>
    var sent: seq<nat>
    var archive: seq<nat>

    ghost function View(): World
      reads this
    {
      World(jobs, parked, results, ended, sent, archive)
    }

    constructor (attempts: int)
      ensures View() == Empty && maxAttempts >= 1 && (attempts >= 1 ==> maxAttempts == attempts)
    {
      maxAttempts := if attempts < 1 then 1 else attempts;
      jobs, parked, results, ended, sent, archive := [], map[], map[], map[], [], [];
    }

    /** The trigger fires; the remote answers `message/send` with a working task, and the review parks. */
    method FireRun(need: nat) returns (n: nat)
      modifies this
      ensures n == |old(jobs)| && View() == AsideStep(old(View()), Fire(need))
    {
      n := |jobs|;
      sent := sent + [n];
      jobs := jobs + [Job(need, 0, Recording)];
      parked := parked[Review(n) := 1];
    }

    /** The notifier is done: the suspended result is recorded, and at last the run is parked. */
    method ContinueFiring(n: nat)
      requires n < |jobs|
      modifies this
      ensures View() == AsideStep(old(View()), GoOn(n))
    {
      match jobs[n].firing {
        case Recording =>
          results := results - {n};
          jobs := jobs[n := jobs[n].(firing := Parking)];
        case Parking =>
          parked := parked[RunOf(n) := 0];
          jobs := jobs[n := jobs[n].(firing := Fired)];
        case Fired =>
      }
    }

    /** The external agent's `tasks/get`: count the poll, and say whether it has settled. */
    method TasksGet(n: nat) returns (completed: bool)
      requires n < |jobs|
      modifies this`jobs
      ensures jobs == old(jobs)[n := old(jobs)[n].(polls := old(jobs)[n].polls + 1)]
      ensures completed == (jobs[n].polls >= jobs[n].need)
    {
      jobs := jobs[n := jobs[n].(polls := jobs[n].polls + 1)];
      completed := jobs[n].polls >= jobs[n].need;
    }

    /** Resume one row; a settled one is dropped, one that parks again overwrites itself. */
    method Resume(row: RowId)
      modifies this
      ensures View() == ResumeRow(maxAttempts, old(View()), row)
    {
      if row !in parked || row.job >= |jobs| { return; }
      var n := row.job;
      match row {
        case Review(_) =>
          var attempt := parked[row];
          var completed := TasksGet(n);
          if completed || attempt + 1 > maxAttempts {
            results := results[n := completed];
            parked := parked - {row};
          } else {
            parked := parked[row := attempt + 1];
          }
        case RunOf(_) =>
          if n !in results {
            parked := parked[row := 0];
          } else {
            if results[n] { archive := archive + [n]; }
            ended := ended[n := results[n]];
            parked := parked - {row};
          }
      }
    }

    /** One tick over a snapshot of the parked rows; no firing moves while it runs. */
    method SweepOnce(snapshot: seq<RowId>)
      modifies this
      ensures View() == SweepStep(maxAttempts, old(View()), Rows(snapshot))
    {
      ghost var ticks := Rows(snapshot);
      for i := 0 to |snapshot|
        invariant View() == SweepStep(maxAttempts, old(View()), ticks[..i])
      {
        assert ticks[..i + 1][..i] == ticks[..i];
        Resume(snapshot[i]);
      }
      assert ticks[..|snapshot|] == ticks;
    }
  }

  function Rows(snapshot: seq<RowId>): seq<Tick> {
    seq(|snapshot|, i requires 0 <= i < |snapshot| => Row(snapshot[i]))
  }
}
