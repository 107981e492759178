/** Draining the whole pending queue (internal/cli/run_all.go). */
module RunAll {
  import opened Collections
  import opened Tasks
  import opened Dispatch

  function PendingIds(rows: Rows): set<Id> {
    set id | id in rows && rows[id].status == Pending
  }

  const PENDING_QUERY := ListFilter([Pending], 0, false)

  /** An unlimited listing of the pending rows is as long as there are pending rows. */
  lemma ListingCounts(rows: Rows, ids: seq<Id>)
    requires IsListing(rows, PENDING_QUERY, ids)
    ensures |ids| == |PendingIds(rows)|
  {
    ListingDistinct(rows, PENDING_QUERY, ids);
    DistinctSize(ids);
    forall id ensures id in PendingIds(rows) <==> id in ids {
      assert id in rows ==> (Matches(PENDING_QUERY, rows[id]) <==> rows[id].status == Pending);
    }
    assert (set id | id in ids) == PendingIds(rows);
  }

  /** A pass never adds a pending row. */
  lemma PassDrains(before: Rows, after: Rows, tried: seq<Id>, clean: bool)
    requires PassEffect(before, after, tried, clean)
    ensures PendingIds(after) <= PendingIds(before)
    ensures |PendingIds(after)| <= |PendingIds(before)|
  {
    forall id | id in PendingIds(after) ensures id in PendingIds(before) {
      assert id in tried || after[id] == before[id];
    }
    SubsetSize(PendingIds(after), PendingIds(before));
  }

  method PendingCount(repo: TaskRepo) returns (n: nat, failed: bool)
    modifies repo`faulted
    ensures old(repo.faulted) ==> repo.faulted
    ensures !failed ==> n == |PendingIds(repo.rows)|
    ensures failed ==> repo.faulted
  {
    var ids, err := repo.List(ListFilter([Pending], 0, false));
    if err != Nil { return 0, true; }
    ListingCounts(repo.rows, ids);
    return |ids|, false;
  }

  /** run-all ends, and what it reports is how many rows left the pending state, which is what
      the loop adds up because no pass ever makes a row pending.  It stops with an empty queue
      or after a pass that moved nothing out of it: `last` is its number, `start` the table it began
      with, and `answers` what the surroundings answer to the calls of each pass. */
  method RunAll(d: Dispatcher, configured: int, answers: nat -> Id -> Surroundings)
    returns (total: int, failed: bool, ghost stalled: bool, ghost last: nat, ghost start: Rows, ghost tried: seq<Id>,
             ghost begun: set<Id>)
    modifies d.repo
    ensures d.repo.rows.Keys == old(d.repo.rows).Keys
    ensures PendingIds(d.repo.rows) <= PendingIds(old(d.repo.rows))
    ensures forall id | id in d.repo.rows :: StatusStep(old(d.repo.rows)[id], d.repo.rows[id])
    ensures !failed ==> total == |PendingIds(old(d.repo.rows))| - |PendingIds(d.repo.rows)|
    ensures !failed && PendingIds(d.repo.rows) != {} ==> stalled
    ensures !failed && stalled && !d.repo.faulted ==>
      && PendingIds(start) == PendingIds(d.repo.rows)
      && d.Passed(start, d.repo.rows, if configured <= 0 then 1 else configured, answers(last), tried, begun)
    ensures (old(d.repo.faulted) ==> d.repo.faulted) && (failed ==> d.repo.faulted)
  {
    var maxParallel := if configured <= 0 then 1 else configured;
    total, failed, stalled := 0, false, false;
    last, start, tried, begun := 0, d.repo.rows, [], {};
    var pass: nat := 0;
    while true
      invariant d.repo.rows.Keys == old(d.repo.rows).Keys && (old(d.repo.faulted) ==> d.repo.faulted)
      invariant PendingIds(d.repo.rows) <= PendingIds(old(d.repo.rows))
      invariant forall id | id in d.repo.rows :: StatusStep(old(d.repo.rows)[id], d.repo.rows[id])
      invariant total == |PendingIds(old(d.repo.rows))| - |PendingIds(d.repo.rows)|
      decreases |PendingIds(d.repo.rows)|
    {
      var before, broke := PendingCount(d.repo);
      if broke { failed := true; return; }
      if before == 0 { return; }
      start := d.repo.rows;
      broke, tried, begun := d.Run(maxParallel, answers(pass));
      PassDrains(start, d.repo.rows, tried, !d.repo.faulted);
      if broke { failed := true; return; }
      var after;
      after, broke := PendingCount(d.repo);
      if broke { failed := true; return; }
      var progressed := before - after;
      if progressed <= 0 {
        SameSize(PendingIds(d.repo.rows), PendingIds(start));
        stalled, last := true, pass;
        return;
      }
      total, pass := total + progressed, pass + 1;
    }
  }
}
