/** One iteration of the loop (internal/loop/loop.go, RunOnce): lock, plan, dispatch, render, reap,
    unlock. */
module LoopRun {
  import opened Tasks
  import opened Planning
  import opened Scoring
  import opened Persist
  import Planner
  import KVState
  import LoopLock
  import Dispatch
  import Reaper
  import Tick

  datatype Outcome = Busy | LockFailed | DispatchFailed | RenderFailed | Completed

  /** What one iteration may do to a row that a session holds or that has a result, whatever
      fails: a result stays as it is, and a running row can only fail or gain a reason. */
  predicate SafeStep(before: Task, after: Task) {
    && (before.status == Done || before.status == Failed ==> after == before)
    && (before.status == Running ==> Reaper.ReaperStep(before, after))
  }

  /** What the sweep at the end of an iteration goes by; `wired` says whether there is a reaper. */
  datatype Sweep = Sweep(wired: bool, sessions: Reaper.Sessions, now: Time, threshold: Time, token: string)

  lemma PassKeepsKeys(before: Rows, after: Rows, tried: seq<Id>, clean: bool)
    requires Dispatch.PassEffect(before, after, tried, clean) && UniqueKeys(before)
    ensures UniqueKeys(after)
  {
    forall id | id in before
      ensures before[id].source == after[id].source && before[id].externalId == after[id].externalId
    {
      assert id !in tried ==> after[id] == before[id];
    }
    Tick.SameKeys(before, after);
  }

  /** A pass touches no row that runs or has a result. */
  lemma PassIsSafe(before: Rows, after: Rows, tried: seq<Id>, clean: bool, id: Id)
    requires Dispatch.PassEffect(before, after, tried, clean) && id in before && ExecutorOwned(before[id].status)
    ensures after[id] == before[id]
  {
    assert forall j | j in tried :: Dispatch.Dispatchable(before[j]);
  }

  /** What is left of a table after the page and the sweep, when the store does not fail. */
  ghost predicate SweptAfter(passed: Rows, after: Rows, rendered: bool, sweep: Sweep) {
    after ==
      if rendered && sweep.wired && sweep.sessions.Alive? then
        Reaper.Swept(passed, sweep.sessions.ids, sweep.now, sweep.threshold, sweep.token)
      else passed
  }

  /** The pass, the page and the sweep; `rendered` says whether the page could be rendered. */
  method Work(d: Dispatch.Dispatcher, maxParallel: int, answers: Id -> Dispatch.Surroundings, rendered: bool,
              sweep: Sweep)
    returns (outcome: Outcome, ghost passed: Rows, ghost tried: seq<Id>, ghost begun: set<Id>)
    requires d.repo.Valid() && sweep.token != ""
    modifies d.repo
    ensures d.repo.Valid() && d.repo.rows.Keys == old(d.repo.rows).Keys
    ensures old(d.repo.faulted) ==> d.repo.faulted
    ensures forall id | id in d.repo.rows :: SafeStep(old(d.repo.rows)[id], d.repo.rows[id])
    ensures outcome == DispatchFailed ==> d.repo.faulted
    ensures outcome != DispatchFailed ==> outcome == if rendered then Completed else RenderFailed
    ensures !d.repo.faulted ==> d.Passed(old(d.repo.rows), passed, maxParallel, answers, tried, begun)
    ensures !d.repo.faulted ==> SweptAfter(passed, d.repo.rows, rendered, sweep)
  {
    ghost var rows := d.repo.rows;
    var failed;
    failed, passed, tried, begun := OnePass(d, maxParallel, answers);
    if failed { return DispatchFailed, passed, tried, begun; }
    if !rendered { return RenderFailed, passed, tried, begun; }
    if sweep.wired { SweepRows(d.repo, sweep); }
    return Completed, passed, tried, begun;
  }

  method OnePass(d: Dispatch.Dispatcher, maxParallel: int, answers: Id -> Dispatch.Surroundings)
    returns (failed: bool, ghost passed: Rows, ghost tried: seq<Id>, ghost begun: set<Id>)
    requires d.repo.Valid()
    modifies d.repo
    ensures d.repo.Valid() && d.repo.rows.Keys == old(d.repo.rows).Keys && passed == d.repo.rows
    ensures old(d.repo.faulted) ==> d.repo.faulted
    ensures failed ==> d.repo.faulted
    ensures forall id | id in d.repo.rows :: SafeStep(old(d.repo.rows)[id], d.repo.rows[id])
    ensures forall id | id in d.repo.rows && ExecutorOwned(old(d.repo.rows)[id].status) ::
      d.repo.rows[id] == old(d.repo.rows)[id]
    ensures !d.repo.faulted ==> d.Passed(old(d.repo.rows), passed, maxParallel, answers, tried, begun)
  {
    ghost var rows := d.repo.rows;
    failed, tried, begun := d.Run(maxParallel, answers);
    passed := d.repo.rows;
    PassKeepsKeys(rows, passed, tried, !d.repo.faulted);
    forall id | id in rows && ExecutorOwned(rows[id].status) ensures passed[id] == rows[id] {
      PassIsSafe(rows, passed, tried, !d.repo.faulted, id);
    }
  }

  method SweepRows(repo: TaskRepo, sweep: Sweep)
    requires repo.Valid() && sweep.token != "" && sweep.wired
    modifies repo
    ensures repo.Valid() && repo.rows.Keys == old(repo.rows).Keys && (old(repo.faulted) ==> repo.faulted)
    ensures forall id | id in repo.rows :: Reaper.ReaperStep(old(repo.rows)[id], repo.rows[id])
    ensures !repo.faulted ==> SweptAfter(old(repo.rows), repo.rows, true, sweep)
  {
    ghost var passed := repo.rows;
    var unlisted, broken := Reaper.Run(repo, sweep.sessions, sweep.now, sweep.threshold, sweep.token);
    if !unlisted {
      Reaper.SweptButIsStep(passed, broken, sweep.sessions.ids, sweep.now, sweep.threshold, sweep.token);
    }
    Tick.SameKeys(passed, repo.rows);
  }

  /** One iteration.  A busy lock means that nothing happens; afterwards the lock row is gone again,
      unless its release failed; and no iteration, whatever fails in it, changes a row with a
      result, restarts a running one or loses a row.  When the store does not fail, the table has gone
      through the whole tick (`planned`), the pass (`passed`), and, if there is a reaper and the page
      was rendered, the sweep, in this order. */
  method RunOnce(loop: LoopLock.Loop, d: Dispatch.Dispatcher, env: Env, p: Config, pass: Pass, key: CacheKey,
                 cache: MemoryScoreCache?, cands: seq<Candidate>, maxParallel: int,
                 answers: Id -> Dispatch.Surroundings, rendered: bool, sweep: Sweep)
    returns (outcome: Outcome, ghost planned: Table, ghost passed: Rows, ghost tried: seq<Id>, ghost begun: set<Id>)
    requires d.repo.Valid() && d.repo.jsonValid == env.jsonValid && sweep.token != ""
    modifies d.repo, cache, loop.kv
    ensures d.repo.Valid() && old(d.repo.rows).Keys <= d.repo.rows.Keys
    ensures forall id | id in old(d.repo.rows) :: SafeStep(old(d.repo.rows)[id], d.repo.rows[id])
    ensures outcome in {Busy, LockFailed} ==> d.repo.rows == old(d.repo.rows) && loop.kv.pairs == old(loop.kv.pairs)
    ensures outcome == Busy ==> "loop.lock." + loop.lockKey in loop.kv.pairs
    ensures outcome == LockFailed ==> loop.kv.faulted || loop.ownerToken == ""
    ensures outcome == DispatchFailed ==> d.repo.faulted
    ensures outcome !in {Busy, LockFailed, DispatchFailed} ==> outcome == if rendered then Completed else RenderFailed
    ensures outcome !in {Busy, LockFailed} && loop.lockKey != "" ==>
      && "loop.lock." + loop.lockKey !in old(loop.kv.pairs)
      && loop.kv.pairs in {old(loop.kv.pairs), old(loop.kv.pairs)["loop.lock." + loop.lockKey := loop.ownerToken]}
      && (!loop.kv.faulted ==> loop.kv.pairs == old(loop.kv.pairs))
    ensures loop.lockKey == "" ==> loop.kv.pairs == old(loop.kv.pairs) && outcome !in {Busy, LockFailed}
    ensures outcome !in {Busy, LockFailed} && !d.repo.faulted ==>
      && planned == AfterAll(old(TableOf(d.repo)),
                             Planner.PlanOf(p, pass, key, old(Held(cache)), cands, old(d.repo.rows)), |cands|, env)
      && d.Passed(planned.rows, passed, maxParallel, answers, tried, begun)
      && SweptAfter(passed, d.repo.rows, rendered, sweep)
  {
    planned, passed, tried, begun := TableOf(d.repo), d.repo.rows, [], {};
    if loop.lockKey != "" {
      var acquired, failed := loop.AcquireLock();
      if failed { return LockFailed, planned, passed, tried, begun; }
      if !acquired { return Busy, planned, passed, tried, begun; }
    }
    Tick.PlanAll(d.repo, env, p, pass, key, cache, cands);
    planned := TableOf(d.repo);
    outcome, passed, tried, begun := Work(d, maxParallel, answers, rendered, sweep);
    if loop.lockKey != "" {
      loop.ReleaseLock();
      KVState.InsertThenDelete(old(loop.kv.pairs), "loop.lock." + loop.lockKey, loop.ownerToken);
    }
  }
}
