/** A planning tick and the dispatcher pass that follows it (internal/loop/loop.go, RunOnce): which
    rows the pass may try, and in which order. */
module TickThenPass {
  import opened Tasks
  import opened Planning
  import opened Scoring
  import opened Planner
  import opened Persist
  import opened Fixpoint
  import Dispatch

  /** A row that was dispatchable before the tick, and that no accepted decision is about. */
  ghost predicate LeftDispatchable(t: Table, ds: seq<Planned>, env: Env, u: Table, id: Id) {
    && id in t.rows && id in u.rows && u.rows[id] == t.rows[id] && Dispatch.Dispatchable(t.rows[id])
    && forall i | 0 <= i < |ds| && Concerns(u.rows[id], ds[i]) :: !Accepted(ds[i], env)
  }

  /** A row that the tick found, or made, ready: it has the verdict as label, and the plan's rank. */
  ghost predicate MadeReady(ds: seq<Planned>, env: Env, u: Table, id: Id) {
    exists i | 0 <= i < |ds| && id in u.rows && Concerns(u.rows[id], ds[i]) ::
      && Accepted(ds[i], env) && !ds[i].candidate.done && ds[i].verdict == READY
      && u.rows[id].planLabel == READY && u.rows[id].planRank == ds[i].rank > 0
  }

  /** A batch row whose candidate the table accepts is dispatchable only if the tick made it so. */
  lemma AcceptedIsReady(t: Table, p: Config, pass: Pass, key: CacheKey, m: Cache, cands: seq<Candidate>, env: Env,
                        i: nat, id: Id)
    requires ValidTable(t) && DistinctKeys(PlanOf(p, pass, key, m, cands, t.rows)) && env.plannedAt != 0
    requires p.registry == DEFAULT_REGISTRY
    requires i < |cands| && Accepted(PlanOf(p, pass, key, m, cands, t.rows)[i], env)
    requires var ds := PlanOf(p, pass, key, m, cands, t.rows);
      id in After(t, ds, env).rows && Concerns(After(t, ds, env).rows[id], ds[i])
      && Dispatch.Dispatchable(After(t, ds, env).rows[id])
    ensures var ds := PlanOf(p, pass, key, m, cands, t.rows); MadeReady(ds, env, After(t, ds, env), id)
  {
    var ds := PlanOf(p, pass, key, m, cands, t.rows);
    if id in t.rows && ExecutorOwned(t.rows[id].status) { OwnedRow(t, ds, env, id); }
    VerdictGiven(p, pass, key, m, cands, t.rows, i);
    BatchRowCarries(t, p, pass, key, m, cands, env, i, id);
    OnlyReadyIsDispatched(t, p, pass, key, m, cands, env, i, id);
  }

  lemma DispatchableAfter(t: Table, p: Config, pass: Pass, key: CacheKey, m: Cache, cands: seq<Candidate>, env: Env,
                          id: Id)
    requires ValidTable(t) && DistinctKeys(PlanOf(p, pass, key, m, cands, t.rows)) && env.plannedAt != 0
    requires p.registry == DEFAULT_REGISTRY
    requires var ds := PlanOf(p, pass, key, m, cands, t.rows);
      id in After(t, ds, env).rows && Dispatch.Dispatchable(After(t, ds, env).rows[id])
    ensures var ds := PlanOf(p, pass, key, m, cands, t.rows);
      LeftDispatchable(t, ds, env, After(t, ds, env), id) || MadeReady(ds, env, After(t, ds, env), id)
  {
    var ds := PlanOf(p, pass, key, m, cands, t.rows);
    var row := After(t, ds, env).rows[id];
    assert |ds| == |cands|;
    if i: nat :| i < |ds| && Concerns(row, ds[i]) && Accepted(ds[i], env) {
      AcceptedIsReady(t, p, pass, key, m, cands, env, i, id);
    } else if i: nat :| i < |ds| && Concerns(row, ds[i]) {
      BatchRow(t, ds, env, i, id);
    } else {
      OtherRow(t, ds, env, id);
    }
  }

  /** The pass after a tick, from any table.  Every row it tries was dispatchable before and is left
      as it was, since it is outside the batch or the table does not accept its candidate; or it is
      a batch row whose verdict is ready, and then it has the plan's rank.  Ranks ascend along the
      pass, and rows without a rank come last. */
  lemma PassAfterTick(t: Table, p: Config, pass: Pass, key: CacheKey, m: Cache, cands: seq<Candidate>, env: Env,
                      maxParallel: int, ids: seq<Id>, tried: seq<Id>)
    requires ValidTable(t) && DistinctKeys(PlanOf(p, pass, key, m, cands, t.rows)) && env.plannedAt != 0
    requires p.registry == DEFAULT_REGISTRY && maxParallel > 0
    requires var u := After(t, PlanOf(p, pass, key, m, cands, t.rows), env);
      IsListing(u.rows, Dispatch.DispatchQuery(maxParallel), ids) && tried <= ids
    ensures var ds := PlanOf(p, pass, key, m, cands, t.rows);
      var u := After(t, ds, env);
      && (forall id | id in tried :: LeftDispatchable(t, ds, env, u, id) || MadeReady(ds, env, u, id))
      && (forall j, k | 0 <= j < k < |tried| ::
            u.rows[tried[k]].planRank != 0 ==> 0 < u.rows[tried[j]].planRank <= u.rows[tried[k]].planRank)
  {
    var u := After(t, PlanOf(p, pass, key, m, cands, t.rows), env);
    forall id | id in tried
      ensures id in u.rows && Dispatch.Dispatchable(u.rows[id])
    {
      var j :| 0 <= j < |tried| && tried[j] == id;
      assert ids[j] == id && Matches(Dispatch.DispatchQuery(maxParallel), u.rows[ids[j]]);
    }
    forall id | id in tried
      ensures var ds := PlanOf(p, pass, key, m, cands, t.rows);
        LeftDispatchable(t, ds, env, u, id) || MadeReady(ds, env, u, id)
    {
      DispatchableAfter(t, p, pass, key, m, cands, env, id);
    }
    forall j: nat, k: nat | j < k < |tried|
      ensures u.rows[tried[k]].planRank != 0 ==> 0 < u.rows[tried[j]].planRank <= u.rows[tried[k]].planRank
    {
      assert tried[j] == ids[j] && tried[k] == ids[k];
      RankedFirst(u.rows, Dispatch.DispatchQuery(maxParallel), ids, j, k);
    }
  }
}
