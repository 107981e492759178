/** What a whole planning tick leaves in the table, and that it is a fixpoint: the next tick, on a
    table whose done and skipped rows this one has changed, changes nothing. */
module Fixpoint {
  import opened Tasks
  import opened Planning
  import opened Scoring
  import opened Planner
  import opened Persist
  import opened TickRows
  import Dispatch

  ghost function After(t: Table, ds: seq<Planned>, env: Env): Table {
    AfterAll(t, ds, |ds|, env)
  }

  // ---- one row after a tick ----

  lemma OldBatchRow(t: Table, ds: seq<Planned>, env: Env, i: nat, id: Id)
    requires ValidTable(t) && DistinctKeys(ds) && i < |ds| && id in t.rows
    ensures id in After(t, ds, env).rows
    ensures Concerns(After(t, ds, env).rows[id], ds[i]) ==>
      Concerns(t.rows[id], ds[i]) && After(t, ds, env).rows[id] == Reevaluated(t.rows[id], ds[i], env)
  {
    TickTurns(t, ds, |ds|, env, id);
    TurnedKeepsKey(t.rows[id], ds, |ds|, env);
    if Concerns(t.rows[id], ds[i]) { TurnedIs(t.rows[id], ds, |ds|, env, i); }
  }

  lemma NewBatchRow(t: Table, ds: seq<Planned>, env: Env, id: Id) returns (j: nat)
    requires ValidTable(t) && DistinctKeys(ds) && id in After(t, ds, env).rows && id !in t.rows
    ensures j < |ds| && Accepted(ds[j], env) && After(t, ds, env).rows[id] == Fresh(ds[j], env)
    ensures forall e :: Concerns(After(t, ds, env).rows[id], e) <==> SameKey(ds[j], e)
  {
    TickMakesNew(t, ds, |ds|, env, id);
    j := NewRowIs(After(t, ds, env).rows[id], t.rows, ds, |ds|, env);
    forall e ensures Concerns(Fresh(ds[j], env), e) <==> SameKey(ds[j], e) {
      KeysPersist(NO_TASK, ds[j], e, env);
    }
  }

  lemma SameKeyHolds(d: Planned)
    ensures SameKey(d, d)
  {
  }

  /** The row with a decision's key: re-evaluated if it was there, else made by that decision. */
  lemma BatchRow(t: Table, ds: seq<Planned>, env: Env, i: nat, id: Id)
    requires ValidTable(t) && DistinctKeys(ds) && i < |ds|
    requires id in After(t, ds, env).rows && Concerns(After(t, ds, env).rows[id], ds[i])
    ensures var row := After(t, ds, env).rows[id];
      if id in t.rows then Concerns(t.rows[id], ds[i]) && row == Reevaluated(t.rows[id], ds[i], env)
      else Accepted(ds[i], env) && row == Fresh(ds[i], env)
  {
    if id in t.rows {
      OldBatchRow(t, ds, env, i, id);
    } else {
      var j := NewBatchRow(t, ds, env, id);
      assert SameKey(ds[j], ds[i]);
    }
  }

  /** A row that no decision has the key of is left alone, and no such row appears. */
  lemma OtherRow(t: Table, ds: seq<Planned>, env: Env, id: Id)
    requires ValidTable(t) && DistinctKeys(ds) && id in After(t, ds, env).rows
    requires forall i | 0 <= i < |ds| :: !Concerns(After(t, ds, env).rows[id], ds[i])
    ensures id in t.rows && After(t, ds, env).rows[id] == t.rows[id]
  {
    if id in t.rows {
      TickTurns(t, ds, |ds|, env, id);
      TurnedKeepsKey(t.rows[id], ds, |ds|, env);
      TurnedNot(t.rows[id], ds, |ds|, env);
    } else {
      var j := NewBatchRow(t, ds, env, id);
      SameKeyHolds(ds[j]);
    }
  }

  /** The row carries the decision: done upstream, or the label, its status and its rank. */
  predicate Carries(p: Config, d: Planned, row: Task) {
    if d.candidate.done then row.status == Done
    else
      && row.planLabel == d.verdict && row.status == PolicyFor(p.registry, d.verdict).status
      && row.planScore == d.score && row.planRank == d.rank
  }

  lemma {:induction false} OwnedStays(task: Task, ds: seq<Planned>, n: nat, env: Env)
    requires n <= |ds| && ExecutorOwned(task.status)
    ensures Turned(task, ds, n, env) == task
  {
    if n > 0 { OwnedStays(task, ds, n - 1, env); }
  }

  /** Rows that run or have a result are not touched. */
  lemma OwnedRow(t: Table, ds: seq<Planned>, env: Env, id: Id)
    requires ValidTable(t) && DistinctKeys(ds) && id in t.rows && ExecutorOwned(t.rows[id].status)
    ensures id in After(t, ds, env).rows && After(t, ds, env).rows[id] == t.rows[id]
  {
    TickTurns(t, ds, |ds|, env, id);
    OwnedStays(t.rows[id], ds, |ds|, env);
  }

  /** A candidate that the table accepts, or whose row it had, ends with exactly one row. */
  lemma OneRowEach(t: Table, ds: seq<Planned>, env: Env, i: nat)
    requires ValidTable(t) && DistinctKeys(ds) && i < |ds|
    ensures var rows := After(t, ds, env).rows;
      && (Taken(rows, ds[i]) <==> Taken(t.rows, ds[i]) || Accepted(ds[i], env))
      && forall id, id' | id in rows && id' in rows && Concerns(rows[id], ds[i]) && Concerns(rows[id'], ds[i]) ::
        id == id'
  {
    var u := After(t, ds, env);
    TickTakes(t, ds, |ds|, env, ds[i]);
    OnlyOneTakes(ds, |ds|, env, i);
    TickKeepsValid(t, ds, |ds|, env);
    forall id, id' | id in u.rows && id' in u.rows && Concerns(u.rows[id], ds[i]) && Concerns(u.rows[id'], ds[i])
      ensures id == id'
    {
      assert HasKey(u.rows[id], u.rows[id'].source, u.rows[id'].externalId);
    }
  }

  /** Every other row of the batch carries its verdict as label, that verdict's status, and its
      score and rank. */
  lemma BatchRowCarries(t: Table, p: Config, pass: Pass, key: CacheKey, m: Cache, cands: seq<Candidate>, env: Env,
                        i: nat, id: Id)
    requires ValidTable(t) && DistinctKeys(PlanOf(p, pass, key, m, cands, t.rows)) && env.plannedAt != 0
    requires i < |cands| && Accepted(PlanOf(p, pass, key, m, cands, t.rows)[i], env)
    requires var ds := PlanOf(p, pass, key, m, cands, t.rows);
      id in After(t, ds, env).rows && Concerns(After(t, ds, env).rows[id], ds[i])
    requires id in t.rows ==> !ExecutorOwned(t.rows[id].status)
    ensures var ds := PlanOf(p, pass, key, m, cands, t.rows);
      Carries(p, ds[i], After(t, ds, env).rows[id])
  {
    var ds := PlanOf(p, pass, key, m, cands, t.rows);
    OnlyReadyDefers(p, pass, key, m, cands, t.rows, i);
    BatchRow(t, ds, env, i, id);
  }

  /** The pass that follows takes a batch row the tick decided exactly if its verdict is ready, and
      then the row has a rank, so it is listed before every row without one. */
  lemma OnlyReadyIsDispatched(t: Table, p: Config, pass: Pass, key: CacheKey, m: Cache, cands: seq<Candidate>,
                              env: Env, i: nat, id: Id)
    requires ValidTable(t) && DistinctKeys(PlanOf(p, pass, key, m, cands, t.rows)) && env.plannedAt != 0
    requires p.registry == DEFAULT_REGISTRY
    requires i < |cands| && !cands[i].done && Accepted(PlanOf(p, pass, key, m, cands, t.rows)[i], env)
    requires var ds := PlanOf(p, pass, key, m, cands, t.rows);
      id in After(t, ds, env).rows && Concerns(After(t, ds, env).rows[id], ds[i])
    requires id in t.rows ==> !ExecutorOwned(t.rows[id].status)
    ensures var ds := PlanOf(p, pass, key, m, cands, t.rows);
      var row := After(t, ds, env).rows[id];
      && (Dispatch.Dispatchable(row) <==> ds[i].verdict == READY)
      && (Dispatch.Dispatchable(row) ==> row.planRank > 0)
  {
    var ds := PlanOf(p, pass, key, m, cands, t.rows);
    BatchRowCarries(t, p, pass, key, m, cands, env, i, id);
    VerdictGiven(p, pass, key, m, cands, t.rows, i);
    ReadyIsDispatchable(After(t, ds, env).rows[id]);
    RankIfReady(p, pass, key, m, cands, t.rows, i);
  }

  lemma VerdictGiven(p: Config, pass: Pass, key: CacheKey, m: Cache, cands: seq<Candidate>, rows: Rows, i: nat)
    requires i < |cands|
    ensures PlanOf(p, pass, key, m, cands, rows)[i].verdict != ""
    ensures PlanOf(p, pass, key, m, cands, rows)[i].candidate == cands[i]
  {
    OnlyReadyDefers(p, pass, key, m, cands, rows, i);
    assert Judged(p, cands[i], rows).0 != "";
  }

  lemma RankIfReady(p: Config, pass: Pass, key: CacheKey, m: Cache, cands: seq<Candidate>, rows: Rows, i: nat)
    requires i < |cands| && p.registry == DEFAULT_REGISTRY
    ensures var d := PlanOf(p, pass, key, m, cands, rows)[i]; d.verdict == READY ==> d.rank > 0
  {
  }

  /** Under the default registry a labelled row is dispatchable exactly if its label is ready. */
  lemma ReadyIsDispatchable(row: Task)
    requires row.planLabel != "" && row.status == PolicyFor(DEFAULT_REGISTRY, row.planLabel).status
    ensures Dispatch.Dispatchable(row) <==> row.planLabel == READY
  {
  }

  // ---- the fixpoint ----

  /** What the fixpoint needs of a registry; the default one has it. */
  ghost predicate PlannerRegistry(r: Registry) {
    && (forall v | v in r :: !ExecutorOwned(r[v].status))
    && PolicyFor(r, DROP).status == Skipped
    && PolicyFor(r, READY).status != Skipped
    && PolicyFor(r, HOLD).status != Skipped
    && PolicyFor(r, NEEDS_HUMAN).status != Skipped
  }

  lemma DefaultRegistryQualifies()
    ensures PlannerRegistry(DEFAULT_REGISTRY)
  {
  }

  /** The batch: no candidate lacks a key, and no two share a duplicate key. */
  ghost predicate Batch(cands: seq<Candidate>) {
    && (forall i | 0 <= i < |cands| :: cands[i].externalId != "")
    && forall i, j | 0 <= i < j < |cands| ::
         DupKey(cands[i].source, cands[i].externalId) != DupKey(cands[j].source, cands[j].externalId)
  }

  predicate OwnedRowOf(rows: Rows, c: Candidate, id: Id) {
    id in rows && HasKey(rows[id], c.source, c.externalId) && ExecutorOwned(rows[id].status)
  }

  /** A candidate that is done upstream, and that the table takes, has a row with a result already,
      or one that runs. */
  ghost predicate Settled(t: Table, cands: seq<Candidate>, env: Env) {
    forall i | 0 <= i < |cands| && cands[i].done && Acceptable(cands[i], env) ::
      exists id :: OwnedRowOf(t.rows, cands[i], id)
  }

  /** Finishing the row of candidate `i` shows nowhere in the plan: its own verdict is the adapter's or
      the cwd rule's, and no candidate waits for that row. */
  ghost predicate Inert(t: Table, p: Config, cands: seq<Candidate>, i: nat)
    requires i < |cands|
  {
    && (cands[i].verdict != "" || OutsideCwd(p, p.parseNotes(cands[i].notes)))
    && forall c, dep | c in cands && dep in p.parseNotes(c.notes).dependsOn ::
         dep < t.nextId && (dep in t.rows ==> !HasKey(t.rows[dep], cands[i].source, cands[i].externalId))
  }

  /** Every candidate that is done upstream, and that the table takes, is settled or inert. */
  ghost predicate Calm(t: Table, p: Config, cands: seq<Candidate>, env: Env) {
    forall i: nat | i < |cands| && cands[i].done && Acceptable(cands[i], env) ::
      (exists id :: OwnedRowOf(t.rows, cands[i], id)) || Inert(t, p, cands, i)
  }

  lemma BatchHasDistinctKeys(cands: seq<Candidate>, ds: seq<Planned>)
    requires Batch(cands) && |ds| == |cands| && forall i | 0 <= i < |ds| :: ds[i].candidate == cands[i]
    ensures DistinctKeys(ds)
  {
    forall i, j | 0 <= i < j < |ds|
      ensures ds[i].candidate.source != ds[j].candidate.source ||
        ds[i].candidate.externalId != ds[j].candidate.externalId
    {
      assert DupKey(cands[i].source, cands[i].externalId) != DupKey(cands[j].source, cands[j].externalId);
    }
  }

  function Plan(p: Config, key: CacheKey, cands: seq<Candidate>, rows: Rows): seq<Planned> {
    PlanOf(p, Stub, key, map[], cands, rows)
  }

  /** The setting of the fixpoint: a table, the stub plan for it, and the table after the tick. */
  ghost predicate Ticked(t: Table, p: Config, key: CacheKey, cands: seq<Candidate>, env: Env, ds: seq<Planned>,
                         u: Table)
  {
    && ValidTable(t) && PlannerRegistry(p.registry) && Batch(cands) && Calm(t, p, cands, env)
    && ds == Plan(p, key, cands, t.rows) && |ds| == |cands|
    && (forall i | 0 <= i < |ds| :: ds[i].candidate == cands[i] && ds[i].verdict == Judged(p, cands[i], t.rows).0
          && ds[i].status == PolicyFor(p.registry, ds[i].verdict).status && !ExecutorOwned(ds[i].status))
    && DistinctKeys(ds) && u == After(t, ds, env)
  }

  lemma TickedHolds(t: Table, p: Config, key: CacheKey, cands: seq<Candidate>, env: Env)
    requires ValidTable(t) && PlannerRegistry(p.registry) && Batch(cands) && Calm(t, p, cands, env)
    ensures var ds := Plan(p, key, cands, t.rows); Ticked(t, p, key, cands, env, ds, After(t, ds, env))
  {
    var ds := Plan(p, key, cands, t.rows);
    forall i: nat | i < |ds|
      ensures ds[i].candidate == cands[i] && ds[i].verdict == Judged(p, cands[i], t.rows).0
      ensures ds[i].status == PolicyFor(p.registry, ds[i].verdict).status && !ExecutorOwned(ds[i].status)
    {
      StubKeepsVerdict(p, key, cands, t.rows, i);
    }
    BatchHasDistinctKeys(cands, ds);
  }

  lemma StubKeepsVerdict(p: Config, key: CacheKey, cands: seq<Candidate>, rows: Rows, i: nat)
    requires i < |cands|
    ensures Plan(p, key, cands, rows)[i].verdict == Decided(p, cands[i], rows).verdict
    ensures Plan(p, key, cands, rows)[i].candidate == cands[i]
    ensures Plan(p, key, cands, rows)[i].status == PolicyFor(p.registry, Plan(p, key, cands, rows)[i].verdict).status
  {
    var ds := DecidedAll(p, cands, rows);
    assert ds[i] == Decided(p, cands[i], rows);
  }

  /** A tick leaves the row of a candidate that is done upstream alone, or the candidate is inert. */
  lemma DoneRowStays(t: Table, p: Config, key: CacheKey, cands: seq<Candidate>, env: Env, ds: seq<Planned>, u: Table,
                     i: nat, id: Id)
    requires Ticked(t, p, key, cands, env, ds, u) && i < |cands| && cands[i].done
    requires id in u.rows && Concerns(u.rows[id], ds[i])
    ensures (id in t.rows && u.rows[id] == t.rows[id]) || Inert(t, p, cands, i)
  {
    BatchRow(t, ds, env, i, id);
    if owned :| OwnedRowOf(t.rows, cands[i], owned) {
      OwnedRow(t, ds, env, owned);
      OneRowEach(t, ds, env, i);
      assert Concerns(u.rows[owned], ds[i]);
    }
  }

  /** A row after the tick: as before, or with the status the decision on its key gives. */
  lemma StatusAfter(t: Table, p: Config, key: CacheKey, cands: seq<Candidate>, env: Env, ds: seq<Planned>, u: Table,
                    id: Id)
    returns (i: int)
    requires Ticked(t, p, key, cands, env, ds, u) && id in u.rows
    ensures i == -1 ==> id in t.rows && u.rows[id] == t.rows[id]
    ensures i != -1 ==>
      && 0 <= i < |ds| && Concerns(u.rows[id], ds[i]) && u.rows[id].status == StatusFor(ds[i])
      && (cands[i].done ==> Inert(t, p, cands, i))
      && (id in t.rows ==> Concerns(t.rows[id], ds[i]) && !ExecutorOwned(t.rows[id].status))
  {
    if j: nat :| j < |ds| && Concerns(u.rows[id], ds[j]) {
      BatchRow(t, ds, env, j, id);
      if cands[j].done { DoneRowStays(t, p, key, cands, env, ds, u, j, id); }
      i := if id in t.rows && u.rows[id] == t.rows[id] then -1 else j;
    } else {
      OtherRow(t, ds, env, id);
      i := -1;
    }
  }

  /** The running rows are the same rows before and after. */
  lemma RunningSame(t: Table, p: Config, key: CacheKey, cands: seq<Candidate>, env: Env, ds: seq<Planned>, u: Table,
                    id: Id)
    requires Ticked(t, p, key, cands, env, ds, u)
    ensures (id in t.rows && t.rows[id].status == Running) <==> (id in u.rows && u.rows[id].status == Running)
    ensures id in t.rows && t.rows[id].status == Running ==> u.rows[id] == t.rows[id]
  {
    if id in t.rows && t.rows[id].status == Running {
      OwnedRow(t, ds, env, id);
    } else if id in u.rows {
      var i := StatusAfter(t, p, key, cands, env, ds, u, id);
    }
  }

  lemma {:induction false} NewIds(t: Table, ds: seq<Planned>, n: nat, env: Env, id: Id)
    requires n <= |ds| && id in AfterAll(t, ds, n, env).rows
    ensures id in t.rows || t.nextId <= id
  {
    if n > 0 {
      NextIdGrows(t, ds, n - 1, env);
      if id in AfterAll(t, ds, n - 1, env).rows { NewIds(t, ds, n - 1, env, id); }
    }
  }

  lemma {:induction false} NextIdGrows(t: Table, ds: seq<Planned>, n: nat, env: Env)
    requires n <= |ds|
    ensures t.nextId <= AfterAll(t, ds, n, env).nextId
  {
    if n > 0 { NextIdGrows(t, ds, n - 1, env); }
  }

  lemma NotAwaited(t: Table, p: Config, cands: seq<Candidate>, i: nat, c: Candidate, dep: Id)
    requires i < |cands| && Inert(t, p, cands, i) && c in cands && dep in p.parseNotes(c.notes).dependsOn
    ensures dep < t.nextId && (dep in t.rows ==> !HasKey(t.rows[dep], cands[i].source, cands[i].externalId))
  {
  }

  /** A row that a candidate waits for is done after the tick exactly if it was before. */
  lemma AwaitedSame(t: Table, p: Config, key: CacheKey, cands: seq<Candidate>, env: Env, ds: seq<Planned>, u: Table,
                    c: Candidate, dep: Id)
    requires Ticked(t, p, key, cands, env, ds, u) && c in cands && dep in p.parseNotes(c.notes).dependsOn
    ensures IsDone(u.rows, dep) <==> IsDone(t.rows, dep)
  {
    if IsDone(t.rows, dep) {
      OwnedRow(t, ds, env, dep);
    } else if dep in u.rows {
      var i := StatusAfter(t, p, key, cands, env, ds, u, dep);
      NewIds(t, ds, |ds|, env, dep);
      if i != -1 && Inert(t, p, cands, i) { NotAwaited(t, p, cands, i, c, dep); }
    }
  }

  /** A finished row with the candidate's duplicate key. */
  ghost predicate Twin(rows: Rows, c: Candidate, id: Id) {
    && id in rows && rows[id].status in {Done, Skipped} && rows[id].externalId != ""
    && DupKey(rows[id].source, rows[id].externalId) == DupKey(c.source, c.externalId)
  }

  lemma DuplicateIff(rows: Rows, c: Candidate)
    requires c.externalId != ""
    ensures Duplicate(c, WorldOf(rows)) <==> exists id :: Twin(rows, c, id)
  {
    if Duplicate(c, WorldOf(rows)) {
      var id :| id in rows && rows[id].status in {Done, Skipped} && rows[id].externalId != ""
        && DupKey(rows[id].source, rows[id].externalId) == DupKey(c.source, c.externalId);
      assert Twin(rows, c, id);
    }
  }

  lemma SameIndex(cands: seq<Candidate>, i: nat, j: nat)
    requires Batch(cands) && i < |cands| && j < |cands|
    requires DupKey(cands[i].source, cands[i].externalId) == DupKey(cands[j].source, cands[j].externalId)
    ensures i == j
  {
  }

  lemma TwinStays(t: Table, p: Config, key: CacheKey, cands: seq<Candidate>, env: Env, ds: seq<Planned>, u: Table,
                  i: nat, id: Id)
    requires Ticked(t, p, key, cands, env, ds, u) && i < |cands| && cands[i].verdict == ""
    requires !OutsideCwd(p, p.parseNotes(cands[i].notes)) && Twin(t.rows, cands[i], id)
    ensures Twin(u.rows, cands[i], id)
  {
    TickTurns(t, ds, |ds|, env, id);
    var j := StatusAfter(t, p, key, cands, env, ds, u, id);
    if j != -1 {
      SameIndex(cands, i, j);
      DuplicateIff(t.rows, cands[i]);
      VerdictIff(p, cands[i], t.rows);
    }
  }

  lemma TwinWasThere(t: Table, p: Config, key: CacheKey, cands: seq<Candidate>, env: Env, ds: seq<Planned>, u: Table,
                     i: nat, id: Id)
    requires Ticked(t, p, key, cands, env, ds, u) && i < |cands| && cands[i].verdict == ""
    requires !OutsideCwd(p, p.parseNotes(cands[i].notes)) && Twin(u.rows, cands[i], id)
    ensures Duplicate(cands[i], WorldOf(t.rows))
  {
    DuplicateIff(t.rows, cands[i]);
    var j := StatusAfter(t, p, key, cands, env, ds, u, id);
    if j != -1 {
      SameIndex(cands, i, j);
      VerdictIff(p, cands[i], t.rows);
    } else {
      assert Twin(t.rows, cands[i], id);
    }
  }

  /** A tick changes which rows are finished, but not what the duplicate rule says where it is asked. */
  lemma DuplicateSame(t: Table, p: Config, key: CacheKey, cands: seq<Candidate>, env: Env, ds: seq<Planned>, u: Table,
                      i: nat)
    requires Ticked(t, p, key, cands, env, ds, u) && i < |cands| && cands[i].verdict == ""
    requires !OutsideCwd(p, p.parseNotes(cands[i].notes))
    ensures Duplicate(cands[i], WorldOf(u.rows)) <==> Duplicate(cands[i], WorldOf(t.rows))
  {
    DuplicateIff(t.rows, cands[i]);
    DuplicateIff(u.rows, cands[i]);
    if Duplicate(cands[i], WorldOf(t.rows)) {
      var id :| Twin(t.rows, cands[i], id);
      TwinStays(t, p, key, cands, env, ds, u, i, id);
    }
    if Duplicate(cands[i], WorldOf(u.rows)) {
      var id :| Twin(u.rows, cands[i], id);
      TwinWasThere(t, p, key, cands, env, ds, u, i, id);
    }
  }

  lemma BlockedSame(t: Table, p: Config, key: CacheKey, cands: seq<Candidate>, env: Env, ds: seq<Planned>, u: Table,
                    c: Candidate)
    requires Ticked(t, p, key, cands, env, ds, u) && c in cands
    ensures Blocked(p, p.parseNotes(c.notes), u.rows) <==> Blocked(p, p.parseNotes(c.notes), t.rows)
  {
    forall dep | dep in p.parseNotes(c.notes).dependsOn ensures IsDone(u.rows, dep) <==> IsDone(t.rows, dep) {
      AwaitedSame(t, p, key, cands, env, ds, u, c, dep);
    }
  }

  lemma LocksSame(t: Table, p: Config, key: CacheKey, cands: seq<Candidate>, env: Env, ds: seq<Planned>, u: Table)
    requires Ticked(t, p, key, cands, env, ds, u)
    ensures WorldOf(u.rows).locks == WorldOf(t.rows).locks
  {
    forall id
      ensures (id in t.rows && t.rows[id].status == Running) <==> (id in u.rows && u.rows[id].status == Running)
      ensures id in t.rows && t.rows[id].status == Running ==> u.rows[id] == t.rows[id]
    {
      RunningSame(t, p, key, cands, env, ds, u, id);
    }
    forall k ensures k in WorldOf(u.rows).locks <==> k in WorldOf(t.rows).locks {
      if k in WorldOf(u.rows).locks {
        var id :| id in u.rows && u.rows[id].status == Running && u.rows[id].lockKey != "" && u.rows[id].lockKey == k;
        assert id in t.rows && t.rows[id].lockKey == k;
      }
      if k in WorldOf(t.rows).locks {
        var id :| id in t.rows && t.rows[id].status == Running && t.rows[id].lockKey != "" && t.rows[id].lockKey == k;
        assert id in u.rows && u.rows[id].lockKey == k;
      }
    }
  }

  lemma DecidedSame(t: Table, p: Config, key: CacheKey, cands: seq<Candidate>, env: Env, ds: seq<Planned>, u: Table,
                    i: nat)
    requires Ticked(t, p, key, cands, env, ds, u) && i < |cands|
    ensures Decided(p, cands[i], u.rows) == Decided(p, cands[i], t.rows)
  {
    LocksSame(t, p, key, cands, env, ds, u);
    var n := p.parseNotes(cands[i].notes);
    if cands[i].verdict == "" && !OutsideCwd(p, n) {
      DuplicateSame(t, p, key, cands, env, ds, u, i);
      BlockedSame(t, p, key, cands, env, ds, u, cands[i]);
    }
  }

  lemma PlanSame(t: Table, p: Config, key: CacheKey, cands: seq<Candidate>, env: Env, ds: seq<Planned>, u: Table)
    requires Ticked(t, p, key, cands, env, ds, u)
    ensures Plan(p, key, cands, u.rows) == ds
  {
    forall i: nat | i < |cands| ensures Decided(p, cands[i], u.rows) == Decided(p, cands[i], t.rows) {
      DecidedSame(t, p, key, cands, env, ds, u, i);
    }
    assert DecidedAll(p, cands, u.rows) == DecidedAll(p, cands, t.rows);
  }

  /** Writing a decision again changes nothing. */
  lemma PersistAgain(t: Table, ds: seq<Planned>, env: Env, i: nat)
    requires ValidTable(t) && DistinctKeys(ds) && i < |ds|
    ensures AfterPersist(After(t, ds, env), ds[i], env) == After(t, ds, env)
  {
    var u := After(t, ds, env);
    if Accepted(ds[i], env) {
      OneRowEach(t, ds, env, i);
      BatchRow(t, ds, env, i, IdOf(u.rows, ds[i]));
    }
  }

  lemma {:induction false} TickAgain(u: Table, ds: seq<Planned>, env: Env, n: nat)
    requires n <= |ds| && forall i | 0 <= i < |ds| :: AfterPersist(u, ds[i], env) == u
    ensures AfterAll(u, ds, n, env) == u
  {
    if n > 0 { TickAgain(u, ds, env, n - 1); }
  }

  /** The fixpoint: with the stub scorer and the same clock readings, planning and persisting the
      same batch again leaves the whole table as it is, as long as every candidate that is done
      upstream was settled before or is inert. */
  lemma SecondTickChangesNothing(t: Table, p: Config, key: CacheKey, cands: seq<Candidate>, env: Env)
    requires ValidTable(t) && PlannerRegistry(p.registry) && Batch(cands) && Calm(t, p, cands, env)
    ensures var u := After(t, Plan(p, key, cands, t.rows), env);
      After(u, Plan(p, key, cands, u.rows), env) == u
  {
    var ds := Plan(p, key, cands, t.rows);
    TickedHolds(t, p, key, cands, env);
    PlanSame(t, p, key, cands, env, ds, After(t, ds, env));
    var u := After(t, ds, env);
    forall i: nat | i < |ds| ensures AfterPersist(u, ds[i], env) == u {
      PersistAgain(t, ds, env, i);
    }
    TickAgain(u, ds, env, |ds|);
  }

  // ---- any batch ----

  /** One tick settles every candidate that is done upstream. */
  lemma TickSettles(t: Table, cands: seq<Candidate>, env: Env, ds: seq<Planned>)
    requires ValidTable(t) && DistinctKeys(ds) && |ds| == |cands|
    requires forall i | 0 <= i < |ds| :: ds[i].candidate == cands[i]
    ensures Settled(After(t, ds, env), cands, env)
  {
    var u := After(t, ds, env);
    forall i | 0 <= i < |cands| && cands[i].done && Acceptable(cands[i], env)
      ensures exists id :: OwnedRowOf(u.rows, cands[i], id)
    {
      OneRowEach(t, ds, env, i);
      var id :| id in u.rows && Concerns(u.rows[id], ds[i]);
      BatchRow(t, ds, env, i, id);
      assert OwnedRowOf(u.rows, cands[i], id);
    }
  }

  /** Whatever is done upstream, two ticks over one batch reach a fixpoint: from any table a third
      tick changes nothing. */
  lemma ThirdTickChangesNothing(t: Table, p: Config, key: CacheKey, cands: seq<Candidate>, env: Env)
    requires ValidTable(t) && PlannerRegistry(p.registry) && Batch(cands)
    ensures var u := After(t, Plan(p, key, cands, t.rows), env);
      var v := After(u, Plan(p, key, cands, u.rows), env);
      After(v, Plan(p, key, cands, v.rows), env) == v
  {
    var ds := Plan(p, key, cands, t.rows);
    forall i: nat | i < |ds| ensures ds[i].candidate == cands[i] {
      StubKeepsVerdict(p, key, cands, t.rows, i);
    }
    BatchHasDistinctKeys(cands, ds);
    TickSettles(t, cands, env, ds);
    TickKeepsValid(t, ds, |ds|, env);
    SecondTickChangesNothing(After(t, ds, env), p, key, cands, env);
  }
}
