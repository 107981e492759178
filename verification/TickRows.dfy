/** What a tick makes of each row and each key (internal/loop/loop.go, persistDecision), from any
    table. */
module TickRows {
  import opened Tasks
  import opened Planning
  import opened Persist
  import opened Tick
  import T = Text

  // ---- keys ----

  lemma FreshKeyStaysUnique(rows: Rows, id: Id, task: Task)
    requires UniqueKeys(rows) && id !in rows && forall j | j in rows :: !HasKey(rows[j], task.source, task.externalId)
    ensures UniqueKeys(rows[id := task])
  {
  }

  lemma PersistKeepsValid(u: Table, d: Planned, env: Env)
    requires ValidTable(u) && d.candidate.externalId != ""
    ensures ValidTable(AfterPersist(u, d, env)) && u.nextId <= AfterPersist(u, d, env).nextId
  {
    if Accepted(d, env) && Taken(u.rows, d) {
      var id := IdOf(u.rows, d);
      ReevaluatedKeepsKey(u.rows[id], d, env);
      SameKeys(u.rows, u.rows[id := Reevaluated(u.rows[id], d, env)]);
    } else if Accepted(d, env) {
      forall j | j in u.rows ensures !HasKey(u.rows[j], d.candidate.source, d.candidate.externalId) {
        assert !Concerns(u.rows[j], d);
      }
      FreshHasKey(d, env);
      FreshKeyStaysUnique(u.rows, u.nextId, Fresh(d, env));
    }
  }

  lemma ReevaluatedKeepsKey(task: Task, d: Planned, env: Env)
    ensures Reevaluated(task, d, env).source == task.source && Reevaluated(task, d, env).externalId == task.externalId
  {
  }

  lemma FreshHasKey(d: Planned, env: Env)
    ensures Fresh(d, env).source == d.candidate.source && Fresh(d, env).externalId == d.candidate.externalId
  {
  }

  lemma {:induction false} TickKeepsValid(t: Table, ds: seq<Planned>, n: nat, env: Env)
    requires ValidTable(t) && n <= |ds| && DistinctKeys(ds)
    ensures ValidTable(AfterAll(t, ds, n, env)) && t.nextId <= AfterAll(t, ds, n, env).nextId
  {
    if n > 0 {
      TickKeepsValid(t, ds, n - 1, env);
      PersistKeepsValid(AfterAll(t, ds, n - 1, env), ds[n - 1], env);
    }
  }

  lemma InsertTakes(rows: Rows, id: Id, task: Task, e: Planned)
    requires id !in rows
    ensures Taken(rows[id := task], e) <==> Taken(rows, e) || Concerns(task, e)
  {
    var rows' := rows[id := task];
    if Concerns(task, e) { assert Concerns(rows'[id], e); }
    if Taken(rows, e) {
      var j :| j in rows && Concerns(rows[j], e);
      assert Concerns(rows'[j], e);
    }
  }

  lemma UpdateTakes(rows: Rows, id: Id, task: Task, e: Planned)
    requires id in rows && HasKey(task, rows[id].source, rows[id].externalId)
    ensures Taken(rows[id := task], e) <==> Taken(rows, e)
  {
    var rows' := rows[id := task];
    assert forall j | j in rows :: Concerns(rows'[j], e) <==> Concerns(rows[j], e);
  }

  lemma PersistTakes(u: Table, d: Planned, e: Planned, env: Env)
    requires ValidTable(u) && d.candidate.externalId != ""
    ensures Taken(AfterPersist(u, d, env).rows, e) <==> Taken(u.rows, e) || (SameKey(d, e) && Accepted(d, env))
  {
    if Accepted(d, env) && Taken(u.rows, d) {
      var id := IdOf(u.rows, d);
      ReevaluatedKeepsKey(u.rows[id], d, env);
      UpdateTakes(u.rows, id, Reevaluated(u.rows[id], d, env), e);
      assert SameKey(d, e) ==> Concerns(u.rows[id], e);
    } else if Accepted(d, env) {
      FreshHasKey(d, env);
      InsertTakes(u.rows, u.nextId, Fresh(d, env), e);
    }
  }

  lemma {:induction false} OnlyOneTakes(ds: seq<Planned>, n: nat, env: Env, i: nat)
    requires i < |ds| && n <= |ds| && DistinctKeys(ds)
    ensures AnyTakes(ds, n, env, ds[i]) <==> i < n && Accepted(ds[i], env)
  {
    if n > 0 { OnlyOneTakes(ds, n - 1, env, i); }
  }

  /** After n decisions a key is taken exactly if it was before or one of them has it and is accepted. */
  lemma {:induction false} TickTakes(t: Table, ds: seq<Planned>, n: nat, env: Env, e: Planned)
    requires ValidTable(t) && n <= |ds| && DistinctKeys(ds)
    ensures Taken(AfterAll(t, ds, n, env).rows, e) <==> Taken(t.rows, e) || AnyTakes(ds, n, env, e)
  {
    if n > 0 {
      TickTakes(t, ds, n - 1, env, e);
      TickKeepsValid(t, ds, n - 1, env);
      PersistTakes(AfterAll(t, ds, n - 1, env), ds[n - 1], e, env);
    }
  }

  // ---- rows ----

  /** Under distinct keys a row is re-evaluated by the one decision on its key, if there is one. */
  lemma {:induction false} TurnedIs(task: Task, ds: seq<Planned>, n: nat, env: Env, i: nat)
    requires i < n <= |ds| && DistinctKeys(ds) && Concerns(task, ds[i])
    ensures Turned(task, ds, n, env) == Reevaluated(task, ds[i], env)
    decreases n
  {
    if i < n - 1 {
      TurnedIs(task, ds, n - 1, env, i);
      KeysPersist(task, ds[i], ds[n - 1], env);
    } else {
      TurnedNot(task, ds, n - 1, env);
    }
  }

  lemma {:induction false} TurnedNot(task: Task, ds: seq<Planned>, n: nat, env: Env)
    requires n <= |ds| && forall i | 0 <= i < n :: !Concerns(task, ds[i])
    ensures Turned(task, ds, n, env) == task
  {
    if n > 0 { TurnedNot(task, ds, n - 1, env); }
  }

  lemma {:induction false} TurnedKeepsKey(task: Task, ds: seq<Planned>, n: nat, env: Env)
    requires n <= |ds|
    ensures Turned(task, ds, n, env).source == task.source && Turned(task, ds, n, env).externalId == task.externalId
  {
    if n > 0 { TurnedKeepsKey(task, ds, n - 1, env); }
  }

  /** The decision a new row is of. */
  lemma {:induction false} NewRowIs(task: Task, rows: Rows, ds: seq<Planned>, n: nat, env: Env) returns (i: nat)
    requires n <= |ds| && IsNewRow(task, rows, ds, n, env)
    ensures i < n && Accepted(ds[i], env) && !Taken(rows, ds[i]) && task == Fresh(ds[i], env)
  {
    if IsNewRow(task, rows, ds, n - 1, env) {
      i := NewRowIs(task, rows, ds, n - 1, env);
    } else {
      i := n - 1;
    }
  }

  /** A new row does not have the key of the next decision. */
  lemma NewRowHasOtherKey(task: Task, rows: Rows, ds: seq<Planned>, n: nat, env: Env)
    requires n < |ds| && DistinctKeys(ds) && IsNewRow(task, rows, ds, n, env)
    ensures !Concerns(task, ds[n])
  {
    var i := NewRowIs(task, rows, ds, n, env);
    KeysPersist(NO_TASK, ds[i], ds[n], env);
  }

  /** One decision, seen from a row that is there. */
  lemma PersistAt(u: Table, d: Planned, env: Env, id: Id)
    requires ValidTable(u) && d.candidate.externalId != "" && id in u.rows
    ensures var v := AfterPersist(u, d, env);
      && id in v.rows
      && v.rows[id] == if Concerns(u.rows[id], d) then Reevaluated(u.rows[id], d, env) else u.rows[id]
  {
    if Concerns(u.rows[id], d) {
      var chosen := IdOf(u.rows, d);
      assert HasKey(u.rows[id], u.rows[chosen].source, u.rows[chosen].externalId);
    }
  }

  /** And from a row that it makes. */
  lemma PersistMakes(u: Table, d: Planned, env: Env, id: Id)
    requires d.candidate.externalId != "" && id in AfterPersist(u, d, env).rows && id !in u.rows
    ensures Accepted(d, env) && !Taken(u.rows, d) && AfterPersist(u, d, env).rows[id] == Fresh(d, env)
  {
  }

  /** A row there was is what the decisions make of it, one after the other. */
  lemma {:induction false} TickTurns(t: Table, ds: seq<Planned>, n: nat, env: Env, id: Id)
    requires ValidTable(t) && n <= |ds| && DistinctKeys(ds) && id in t.rows
    ensures id in AfterAll(t, ds, n, env).rows
    ensures AfterAll(t, ds, n, env).rows[id] == Turned(t.rows[id], ds, n, env)
  {
    if n > 0 {
      TickTurns(t, ds, n - 1, env, id);
      TickKeepsValid(t, ds, n - 1, env);
      PersistAt(AfterAll(t, ds, n - 1, env), ds[n - 1], env, id);
    }
  }

  /** One more decision: a row that is not among the old ones is a new one. */
  lemma PersistKeepsNew(rows: Rows, ds: seq<Planned>, n: nat, env: Env, u: Table, id: Id)
    requires ValidTable(u) && n < |ds| && DistinctKeys(ds)
    requires id in u.rows ==> IsNewRow(u.rows[id], rows, ds, n, env)
    requires Taken(rows, ds[n]) ==> Taken(u.rows, ds[n])
    requires id in AfterPersist(u, ds[n], env).rows
    ensures IsNewRow(AfterPersist(u, ds[n], env).rows[id], rows, ds, n + 1, env)
  {
    if id in u.rows {
      NewRowHasOtherKey(u.rows[id], rows, ds, n, env);
      PersistAt(u, ds[n], env, id);
    } else {
      PersistMakes(u, ds[n], env, id);
    }
  }

  /** Any other row is one of theirs. */
  lemma {:induction false} TickMakesNew(t: Table, ds: seq<Planned>, n: nat, env: Env, id: Id)
    requires ValidTable(t) && n <= |ds| && DistinctKeys(ds)
    requires id in AfterAll(t, ds, n, env).rows && id !in t.rows
    ensures IsNewRow(AfterAll(t, ds, n, env).rows[id], t.rows, ds, n, env)
  {
    if n > 0 {
      var u := AfterAll(t, ds, n - 1, env);
      if id in u.rows { TickMakesNew(t, ds, n - 1, env, id); }
      TickKeepsValid(t, ds, n - 1, env);
      TickTakes(t, ds, n - 1, env, ds[n - 1]);
      PersistKeepsNew(t.rows, ds, n - 1, env, u, id);
    }
  }

  /** Such a row holds what its candidate says: every column is the candidate's, the decision's or
      empty. */
  lemma TickMakes(t: Table, ds: seq<Planned>, n: nat, env: Env, id: Id) returns (i: nat)
    requires ValidTable(t) && n <= |ds| && DistinctKeys(ds)
    requires id in AfterAll(t, ds, n, env).rows && id !in t.rows
    ensures i < n && ds[i].candidate.source != ""
    ensures ds[i].candidate.notes == "" || env.jsonValid(ds[i].candidate.notes)
    ensures forall j | j in t.rows ::
      t.rows[j].source != ds[i].candidate.source || t.rows[j].externalId != ds[i].candidate.externalId
    ensures var row, c := AfterAll(t, ds, n, env).rows[id], ds[i].candidate;
      && row.source == c.source && row.externalId == c.externalId && row.externalUrl == c.sourcePath
      && row.body == c.body && row.notes == c.notes && row.createdAt == env.now
      && row.title == (if T.TrimSpace(c.title) != "" then T.TrimSpace(c.title)
                       else if c.externalId != "" then "(untitled " + c.source + " item " + c.externalId + ")"
                       else "(untitled " + c.source + " item)")
      && row.status == (if c.done then Done else ds[i].status)
      && row.lockKey == row.ws == row.judgmentReason == row.resultSummary == ""
      && (!c.done && env.plannedAt != 0 ==>
            && row.planLabel == ds[i].verdict && row.planReason == env.redact(ds[i].reason)
            && row.planScore == ds[i].score && row.planRank == ds[i].rank)
  {
    TickMakesNew(t, ds, n, env, id);
    i := NewRowIs(AfterAll(t, ds, n, env).rows[id], t.rows, ds, n, env);
    FreshReads(ds[i], env);
    forall j | j in t.rows
      ensures t.rows[j].source != ds[i].candidate.source || t.rows[j].externalId != ds[i].candidate.externalId
    {
      assert !Concerns(t.rows[j], ds[i]);
    }
  }
}
