/** Where the conditions of module `LockExclusion` end: exactly which calls break the lock, and runs
    that break it from the empty table. */
module Races {
  import opened Tasks
  import opened Dispatch
  import opened Lifecycle
  import opened LockExclusion

  lemma {:induction false} StepsConcat(s: Sys, a: seq<Action>, t: Sys, b: seq<Action>, u: Sys)
    requires Steps(s, a, t) && Steps(t, b, u)
    ensures Steps(s, a + b, u)
    decreases |a|
  {
    if a == [] {
      assert a + b == b;
    } else {
      StepsConcat(Apply(s, a[0]), a[1..], t, b, u);
      assert (a + b)[1..] == a[1..] + b;
    }
  }

  /** The row once its session `ws` runs, under `key` if there is one. */
  function Launched(row: Task, key: string, ws: string): Task {
    row.(lockKey := if key == "" then row.lockKey else key, ws := ws, startedAt := 1, status := Running)
  }

  lemma {:induction false} FollowsConcat(pc: Pc, rows: Rows, a: seq<Event>, pc': Pc, rows': Rows,
                                         b: seq<Event>, pc'': Pc, rows'': Rows)
    requires Follows(pc, rows, a, pc', rows') && Follows(pc', rows', b, pc'', rows'')
    ensures Follows(pc, rows, a + b, pc'', rows'')
    decreases |a|
  {
    if a == [] {
      assert a + b == b;
    } else {
      var n := Step(pc, rows, a[0]);
      FollowsConcat(n.0, n.1, a[1..], pc', rows', b, pc'', rows'');
      assert (a + b)[1..] == a[1..] + b;
    }
  }

  /** From the claim to the last step before the row runs. */
  lemma ClaimFollows(rows: Rows, id: Id, key: string, ws: string) returns (es: seq<Event>)
    requires Claimable(rows, id) && RealSession(ws)
    ensures Follows(Mkdir(id, key), rows, es,
                    SetRunning(id, key, ws, ""), rows[id := rows[id].(ws := ws, startedAt := 1)])
    ensures Created(ws, "") in es && forall e | e in es :: !e.Cleared?
  {
    var r1 := rows[id := rows[id].(ws := CLAIM_SENTINEL)];
    var r2 := r1[id := r1[id].(ws := ws)];
    var end := r2[id := r2[id].(startedAt := 1)];
    var pc' := SetRunning(id, key, ws, "");
    assert end == rows[id := rows[id].(ws := ws, startedAt := 1)];
    FollowsCons(Stamp(id, key, ws, ""), r2, Clock(1), [], pc', end);
    FollowsCons(SetWs(id, key, ws, ""), r1, Fine, [Clock(1)] + [], pc', end);
    es := [Fine] + ([Clock(1)] + []);
    FollowsCons(Start(id, key), r1, Created(ws, ""), es, pc', end);
    es := [Created(ws, "")] + es;
    FollowsCons(Claim(id, key), rows, Fine, es, pc', end);
    es := [Fine] + es;
    FollowsCons(Mkdir(id, key), rows, Fine, es, pc', end);
    es := [Fine] + es;
  }

  /** A call on a free row whose key, if any, nobody else holds can come that far. */
  lemma AlmostFollows(rows: Rows, id: Id, key: string, ws: string) returns (es: seq<Event>)
    requires Claimable(rows, id) && (key == "" || !HeldByOther(rows, id, key)) && RealSession(ws)
    ensures Follows(Check(id), rows, es,
                    SetRunning(id, key, ws, ""), rows[id := Launched(rows[id], key, ws).(status := Pending)])
    ensures Created(ws, "") in es && Clears(es, key)
  {
    var pc' := SetRunning(id, key, ws, "");
    var end := rows[id := Launched(rows[id], key, ws).(status := Pending)];
    if key == "" {
      es := ClaimFollows(rows, id, key, ws);
      assert end == rows[id := rows[id].(ws := ws, startedAt := 1)];
    } else {
      var r1 := rows[id := rows[id].(lockKey := key)];
      es := ClaimFollows(r1, id, key, ws);
      assert end == r1[id := r1[id].(ws := ws, startedAt := 1)];
      FollowsCons(Lock(id, key), rows, Fine, es, pc', end);
      es := [Fine] + es;
    }
    FollowsCons(Check(id), rows, Cleared(key), es, pc', end);
    es := [Cleared(key)] + es;
  }

  /** And such a call can start the row. */
  lemma LaunchFollows(rows: Rows, id: Id, key: string, ws: string) returns (es: seq<Event>)
    requires Claimable(rows, id) && (key == "" || !HeldByOther(rows, id, key)) && RealSession(ws)
    ensures Follows(Check(id), rows, es, Returned(true, false), rows[id := Launched(rows[id], key, ws)])
    ensures Created(ws, "") in es && Clears(es, key)
  {
    var done, end := Returned(true, false), rows[id := Launched(rows[id], key, ws)];
    var mid := rows[id := Launched(rows[id], key, ws).(status := Pending)];
    var first := AlmostFollows(rows, id, key, ws);
    assert end == AfterUpdateStatus(mid, id, Running);
    FollowsCons(Send(id), end, Fine, [], done, end);
    FollowsCons(SetRunning(id, key, ws, ""), mid, Fine, [Fine] + [], done, end);
    var last := [Fine] + ([Fine] + []);
    FollowsConcat(Check(id), rows, first, SetRunning(id, key, ws, ""), mid, last, done, end);
    es := first + last;
  }

  /** A call on a row it cannot claim takes the row's lock and then clears it. */
  lemma LoserFollows(rows: Rows, id: Id, key: string) returns (es: seq<Event>)
    requires id in rows && !Claimable(rows, id) && key != "" && !HeldByOther(rows, id, key)
    ensures Follows(Check(id), rows, es, Returned(false, false), rows[id := rows[id].(lockKey := "")])
    ensures Clears(es, key)
  {
    var done := Returned(false, false);
    var r1 := rows[id := rows[id].(lockKey := key)];
    var end := r1[id := r1[id].(lockKey := "")];
    assert end == rows[id := rows[id].(lockKey := "")];
    FollowsCons(Release(id, key, false), r1, Fine, [], done, end);
    es := [Fine] + [];
    FollowsCons(Claim(id, key), r1, Fine, es, done, end);
    es := [Fine] + es;
    FollowsCons(Mkdir(id, key), r1, Fine, es, done, end);
    es := [Fine] + es;
    FollowsCons(Lock(id, key), rows, Fine, es, done, end);
    es := [Fine] + es;
    FollowsCons(Check(id), rows, Cleared(key), es, done, end);
    es := [Cleared(key)] + es;
  }

  ghost predicate RunsUnlocked(rows: Rows, resolve: string -> string) {
    exists j :: j in rows && rows[j].status == Running && rows[j].lockKey != resolve(rows[j].notes)
  }

  /** Some call on the row, alone with the table, and broken off anywhere, ends with a running row
      that is without its key. */
  ghost predicate CallCanUnlock(rows: Rows, id: Id, resolve: string -> string) {
    exists es, pc', rows' ::
      Follows(Check(id), rows, es, pc', rows') && Resolved(rows, id, es, resolve) && RunsUnlocked(rows', resolve)
  }

  /** The condition on taking up a row is exact: where every row is locked as it should be, a call
      can leave a running row without its key if and only if its own row runs, has a key, and
      nobody else holds that key. */
  lemma CallCanUnlockIff(rows: Rows, id: Id, resolve: string -> string)
    requires AllLocked(rows, resolve)
    ensures CallCanUnlock(rows, id, resolve) <==>
      && id in rows && rows[id].status == Running
      && resolve(rows[id].notes) != "" && !HeldByOther(rows, id, resolve(rows[id].notes))
  {
    if id in rows && rows[id].status == Running && resolve(rows[id].notes) != ""
      && !HeldByOther(rows, id, resolve(rows[id].notes)) {
      var rows' := rows[id := rows[id].(lockKey := "")];
      var es := LoserFollows(rows, id, resolve(rows[id].notes));
      assert rows'[id].status == Running && rows'[id].lockKey != resolve(rows'[id].notes);
      assert RunsUnlocked(rows', resolve);
    } else {
      forall es, pc', rows' | Follows(Check(id), rows, es, pc', rows') && Resolved(rows, id, es, resolve)
        ensures !RunsUnlocked(rows', resolve)
      {
        CarefulCall(Check(id), rows, es, pc', rows', resolve);
      }
    }
  }

  lemma {:induction false} ActsOfOnlyActs(p: Pid, es: seq<Event>)
    ensures forall a | a in ActsOf(p, es) :: a.Act?
  {
    if es != [] { ActsOfOnlyActs(p, es[1..]); }
  }

  /** Dispatcher `p`, with `id` next, makes the call `es`, on top of a run from `r`. */
  lemma Call(r: Sys, acts: seq<Action>, s: Sys, p: Pid, id: Id, es: seq<Event>, pc': Pc, rows': Rows)
    returns (acts': seq<Action>, t: Sys)
    requires Steps(r, acts, s)
    requires p in s.procs && Ready(s.procs[p].pc) && s.procs[p].todo == [id]
    requires Follows(Check(id), s.rows, es, pc', rows')
    ensures Steps(r, acts', t) && t.rows == rows'
    ensures t.procs == s.procs[p := Proc([], pc')]
    ensures t.watch == s.watch && t.sweep == s.sweep && t.nextId == s.nextId && s.live <= t.live
    ensures forall e | e in es && e.Created? :: e.ws in t.live
    ensures forall a | a in acts' :: a in acts || a.Pick? || a.Act?
  {
    var picked := Apply(s, Pick(p));
    assert s.procs[p].todo[1..] == [] && picked.procs == s.procs[p := Proc([], Check(id))];
    t := CallIsRun(picked, p, es, pc', rows');
    var more := [Pick(p)] + ActsOf(p, es);
    assert more[1..] == ActsOf(p, es);
    ActsOfOnlyActs(p, es);
    assert forall a | a in more :: a.Pick? || a.Act?;
    StepsConcat(r, acts, s, more, t);
    acts' := acts + more;
  }

  lemma Then(r: Sys, acts: seq<Action>, s: Sys, a: Action) returns (acts': seq<Action>, t: Sys)
    requires Steps(r, acts, s) && Enabled(s, a) && Orderly(s, a)
    ensures Steps(r, acts', t) && t == Apply(s, a) && acts' == acts + [a]
  {
    t := Apply(s, a);
    assert [a][1..] == [];
    assert Steps(s, [a], t);
    StepsConcat(r, acts, s, [a], t);
    acts' := acts + [a];
  }

  /** A pending row as `marunage add` leaves it. */
  function NewRow(notes: string): Task {
    NO_TASK.(source := "manual", title := "t", notes := notes)
  }

  lemma TwoRowsListedTwice(notes: string) returns (acts: seq<Action>, s: Sys)
    ensures Steps(EMPTY, acts, s)
    ensures s.rows == map[1 := NewRow(notes), 2 := NewRow(notes)]
    ensures s.procs == map[1 := Proc([1], Idle), 2 := Proc([1], Idle)]
  {
    acts, s := [], EMPTY;
    acts, s := Then(EMPTY, acts, s, Insert(NewRow(notes)));
    acts, s := Then(EMPTY, acts, s, Insert(NewRow(notes)));
    acts, s := Then(EMPTY, acts, s, ListPending(1, [1]));
    acts, s := Then(EMPTY, acts, s, ListPending(2, [1]));
  }

  /** Dispatcher 2 runs row 1 to the end of its call. */
  lemma OtherRunsFirst(notes: string, key: string) returns (acts: seq<Action>, s: Sys)
    requires key != ""
    ensures Steps(EMPTY, acts, s)
    ensures s.rows == map[1 := Launched(NewRow(notes), key, "b"), 2 := NewRow(notes)]
    ensures s.procs == map[1 := Proc([1], Idle), 2 := Proc([], Returned(true, false))]
  {
    acts, s := TwoRowsListedTwice(notes);
    var es := LaunchFollows(s.rows, 1, key, "b");
    acts, s := Call(EMPTY, acts, s, 2, 1, es, Returned(true, false), s.rows[1 := Launched(s.rows[1], key, "b")]);
  }

  /** Dispatcher 1 then loses the claim. */
  lemma LoserClearsLock(notes: string, key: string) returns (acts: seq<Action>, s: Sys)
    requires key != ""
    ensures Steps(EMPTY, acts, s)
    ensures s.rows == map[1 := Launched(NewRow(notes), "", "b"), 2 := NewRow(notes)]
    ensures s.procs == map[1 := Proc([], Returned(false, false)), 2 := Proc([], Returned(true, false))]
  {
    acts, s := OtherRunsFirst(notes, key);
    var es := LoserFollows(s.rows, 1, key);
    acts, s := Call(EMPTY, acts, s, 1, 1, es, Returned(false, false), s.rows[1 := s.rows[1].(lockKey := "")]);
  }

  /** Lock exclusion fails when two listings share a row, even if no two dispatchers are ever on
      the row at once: the loser of the claim clears the lock of the running row and then runs
      row 2 under the same key. */
  lemma StaleListingDefeatsLock(notes: string, key: string) returns (acts: seq<Action>, s: Sys)
    requires key != ""
    ensures Steps(EMPTY, acts, s)
    ensures 1 in s.rows && 2 in s.rows && s.rows[1].status == Running && s.rows[2].status == Running
    ensures s.rows[1].notes == s.rows[2].notes == notes
    ensures s.rows[2].lockKey == key && s.rows[1].lockKey == ""
  {
    acts, s := LoserClearsLock(notes, key);
    acts, s := Then(EMPTY, acts, s, EndPass(1));
    acts, s := Then(EMPTY, acts, s, ListPending(1, [2]));
    var es := LaunchFollows(s.rows, 2, key, "a");
    acts, s := Call(EMPTY, acts, s, 1, 2, es, Returned(true, false), s.rows[2 := Launched(s.rows[2], key, "a")]);
  }

  lemma TwoRowsListedApart(notes: string) returns (acts: seq<Action>, s: Sys)
    ensures Steps(EMPTY, acts, s)
    ensures s.rows == map[1 := NewRow(notes), 2 := NewRow(notes)]
    ensures s.procs == map[1 := Proc([1], Idle), 2 := Proc([2], Idle)] && s.watch == {}
  {
    acts, s := [], EMPTY;
    acts, s := Then(EMPTY, acts, s, Insert(NewRow(notes)));
    acts, s := Then(EMPTY, acts, s, Insert(NewRow(notes)));
    acts, s := Then(EMPTY, acts, s, ListPending(1, [1]));
    acts, s := Then(EMPTY, acts, s, ListPending(2, [2]));
  }

  lemma RowAlmostLaunched(notes: string, key: string) returns (acts: seq<Action>, s: Sys)
    requires key != ""
    ensures Steps(EMPTY, acts, s)
    ensures s.rows == map[1 := Launched(NewRow(notes), key, "a").(status := Pending), 2 := NewRow(notes)]
    ensures s.procs == map[1 := Proc([], SetRunning(1, key, "a", "")), 2 := Proc([2], Idle)]
  {
    acts, s := TwoRowsListedApart(notes);
    var es := AlmostFollows(s.rows, 1, key, "a");
    var row := Launched(s.rows[1], key, "a").(status := Pending);
    acts, s := Call(EMPTY, acts, s, 1, 1, es, SetRunning(1, key, "a", ""), s.rows[1 := row]);
  }

  lemma LaunchedRowMoved(notes: string, key: string) returns (acts: seq<Action>, s: Sys)
    requires key != ""
    ensures Steps(EMPTY, acts, s)
    ensures s.rows == map[1 := Launched(NewRow(notes), key, "a").(status := WaitingHuman), 2 := NewRow(notes)]
    ensures s.procs == map[1 := Proc([], SetRunning(1, key, "a", "")), 2 := Proc([2], Idle)]
  {
    acts, s := RowAlmostLaunched(notes, key);
    acts, s := Then(EMPTY, acts, s, PlanStatus(1, WaitingHuman));
  }

  /** The planner must leave alone a row on the way to run: moving it to waiting for a human frees
      its key, another row takes the key, and then both run under it. */
  lemma PlannerDefeatsLock(notes: string, key: string) returns (acts: seq<Action>, s: Sys)
    requires key != ""
    ensures Steps(EMPTY, acts, s)
    ensures 1 in s.rows && 2 in s.rows && s.rows[1].status == Running && s.rows[2].status == Running
    ensures s.rows[1].notes == s.rows[2].notes == notes && s.rows[1].lockKey == s.rows[2].lockKey == key
  {
    acts, s := LaunchedRowMoved(notes, key);
    var es := LaunchFollows(s.rows, 2, key, "b");
    acts, s := Call(EMPTY, acts, s, 2, 2, es, Returned(true, false), s.rows[2 := Launched(s.rows[2], key, "b")]);
    acts, s := Then(EMPTY, acts, s, Act(1, Fine));
  }

  lemma OneRuns(notes: string, key: string) returns (acts: seq<Action>, s: Sys)
    requires key != ""
    ensures Steps(EMPTY, acts, s)
    ensures s.rows == map[1 := Launched(NewRow(notes), key, "a"), 2 := NewRow(notes)]
    ensures s.procs == map[1 := Proc([], Returned(true, false)), 2 := Proc([2], Idle)] && s.watch == {}
  {
    acts, s := TwoRowsListedApart(notes);
    var es := LaunchFollows(s.rows, 1, key, "a");
    acts, s := Call(EMPTY, acts, s, 1, 1, es, Returned(true, false), s.rows[1 := Launched(s.rows[1], key, "a")]);
  }

  /** Row 1 runs and the watcher has listed it; row 2 waits. */
  lemma RowWatched(notes: string, key: string) returns (acts: seq<Action>, s: Sys)
    requires key != ""
    ensures Steps(EMPTY, acts, s)
    ensures s.rows == map[1 := Launched(NewRow(notes), key, "a"), 2 := NewRow(notes)]
    ensures s.procs == map[1 := Proc([], Returned(true, false)), 2 := Proc([2], Idle)] && s.watch == {1}
  {
    acts, s := OneRuns(notes, key);
    forall id ensures id in RunningRows(s.rows) <==> id == 1 {}
    assert RunningRows(s.rows).Keys == {1};
    acts, s := Then(EMPTY, acts, s, WatchList);
  }

  lemma WatchedRowFailed(notes: string, key: string) returns (acts: seq<Action>, s: Sys)
    requires key != ""
    ensures Steps(EMPTY, acts, s)
    ensures s.rows == map[1 := Launched(NewRow(notes), key, "a").(status := Failed), 2 := NewRow(notes)]
    ensures s.procs == map[1 := Proc([], Returned(true, false)), 2 := Proc([2], Idle)] && s.watch == {1}
  {
    acts, s := RowWatched(notes, key);
    acts, s := Then(EMPTY, acts, s, Finish(1, Failed));
  }

  /** It is failed and reopened before the watcher comes to it. */
  lemma WatchedRowReopened(notes: string, key: string) returns (acts: seq<Action>, s: Sys)
    requires key != ""
    ensures Steps(EMPTY, acts, s)
    ensures s.rows == map[1 := NewRow(notes).(lockKey := key, startedAt := 1), 2 := NewRow(notes)]
    ensures s.procs == map[1 := Proc([], Returned(true, false)), 2 := Proc([2], Idle)] && s.watch == {1}
  {
    acts, s := WatchedRowFailed(notes, key);
    acts, s := Then(EMPTY, acts, s, Reopen(1));
  }

  lemma WatchedRowRelisted(notes: string, key: string) returns (acts: seq<Action>, s: Sys)
    requires key != ""
    ensures Steps(EMPTY, acts, s)
    ensures s.rows == map[1 := NewRow(notes).(lockKey := key, startedAt := 1), 2 := NewRow(notes)]
    ensures s.procs == map[1 := Proc([1], Idle), 2 := Proc([2], Idle)] && s.watch == {1}
  {
    acts, s := WatchedRowReopened(notes, key);
    acts, s := Then(EMPTY, acts, s, EndPass(1));
    acts, s := Then(EMPTY, acts, s, ListPending(1, [1]));
  }

  /** It is listed and taken up again, */
  lemma WatchedRowTakenUp(notes: string, key: string) returns (acts: seq<Action>, s: Sys)
    requires key != ""
    ensures Steps(EMPTY, acts, s)
    ensures s.rows == map[1 := Launched(NewRow(notes), key, "b").(status := Pending), 2 := NewRow(notes)]
    ensures s.procs == map[1 := Proc([], SetRunning(1, key, "b", "")), 2 := Proc([2], Idle)] && s.watch == {1}
  {
    acts, s := WatchedRowRelisted(notes, key);
    var es := AlmostFollows(s.rows, 1, key, "b");
    var row := Launched(s.rows[1], key, "b").(status := Pending);
    assert s.rows[1 := row] == map[1 := Launched(NewRow(notes), key, "b").(status := Pending), 2 := NewRow(notes)];
    acts, s := Call(EMPTY, acts, s, 1, 1, es, SetRunning(1, key, "b", ""), s.rows[1 := row]);
  }

  /** and now the watcher's pass settles it. */
  lemma WatchedRowSettled(notes: string, key: string) returns (acts: seq<Action>, s: Sys)
    requires key != ""
    ensures Steps(EMPTY, acts, s)
    ensures s.rows == map[1 := Launched(NewRow(notes), key, "b").(status := Done, completedAt := 1), 2 := NewRow(notes)]
    ensures s.procs == map[1 := Proc([], SetRunning(1, key, "b", "")), 2 := Proc([2], Idle)]
  {
    acts, s := WatchedRowTakenUp(notes, key);
    acts, s := Then(EMPTY, acts, s, WatchDone(1, "", 1));
  }

  /** Reopen must leave alone the rows the watcher has listed: the pass settles the reopened row on
      its old listing while it is being launched again, which frees its key; another row takes the
      key, and then both run under it.  The planner has no part in this run, and no two dispatchers
      meet on a row. */
  lemma WatcherDefeatsLock(notes: string, key: string) returns (acts: seq<Action>, s: Sys)
    requires key != ""
    ensures Steps(EMPTY, acts, s)
    ensures 1 in s.rows && 2 in s.rows && s.rows[1].status == Running && s.rows[2].status == Running
    ensures s.rows[1].notes == s.rows[2].notes == notes && s.rows[1].lockKey == s.rows[2].lockKey == key
  {
    acts, s := WatchedRowSettled(notes, key);
    var es := LaunchFollows(s.rows, 2, key, "c");
    acts, s := Call(EMPTY, acts, s, 2, 2, es, Returned(true, false), s.rows[2 := Launched(s.rows[2], key, "c")]);
    acts, s := Then(EMPTY, acts, s, Act(1, Fine));
  }
}
