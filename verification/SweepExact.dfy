/** Exactly when a sweep may still fail the wrong session: the condition of module `Sweep` on a row,
    as a property of the state the sweep is in. */
module SweepExact {
  import opened Tasks
  import opened Dispatch
  import opened Lifecycle
  import opened Races
  import opened Sweep

  /** The sweep goes on, and no command clears the `ws` of the row. */
  predicate GoesOn(acts: seq<Action>, id: Id) {
    Unbroken(acts) && NoReset(acts, id)
  }

  /** The sweep has listed the row, found its session dead, and has yet to come to it. */
  predicate Doomed(s: Sys, id: Id) {
    && s.sweep.Sweeping? && id in s.sweep.found && id in s.sweep.todo && id < s.nextId
    && s.sweep.found[id].ws != "" && s.sweep.found[id].ws !in s.sweep.alive
  }

  /** Failing the row now would take effect, and on another session than the listed one. */
  predicate Misses(s: Sys, id: Id) {
    && Doomed(s, id) && id in s.rows && s.rows[id].status == Running
    && s.rows[id].ws != s.sweep.found[id].ws
  }

  ghost predicate CanMiss(s: Sys, id: Id) {
    exists acts, t :: Steps(s, acts, t) && GoesOn(acts, id) && Misses(t, id)
  }

  predicate ListedIn(s: Sys, id: Id) {
    s.sweep.Sweeping? && id in s.sweep.found && id < s.nextId
  }

  /** The row has a session or a claim, runs only with the listed session, and whoever is
      launching it has that session in hand. */
  predicate Steady(s: Sys, id: Id)
    requires ListedIn(s, id)
  {
    id in s.rows ==>
      && s.rows[id].ws != ""
      && (s.rows[id].status == Running ==> s.rows[id].ws == s.sweep.found[id].ws)
      && forall p | p in s.procs && Launching(s.procs[p].pc) && s.procs[p].pc.id == id ::
           HasSession(s.procs[p].pc) && s.procs[p].pc.ws == s.sweep.found[id].ws
  }

  // ---- a steady row stays steady ----

  /** An action on the row itself: if it was steady, only a session in hand can come into it. */
  lemma OwnStep(pc: Pc, rows: Rows, e: Event, ws: string)
    requires Accepts(pc, e) && pc.id in rows && rows[pc.id].ws != ""
    requires Launching(pc) ==> HasSession(pc) && pc.ws == ws && RealSession(ws)
    requires pc.SetRunning? ==> rows[pc.id].ws == ws
    ensures var n := Step(pc, rows, e);
      && n.1[pc.id].ws != ""
      && (n.1[pc.id].status == Running && rows[pc.id].status != Running ==> n.1[pc.id].ws == ws)
      && (n.1[pc.id].ws == rows[pc.id].ws || n.1[pc.id].ws == ws)
      && (Launching(n.0) ==> HasSession(n.0) && n.0.ws == ws)
  {
  }

  /** Who launches the row after an action has the listed session in hand. */
  lemma LaunchersSteady(s: Sys, p: Pid, e: Event, id: Id)
    requires Inv(s) && ListedIn(s, id) && Steady(s, id) && id in s.rows && Enabled(s, Act(p, e))
    ensures var n := Step(s.procs[p].pc, s.rows, e);
      Launching(n.0) && n.0.id == id ==> HasSession(n.0) && n.0.ws == s.sweep.found[id].ws
  {
    var pc := s.procs[p].pc;
    assert Grip(s, pc);
    if Launching(Step(pc, s.rows, e).0) {
      StepLaunches(pc, s.rows, e);
      if pc.id == id { OwnStep(pc, s.rows, e, s.sweep.found[id].ws); }
    }
  }

  /** What an action leaves of the row. */
  lemma RowSteady(s: Sys, p: Pid, e: Event, id: Id)
    requires Inv(s) && ListedIn(s, id) && Steady(s, id) && id in s.rows && Enabled(s, Act(p, e))
    ensures var rows := Step(s.procs[p].pc, s.rows, e).1;
      && id in rows && rows[id].ws != ""
      && (rows[id].status == Running ==> rows[id].ws == s.sweep.found[id].ws)
  {
    var pc := s.procs[p].pc;
    assert Grip(s, pc);
    StepShape(pc, s.rows, e);
    if pc.id == id { OwnStep(pc, s.rows, e, s.sweep.found[id].ws); }
  }

  lemma ActKeepsSteady(s: Sys, p: Pid, e: Event, id: Id)
    requires Inv(s) && ListedIn(s, id) && Steady(s, id)
    requires Enabled(s, Act(p, e))
    ensures ListedIn(Apply(s, Act(p, e)), id) && Steady(Apply(s, Act(p, e)), id)
  {
    StepShape(s.procs[p].pc, s.rows, e);
    if id in s.rows {
      RowSteady(s, p, e, id);
      LaunchersSteady(s, p, e, id);
    }
  }

  lemma ApplyKeepsSteady(s: Sys, a: Action, id: Id)
    requires Inv(s) && ListedIn(s, id) && Steady(s, id)
    requires Enabled(s, a) && Orderly(s, a) && a != Reopen(id) && a != Clean(id) && !a.ReapEnd? && !a.ReapAbort?
    ensures ListedIn(Apply(s, a), id) && Apply(s, a).sweep.found == s.sweep.found && Steady(Apply(s, a), id)
  {
    if a.Act? { ActKeepsSteady(s, a.p, a.e, id); }
  }

  lemma {:induction false} StaysSteady(s: Sys, acts: seq<Action>, t: Sys, id: Id)
    requires Inv(s) && ListedIn(s, id) && Steady(s, id)
    requires Steps(s, acts, t) && GoesOn(acts, id)
    ensures ListedIn(t, id) && t.sweep.found == s.sweep.found && Steady(t, id)
    decreases |acts|
  {
    if acts != [] {
      assert acts[0] in acts && forall a | a in acts[1..] :: a in acts;
      ApplyKeeps(s, acts[0]);
      ApplyKeepsSteady(s, acts[0], id);
      StaysSteady(Apply(s, acts[0]), acts[1..], t, id);
    }
  }

  // ---- any other row can be missed ----

  lemma CanMissLater(s: Sys, a: Action, id: Id)
    requires Enabled(s, a) && Orderly(s, a) && CanMiss(Apply(s, a), id)
    requires a != Reopen(id) && a != Clean(id) && !a.ReapEnd? && !a.ReapAbort?
    ensures CanMiss(s, id)
  {
    var acts, t :| Steps(Apply(s, a), acts, t) && GoesOn(acts, id) && Misses(t, id);
    assert ([a] + acts)[1..] == acts;
    assert Steps(s, [a] + acts, t) && GoesOn([a] + acts, id);
  }

  /** A session id other than the given one. */
  function OtherSession(ws: string): (other: string)
    ensures RealSession(other) && other != ws
  {
    if ws == "a" then "b" else "a"
  }

  /** A row without `ws` can be made pending and ready. */
  lemma MadeReady(s: Sys, id: Id) returns (acts: seq<Action>, t: Sys)
    requires Doomed(s, id) && id in s.rows && s.rows[id].ws == ""
    ensures Steps(s, acts, t) && GoesOn(acts, id) && Doomed(t, id) && t.sweep == s.sweep && t.procs == s.procs
    ensures Claimable(t.rows, id) && Dispatchable(t.rows[id])
  {
    acts, t := Then(s, [], s, PlanStatus(id, Pending));
    acts, t := Then(s, acts, t, PlanLabel(id, DISPATCHABLE_PLAN_LABEL, "", 0.0, 0, 1));
  }

  /** Whatever dispatcher 0 was at, it can crash. */
  lemma Crashed(s: Sys, id: Id) returns (acts: seq<Action>, t: Sys)
    ensures Steps(s, acts, t) && GoesOn(acts, id) && t == s.(procs := t.procs) && 0 !in t.procs
  {
    acts, t := [], s;
    if 0 in s.procs { acts, t := Then(s, [], s, Crash(0)); }
  }

  /** A dispatcher begins afresh and lists the row. */
  lemma ListedAgain(s: Sys, id: Id) returns (acts: seq<Action>, t: Sys)
    requires Doomed(s, id) && id in s.rows && s.rows[id].ws == ""
    ensures Steps(s, acts, t) && GoesOn(acts, id) && Doomed(t, id) && t.sweep == s.sweep
    ensures Claimable(t.rows, id) && 0 in t.procs && t.procs[0] == Proc([id], Idle)
  {
    var first, u := MadeReady(s, id);
    var second, v := Crashed(u, id);
    StepsConcat(s, first, u, second, v);
    acts, t := Then(s, first + second, v, ListPending(0, [id]));
  }

  /** A sweep is unsound after a reset: from every state in which the `ws` of a listed row has been
      cleared before the sweep comes to it, the run can go on, without touching the row from outside
      again, until the sweep fails it with a session that is alive. */
  lemma ResetRowFailsLive(s: Sys, id: Id) returns (acts: seq<Action>, t: Sys)
    requires Doomed(s, id) && id in s.rows && s.rows[id].ws == ""
    ensures Steps(s, acts, t) && GoesOn(acts, id) && Misses(t, id) && t.rows[id].ws in t.live
    ensures Enabled(t, Reap(id, false)) && Apply(t, Reap(id, false)).rows[id].status == Failed
  {
    acts, t := ListedAgain(s, id);
    var ws := OtherSession(s.sweep.found[id].ws);
    var es := LaunchFollows(t.rows, id, "", ws);
    acts, t := Call(s, acts, t, 0, id, es, Returned(true, false), t.rows[id := Launched(t.rows[id], "", ws)]);
    assert Created(ws, "") in es;
  }

  lemma LaunchGoesOn(s: Sys, p: Pid, e: Event, id: Id)
    requires Inv(s) && Doomed(s, id) && id in s.rows
    requires p in s.procs && Launching(s.procs[p].pc) && s.procs[p].pc.id == id
    requires
      var pc := s.procs[p].pc;
      if pc.Start? then e == Created(OtherSession(s.sweep.found[id].ws), "")
      else if pc.Stamp? then e == Clock(1) && pc.ws != s.sweep.found[id].ws
      else e == Fine && (HasSession(pc) ==> pc.ws != s.sweep.found[id].ws)
    ensures Enabled(s, Act(p, e))
    ensures var t, pc := Apply(s, Act(p, e)), s.procs[p].pc;
      && Doomed(t, id) && t.sweep == s.sweep && id in t.rows && p in t.procs
      && (pc.Unclaim? ==> t.rows[id].ws == "")
      && (pc.SetRunning? ==> Misses(t, id))
      && (pc.Start? || pc.SetWs? || pc.Stamp? ==>
            && HasSession(t.procs[p].pc) && t.procs[p].pc.id == id && t.procs[p].pc.ws != s.sweep.found[id].ws
            && Left(t.procs[p].pc) < Left(pc))
  {
    assert Grip(s, s.procs[p].pc);
  }

  /** How far a launch is from the write of running. */
  function Left(pc: Pc): nat {
    if pc.Start? then 4 else if pc.SetWs? then 3 else if pc.Stamp? then 2 else 1
  }

  lemma {:induction false} LaunchCanMiss(s: Sys, p: Pid, id: Id)
    requires Inv(s) && Doomed(s, id) && id in s.rows
    requires p in s.procs && Launching(s.procs[p].pc) && s.procs[p].pc.id == id
    requires HasSession(s.procs[p].pc) ==> s.procs[p].pc.ws != s.sweep.found[id].ws
    ensures CanMiss(s, id)
    decreases Left(s.procs[p].pc)
  {
    var pc := s.procs[p].pc;
    var e :=
      if pc.Start? then Created(OtherSession(s.sweep.found[id].ws), "")
      else if pc.Stamp? then Clock(1) else Fine;
    LaunchGoesOn(s, p, e, id);
    var t := Apply(s, Act(p, e));
    if pc.Unclaim? {
      var acts, u := ResetRowFailsLive(t, id);
    } else if pc.SetRunning? {
      assert Steps(t, [], t) && GoesOn([], id);
    } else {
      ApplyKeeps(s, Act(p, e));
      LaunchCanMiss(t, p, id);
    }
    CanMissLater(s, Act(p, e), id);
  }

  /** The exact condition: in a sweep that has found the row's session dead, the sweep can still
      fail the row with another session, though no command clears its `ws` any more, if and only if
      the row is not steady. */
  lemma CanMissIff(s: Sys, id: Id)
    requires Inv(s) && Doomed(s, id)
    ensures CanMiss(s, id) <==> !Steady(s, id)
  {
    if Steady(s, id) {
      forall acts, t | Steps(s, acts, t) && GoesOn(acts, id) ensures !Misses(t, id) {
        StaysSteady(s, acts, t, id);
      }
    } else if s.rows[id].ws == "" {
      var acts, t := ResetRowFailsLive(s, id);
    } else if s.rows[id].status == Running && s.rows[id].ws != s.sweep.found[id].ws {
      assert Steps(s, [], s) && GoesOn([], id);
    } else {
      var p :| p in s.procs && Launching(s.procs[p].pc) && s.procs[p].pc.id == id
        && !(HasSession(s.procs[p].pc) && s.procs[p].pc.ws == s.sweep.found[id].ws);
      LaunchCanMiss(s, p, id);
    }
  }

  // ---- such a state is reached ----

  lemma NewRowListed() returns (acts: seq<Action>, s: Sys)
    ensures Steps(EMPTY, acts, s) && s.rows == map[1 := NewRow("")] && s.procs == map[1 := Proc([1], Idle)]
    ensures s.sweep.Resting? && s.nextId == 2
  {
    acts, s := Then(EMPTY, [], EMPTY, Insert(NewRow("")));
    acts, s := Then(EMPTY, acts, s, ListPending(1, [1]));
  }

  lemma RowRuns(key: string) returns (acts: seq<Action>, s: Sys)
    requires key != ""
    ensures Steps(EMPTY, acts, s)
    ensures s.rows == map[1 := Launched(NewRow(""), key, "a")]
    ensures s.procs == map[1 := Proc([], Returned(true, false))]
    ensures s.sweep.Resting? && "a" in s.live && s.nextId == 2
  {
    acts, s := NewRowListed();
    var es := LaunchFollows(s.rows, 1, key, "a");
    acts, s := Call(EMPTY, acts, s, 1, 1, es, Returned(true, false), s.rows[1 := Launched(s.rows[1], key, "a")]);
  }

  /** Row 1 runs, its session dies, and a sweep lists both. */
  lemma DeadSessionListed(key: string) returns (acts: seq<Action>, s: Sys)
    requires key != ""
    ensures Steps(EMPTY, acts, s)
    ensures s.rows == map[1 := Launched(NewRow(""), key, "a")]
    ensures s.procs == map[1 := Proc([], Returned(true, false))]
    ensures s.sweep.Sweeping? && s.sweep.todo == {1} && "a" !in s.sweep.alive
    ensures 1 in s.sweep.found && s.sweep.found[1].ws == "a" && s.nextId == 2
  {
    acts, s := RowRuns(key);
    acts, s := Then(EMPTY, acts, s, Die("a"));
    acts, s := Then(EMPTY, acts, s, ReapRows);
    assert s.sweep.found == s.rows;
    acts, s := Then(EMPTY, acts, s, ReapSessions);
  }

  lemma RowFailed(key: string) returns (acts: seq<Action>, s: Sys)
    requires key != ""
    ensures Steps(EMPTY, acts, s)
    ensures s.rows == map[1 := Launched(NewRow(""), key, "a").(status := Failed)]
    ensures s.procs == map[1 := Proc([], Returned(true, false))]
    ensures s.sweep.Sweeping? && s.sweep.todo == {1} && "a" !in s.sweep.alive
    ensures 1 in s.sweep.found && s.sweep.found[1].ws == "a" && s.nextId == 2
  {
    acts, s := DeadSessionListed(key);
    acts, s := Then(EMPTY, acts, s, Finish(1, Failed));
  }

  lemma RowReopened(key: string) returns (acts: seq<Action>, s: Sys)
    requires key != ""
    ensures Steps(EMPTY, acts, s)
    ensures s.rows.Keys == {1} && Claimable(s.rows, 1)
    ensures s.sweep.Sweeping? && s.sweep.todo == {1} && "a" !in s.sweep.alive
    ensures 1 in s.sweep.found && s.sweep.found[1].ws == "a" && s.nextId == 2
  {
    acts, s := RowFailed(key);
    acts, s := Then(EMPTY, acts, s, Reopen(1));
  }

  /** A run from the empty table in which a reopen during a sweep lets the sweep fail a row whose
      new session is alive. */
  lemma ReopenDefeatsSweep(key: string) returns (acts: seq<Action>, s: Sys)
    requires key != ""
    ensures Steps(EMPTY, acts, s)
    ensures Misses(s, 1) && s.rows[1].ws in s.live && Apply(s, Reap(1, false)).rows[1].status == Failed
  {
    var first, more;
    first, s := RowReopened(key);
    var r := s;
    more, s := ResetRowFailsLive(r, 1);
    StepsConcat(EMPTY, first, r, more, s);
    acts := first + more;
  }
}
