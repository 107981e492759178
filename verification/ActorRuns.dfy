/** The reaper, the completion watcher and the planner, as their own modules have them, are runs of
    the interleaved system: with nobody in between, their actions lead to the table their methods
    leave. */
module ActorRuns {
  import opened Tasks
  import opened Dispatch
  import opened Lifecycle
  import opened Races
  import Reaper
  import Completion
  import Planning
  import Persist

  // ---- a sweep ----

  predicate OfReaper(a: Action) {
    a.ReapRows? || a.ReapSessions? || a.Reap? || a.Warn? || a.ReapEnd?
  }

  /** What the sweep does with a row it has listed. */
  function SweepAction(id: Id, row: Task, broke: bool, alive: set<string>, now: Time, threshold: Time, token: string)
    : Action
  {
    if row.ws != "" && row.ws !in alive then Reap(id, broke)
    else if row.ws == "" || row.startedAt == 0 || now - row.startedAt <= threshold
            || Reaper.HasToken(row.judgmentReason, token) || broke then Warn(id, "")
    else Warn(id, token)
  }

  /** The sweep has still to come to the rows `todo`, which are as they were listed in `rows`. */
  ghost predicate Midway(s: Sys, rows: Rows, todo: set<Id>) {
    && s.sweep.Sweeping? && s.sweep.found == RunningRows(rows) && s.sweep.todo == todo <= RunningRows(rows).Keys
    && s.rows.Keys == rows.Keys && forall id | id in todo :: s.rows[id] == rows[id]
  }

  lemma SweepOneIsStep(s: Sys, rows: Rows, todo: set<Id>, id: Id, broke: bool, now: Time, threshold: Time,
                       token: string) returns (a: Action)
    requires Midway(s, rows, todo) && id in todo && token != ""
    ensures OfReaper(a) && Enabled(s, a) && Orderly(s, a)
    ensures var t := Apply(s, a);
      && Midway(t, rows, todo - {id}) && t == s.(rows := t.rows, sweep := t.sweep)
      && t.sweep.alive == s.sweep.alive
      && t.rows == s.rows[id := RowSwept(rows[id], broke, s.sweep.alive, now, threshold, token)]
  {
    a := SweepAction(id, rows[id], broke, s.sweep.alive, now, threshold, token);
    assert s.rows[id := rows[id]] == s.rows;
  }

  function RowSwept(row: Task, broke: bool, alive: set<string>, now: Time, threshold: Time, token: string): Task {
    if broke then row else Reaper.SweptRow(row, alive, now, threshold, token)
  }

  lemma {:induction false} SweepGoesOn(r: Sys, acts: seq<Action>, s: Sys, rows: Rows, todo: set<Id>, broken: set<Id>,
                                       now: Time, threshold: Time, token: string)
    returns (acts': seq<Action>, t: Sys)
    requires Steps(r, acts, s) && (forall a | a in acts :: OfReaper(a)) && Midway(s, rows, todo) && token != ""
    ensures Steps(r, acts', t) && (forall a | a in acts' :: OfReaper(a)) && Midway(t, rows, {})
    ensures t == s.(rows := t.rows, sweep := t.sweep)
    ensures forall id | id in todo :: t.rows[id] ==
              RowSwept(rows[id], id in broken, s.sweep.alive, now, threshold, token)
    ensures forall id | id in rows && id !in todo :: t.rows[id] == s.rows[id]
    decreases |todo|
  {
    if id :| id in todo {
      var a := SweepOneIsStep(s, rows, todo, id, id in broken, now, threshold, token);
      var acts1, u := Then(r, acts, s, a);
      acts', t := SweepGoesOn(r, acts1, u, rows, todo - {id}, broken, now, threshold, token);
    } else {
      forall id ensures id !in todo {}
      assert todo == {};
      acts', t := acts, s;
    }
  }

  lemma SweptButIs(rows: Rows, rows': Rows, broken: set<Id>, alive: set<string>, now: Time, threshold: Time,
                   token: string)
    requires rows'.Keys == rows.Keys
    requires forall id | id in RunningRows(rows) :: rows'[id] ==
               RowSwept(rows[id], id in broken, alive, now, threshold, token)
    requires forall id | id in rows && id !in RunningRows(rows) :: rows'[id] == rows[id]
    ensures rows' == Reaper.SweptBut(rows, broken, alive, now, threshold, token)
  {
    var swept := Reaper.SweptBut(rows, broken, alive, now, threshold, token);
    assert swept.Keys == rows'.Keys;
    forall id | id in rows ensures rows'[id] == swept[id] {
      assert id in RunningRows(rows) <==> rows[id].status == Running;
    }
  }

  /** A whole sweep, with driver errors on the rows `broken`, is a run: its result is the one
      `Reaper.Run` promises. */
  lemma SweepIsRun(s: Sys, broken: set<Id>, now: Time, threshold: Time, token: string)
    returns (acts: seq<Action>, t: Sys)
    requires s.sweep.Resting? && token != ""
    ensures Steps(s, acts, t) && forall a | a in acts :: OfReaper(a)
    ensures t == s.(rows := Reaper.SweptBut(s.rows, broken, s.live, now, threshold, token))
  {
    var u, v;
    assert Steps(s, [], s);
    acts, u := Then(s, [], s, ReapRows);
    acts, u := Then(s, acts, u, ReapSessions);
    acts, v := SweepGoesOn(s, acts, u, s.rows, u.sweep.todo, broken, now, threshold, token);
    acts, t := Then(s, acts, v, ReapEnd);
    SweptButIs(s.rows, t.rows, broken, s.live, now, threshold, token);
  }

  // ---- a look of the watcher ----

  predicate OfWatcher(a: Action, id: Id) {
    (a.WatchDone? || a.WatchFailed? || a.WatchStamp? || a.WatchSkip?) && a.id == id
  }

  lemma JudgeHasReason(look: Completion.Look, explain: string -> string)
    ensures Completion.Judge(look, explain).Fail? ==> Completion.Judge(look, explain).reason != ""
  {
  }

  lemma FailIsRun(s: Sys, id: Id, reason: string, now: Time, rows': Rows) returns (acts: seq<Action>, t: Sys)
    requires id in s.watch && reason != "" && id in s.rows
    requires
      var failed := s.rows[id].(status := Failed, judgmentReason := reason);
      rows' == s.rows[id := failed] || (now != 0 && rows' == s.rows[id := failed.(completedAt := now)])
    ensures Steps(s, acts, t) && forall a | a in acts :: OfWatcher(a, id)
    ensures t == s.(rows := rows', watch := s.watch - {id})
  {
    assert Steps(s, [], s);
    acts, t := Then(s, [], s, WatchFailed(id, reason));
    if t.rows != rows' {
      acts, t := Then(s, acts, t, WatchStamp(id, now));
      assert t.rows == rows';
    }
  }

  lemma VerdictIsRun(s: Sys, id: Id, verdict: Completion.Verdict, now: Time, rows': Rows, faulted: bool)
    returns (acts: seq<Action>, t: Sys)
    requires id in s.watch && (verdict.Fail? ==> verdict.reason != "")
    requires Completion.SettledUnlessFaulted(s.rows, rows', id, verdict, now, faulted)
    ensures Steps(s, acts, t) && forall a | a in acts :: OfWatcher(a, id)
    ensures t == s.(rows := rows', watch := s.watch - {id})
  {
    assert Steps(s, [], s);
    OneRow(s.rows, rows', id);
    if id !in s.rows || rows'[id] == s.rows[id] {
      assert id in s.rows ==> s.rows[id := s.rows[id]] == s.rows;
      acts, t := Then(s, [], s, WatchSkip(id));
    } else {
      if verdict.Finish? {
        acts, t := Then(s, [], s, WatchDone(id, verdict.summary, now));
      } else {
        acts, t := FailIsRun(s, id, verdict.reason, now, rows');
      }
    }
  }

  /** One look at a listed row, whatever the store fails in, is a run: every result that
      `Completion.Watcher.CheckOne` allows is reached. */
  lemma LookIsRun(s: Sys, id: Id, look: Completion.Look, explain: string -> string, now: Time, rows': Rows,
                  faulted: bool)
    returns (acts: seq<Action>, t: Sys)
    requires id in s.watch
    requires Completion.SettledUnlessFaulted(s.rows, rows', id, Completion.Judge(look, explain), now, faulted)
    ensures Steps(s, acts, t) && forall a | a in acts :: OfWatcher(a, id)
    ensures t == s.(rows := rows', watch := s.watch - {id})
  {
    JudgeHasReason(look, explain);
    acts, t := VerdictIsRun(s, id, Completion.Judge(look, explain), now, rows', faulted);
  }

  // ---- a decision of the planner, and a tick ----

  predicate OfPlanner(a: Action) {
    a.Insert? || a.PlanStatus? || a.PlanLabel?
  }

  ghost function TableIn(s: Sys): Persist.Table {
    Persist.Table(s.rows, s.nextId)
  }

  function LabelFor(id: Id, d: Planning.Planned, env: Persist.Env): Action {
    PlanLabel(id, d.verdict, env.redact(d.reason), d.score, d.rank, env.plannedAt)
  }

  /** The label, unless the item is done upstream or the time is missing. */
  lemma LabelIsRun(r: Sys, acts: seq<Action>, s: Sys, id: Id, d: Planning.Planned, env: Persist.Env)
    returns (acts': seq<Action>, t: Sys)
    requires Steps(r, acts, s) && (forall a | a in acts :: OfPlanner(a)) && id in s.rows
    ensures Steps(r, acts', t) && forall a | a in acts' :: OfPlanner(a)
    ensures t == s.(rows := s.rows[id := Persist.WithPlan(s.rows[id], d, env)])
  {
    if d.candidate.done || env.plannedAt == 0 {
      acts', t := acts, s;
      assert s.rows == s.rows[id := s.rows[id]];
    } else {
      acts', t := Then(r, acts, s, LabelFor(id, d, env));
    }
  }

  lemma InsertRowIsRun(s: Sys, row: Task, d: Planning.Planned, env: Persist.Env) returns (acts: seq<Action>, t: Sys)
    requires FreshRow(row)
    ensures Steps(s, acts, t) && forall a | a in acts :: OfPlanner(a)
    ensures t == s.(rows := s.rows[s.nextId := Persist.WithPlan(row, d, env)], nextId := s.nextId + 1)
  {
    var u;
    assert Steps(s, [], s);
    acts, u := Then(s, [], s, Insert(row));
    acts, t := LabelIsRun(s, acts, u, s.nextId, d, env);
    assert t.rows == s.rows[s.nextId := Persist.WithPlan(row, d, env)];
  }

  lemma InsertIsRun(s: Sys, d: Planning.Planned, env: Persist.Env) returns (acts: seq<Action>, t: Sys)
    requires !Persist.ExecutorOwned(d.status)
    ensures Steps(s, acts, t) && forall a | a in acts :: OfPlanner(a)
    ensures t == s.(rows := s.rows[s.nextId := Persist.Fresh(d, env)], nextId := s.nextId + 1)
  {
    acts, t := InsertRowIsRun(s, Inserted(Persist.TaskOf(d), env.now), d, env);
  }

  lemma UpdateIsRun(s: Sys, id: Id, d: Planning.Planned, env: Persist.Env) returns (acts: seq<Action>, t: Sys)
    requires !Persist.ExecutorOwned(d.status) && id in s.rows && Persist.Accepted(d, env)
    ensures Steps(s, acts, t) && forall a | a in acts :: OfPlanner(a)
    ensures t == s.(rows := s.rows[id := Persist.Reevaluated(s.rows[id], d, env)])
  {
    var row := s.rows[id].(status := Persist.StatusFor(d));
    assert Steps(s, [], s);
    if Persist.ExecutorOwned(s.rows[id].status) {
      acts, t := [], s;
      assert s.rows == s.rows[id := s.rows[id]];
    } else {
      var u;
      acts, u := Then(s, [], s, PlanStatus(id, Persist.StatusFor(d)));
      acts, t := LabelIsRun(s, acts, u, id, d, env);
      assert s.rows[id := row][id := Persist.WithPlan(row, d, env)] == s.rows[id := Persist.WithPlan(row, d, env)];
    }
  }

  lemma KnownIsRun(s: Sys, d: Planning.Planned, env: Persist.Env) returns (acts: seq<Action>, t: Sys)
    requires !Persist.ExecutorOwned(d.status) && Persist.Accepted(d, env)
    requires d.candidate.externalId != "" && Persist.Taken(s.rows, d)
    ensures Steps(s, acts, t) && forall a | a in acts :: OfPlanner(a)
    ensures TableIn(t) == Persist.AfterPersist(TableIn(s), d, env) && t == s.(rows := t.rows, nextId := t.nextId)
  {
    acts, t := UpdateIsRun(s, Persist.IdOf(s.rows, d), d, env);
  }

  lemma NewIsRun(s: Sys, d: Planning.Planned, env: Persist.Env) returns (acts: seq<Action>, t: Sys)
    requires !Persist.ExecutorOwned(d.status) && Persist.Accepted(d, env)
    requires d.candidate.externalId == "" || !Persist.Taken(s.rows, d)
    ensures Steps(s, acts, t) && forall a | a in acts :: OfPlanner(a)
    ensures TableIn(t) == Persist.AfterPersist(TableIn(s), d, env) && t == s.(rows := t.rows, nextId := t.nextId)
  {
    acts, t := InsertIsRun(s, d, env);
  }

  /** Writing one decision is a run: it leaves the table `Tick.PersistDecision` promises. */
  lemma DecisionIsRun(s: Sys, d: Planning.Planned, env: Persist.Env) returns (acts: seq<Action>, t: Sys)
    requires !Persist.ExecutorOwned(d.status)
    ensures Steps(s, acts, t) && forall a | a in acts :: OfPlanner(a)
    ensures TableIn(t) == Persist.AfterPersist(TableIn(s), d, env) && t == s.(rows := t.rows, nextId := t.nextId)
  {
    if !Persist.Accepted(d, env) {
      acts, t := [], s;
    } else if d.candidate.externalId != "" && Persist.Taken(s.rows, d) {
      acts, t := KnownIsRun(s, d, env);
    } else {
      acts, t := NewIsRun(s, d, env);
    }
  }

  /** And so is a whole tick. */
  lemma {:induction false} TickIsRun(s: Sys, ds: seq<Planning.Planned>, n: nat, env: Persist.Env)
    returns (acts: seq<Action>, t: Sys)
    requires n <= |ds| && forall i | 0 <= i < |ds| :: !Persist.ExecutorOwned(ds[i].status)
    ensures Steps(s, acts, t) && forall a | a in acts :: OfPlanner(a)
    ensures TableIn(t) == Persist.AfterAll(TableIn(s), ds, n, env) && t == s.(rows := t.rows, nextId := t.nextId)
  {
    if n == 0 {
      acts, t := [], s;
    } else {
      var first, u := TickIsRun(s, ds, n - 1, env);
      var last;
      last, t := DecisionIsRun(u, ds[n - 1], env);
      StepsConcat(s, first, u, last, t);
      acts := first + last;
    }
  }

  // ---- the commands ----

  /** A command that the store does not fail in is one step, Reopen when it leads back to pending and
      Finish otherwise: it leaves the table `Commands.Transition` promises. */
  lemma CommandIsStep(s: Sys, id: Id, target: Status) returns (a: Action)
    requires id in s.rows
    requires
      if s.rows[id].status in {Pending, Running, WaitingHuman} then target in {Done, Failed} else target == Pending
    ensures a == if target == Pending then Reopen(id) else Finish(id, target)
    ensures Enabled(s, a)
    ensures Apply(s, a).rows == s.rows[id := s.rows[id].(
      status := target, ws := if target == Pending then "" else s.rows[id].ws)]
  {
    a := if target == Pending then Reopen(id) else Finish(id, target);
  }
}
