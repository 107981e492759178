/** Everyone who writes the tasks table, interleaved: any number of dispatchers, the planner, the
    completion watcher, the reaper and the human commands.  Each action is one statement, except
    the human commands, which are one action each.  A dispatcher may crash between any two of its
    actions, and a sweep may break off at any point.

    `Apply` gives the effect of an action, `Enabled` says when the code can take it, and
    `Orderly` is what is asked of the surroundings: reopen and clean leave alone the rows on which
    a call holds a claim, and clean leaves alone running rows. */
module Lifecycle {
  import opened Tasks
  import opened Dispatch
  import Reaper

  type Pid = int

  /** A dispatcher process: the rest of its listing and where its current call stands. */
  datatype Proc = Proc(todo: seq<Id>, pc: Pc)

  /** A reaper sweep: nothing yet, running rows listed, or sessions listed as well.  `born` are
      the sessions that existed when `alive` was read; `clean` says no statement failed. */
  datatype Sweep =
    | Resting
    | Listed(found: Rows)
    | Sweeping(found: Rows, todo: set<Id>, alive: set<string>, born: set<string>, clean: bool)

  /** `starts` and `resets` count, per row, the sessions created for it and the commands that
      cleared its `ws`. */
  datatype Sys = Sys(
    rows: Rows,
    nextId: Id,
    procs: map<Pid, Proc>,
    live: set<string>,
    born: set<string>,
    starts: map<Id, nat>,
    resets: map<Id, nat>,
    watch: set<Id>,
    sweep: Sweep)

  datatype Action =
    // dispatchers; a listing, or the one row of dispatch <id>
    | ListPending(p: Pid, ids: seq<Id>)
    | Pick(p: Pid)
    | Act(p: Pid, e: Event)
    | EndPass(p: Pid)
    | Crash(p: Pid)
    // sessions
    | Die(ws: string)
    // completion watcher
    | WatchList
    | WatchDone(id: Id, summary: string, t: Time)
    | WatchFailed(id: Id, reason: string)
    | WatchStamp(id: Id, t: Time)
    | WatchSkip(id: Id)
    // reaper
    | ReapRows
    | ReapSessions
    | Reap(id: Id, broken: bool)
    | Warn(id: Id, note: string)
    | ReapEnd
    | ReapAbort
    // planner, with whatever it last read of the row
    | Insert(task: Task)
    | PlanStatus(id: Id, status: Status)
    | PlanLabel(id: Id, verdict: string, reason: string, score: real, rank: nat, t: Time)
    // human commands and escalation
    | Finish(id: Id, status: Status)
    | Reopen(id: Id)
    | Clean(id: Id)
    | Remove(id: Id)
    | Escalate(id: Id, reason: string)
    | Expire(id: Id)

  function Count(m: map<Id, nat>, id: Id): nat {
    if id in m then m[id] else 0
  }

  predicate At(pc: Pc, id: Id) {
    !pc.Idle? && !pc.Returned? && pc.id == id
  }

  predicate Ready(pc: Pc) {
    pc.Idle? || (pc.Returned? && !pc.failed)
  }

  predicate PlannerStatus(status: Status) {
    status == Pending || status == WaitingHuman || status == Skipped
  }

  predicate FreshRow(t: Task) {
    t.ws == "" && t.lockKey == "" && t.startedAt == 0 && (PlannerStatus(t.status) || t.status == Done)
  }

  predicate Enabled(s: Sys, a: Action) {
    match a
    case ListPending(p, ids) =>
      && (p in s.procs ==> s.procs[p] == Proc([], Idle))
      && (forall i | 0 <= i < |ids| :: ids[i] in s.rows && s.rows[ids[i]].status == Pending)
      && (forall i, j | 0 <= i < j < |ids| :: ids[i] != ids[j])
    case Pick(p) => p in s.procs && Ready(s.procs[p].pc) && s.procs[p].todo != []
    case Act(p, e) => p in s.procs && Accepts(s.procs[p].pc, e)
    case EndPass(p) => p in s.procs && (s.procs[p].pc.Idle? || s.procs[p].pc.Returned?)
    case Crash(p) => p in s.procs
    case Die(ws) => ws in s.live
    case WatchList => s.watch == {}
    case WatchDone(id, _, t) => id in s.watch && t != 0
    case WatchFailed(id, reason) => id in s.watch && reason != ""
    case WatchStamp(_, t) => t != 0
    case WatchSkip(id) => id in s.watch
    case ReapRows => s.sweep.Resting?
    case ReapSessions => s.sweep.Listed?
    case Reap(id, _) => s.sweep.Sweeping? && id in s.sweep.todo && id in s.sweep.found &&
      s.sweep.found[id].ws != "" && s.sweep.found[id].ws !in s.sweep.alive
    case Warn(id, note) => s.sweep.Sweeping? && id in s.sweep.todo && id in s.sweep.found &&
      (s.sweep.found[id].ws == "" || s.sweep.found[id].ws in s.sweep.alive)
    case ReapEnd => s.sweep.Sweeping? && s.sweep.todo == {}
    case ReapAbort => !s.sweep.Resting?
    case Insert(task) => FreshRow(task)
    case PlanStatus(id, status) => PlannerStatus(status) || status == Done
    case PlanLabel(_, _, _, _, _, t) => t != 0
    case Finish(id, status) =>
      id in s.rows && (status == Done || status == Failed) && AllowedTransition(s.rows[id].status, status)
    case Reopen(id) => id in s.rows && AllowedTransition(s.rows[id].status, Pending)
    case Clean(id) => id in s.rows && s.rows[id].ws != "" && s.rows[id].ws !in s.live
    case Remove(id) => id in s.rows
    case Escalate(id, reason) => id in s.rows && (s.rows[id].status == Running || s.rows[id].status == WaitingHuman)
    case Expire(id) => id in s.rows && s.rows[id].status == WaitingHuman
  }

  /** The call holds the claim it won on its row. */
  predicate PastClaim(pc: Pc) {
    || pc.Start? || pc.Unclaim? || pc.SetWs? || pc.Stamp? || pc.SetRunning? || pc.Send?
    || (pc.ReadReason? && pc.started) || (pc.WriteFailed? && pc.started)
  }

  /** Some call is past its claim on the row. */
  predicate Claimed(s: Sys, id: Id) {
    exists p | p in s.procs :: PastClaim(s.procs[p].pc) && s.procs[p].pc.id == id
  }

  predicate Orderly(s: Sys, a: Action) {
    match a
    case Reopen(id) => !Claimed(s, id)
    case Clean(id) => !Claimed(s, id) && (id in s.rows ==> s.rows[id].status != Running)
    case _ => true
  }

  function RunningRows(rows: Rows): Rows {
    map id | id in rows && rows[id].status == Running :: rows[id]
  }

  function Bump(m: map<Id, nat>, id: Id): map<Id, nat> {
    m[id := Count(m, id) + 1]
  }

  function SetPc(s: Sys, p: Pid, pc: Pc): map<Pid, Proc>
    requires p in s.procs
  {
    s.procs[p := s.procs[p].(pc := pc)]
  }

  function Apply(s: Sys, a: Action): Sys
    requires Enabled(s, a)
  {
    match a
    case ListPending(p, ids) => s.(procs := s.procs[p := Proc(ids, Idle)])
    case Pick(p) =>
      var todo := s.procs[p].todo;
      s.(procs := s.procs[p := Proc(todo[1..], Check(todo[0]))])
    case Act(p, e) =>
      var pc := s.procs[p].pc;
      var n := Step(pc, s.rows, e);
      var s' := s.(procs := SetPc(s, p, n.0), rows := n.1);
      if e.Created? then s'.(starts := Bump(s.starts, pc.id), live := s.live + {e.ws}, born := s.born + {e.ws})
      else s'
    case EndPass(p) => s.(procs := s.procs[p := Proc([], Idle)])
    case Crash(p) => s.(procs := s.procs - {p})
    case Die(ws) => s.(live := s.live - {ws})
    case WatchList => s.(watch := RunningRows(s.rows).Keys)
    case WatchDone(id, summary, t) => s.(watch := s.watch - {id}, rows := AfterMarkDone(s.rows, id, summary, t))
    case WatchFailed(id, reason) => s.(watch := s.watch - {id}, rows := AfterMarkFailed(s.rows, id, reason))
    case WatchStamp(id, t) => s.(rows := AfterSetCompletedAt(s.rows, id, t))
    case WatchSkip(id) => s.(watch := s.watch - {id})
    case ReapRows => s.(sweep := Listed(RunningRows(s.rows)))
    case ReapSessions => s.(sweep := Sweeping(s.sweep.found, s.sweep.found.Keys, s.live, s.born, true))
    case Reap(id, broken) =>
      s.(sweep := s.sweep.(todo := s.sweep.todo - {id}, clean := s.sweep.clean && !broken),
         rows := if broken then s.rows else AfterMarkFailedFromRunning(s.rows, id, Reaper.FAILED_REASON))
    case Warn(id, note) =>
      s.(sweep := s.sweep.(todo := s.sweep.todo - {id}),
         rows := if note == "" then s.rows else AfterAppendReason(s.rows, id, note))
    case ReapEnd | ReapAbort => s.(sweep := Resting)
    case Insert(task) => s.(rows := s.rows[s.nextId := task], nextId := s.nextId + 1)
    case PlanStatus(id, status) => s.(rows := AfterUpdateStatus(s.rows, id, status))
    case PlanLabel(id, verdict, reason, score, rank, t) =>
      s.(rows := AfterSetPlan(s.rows, id, verdict, reason, score, rank, t))
    case Finish(id, status) => s.(rows := AfterUpdateStatus(s.rows, id, status))
    case Reopen(id) =>
      s.(rows := AfterSetWorkspace(AfterUpdateStatus(s.rows, id, Pending), id, ""), resets := Bump(s.resets, id))
    case Clean(id) => s.(rows := AfterSetWorkspace(s.rows, id, ""), resets := Bump(s.resets, id))
    case Remove(id) => s.(rows := s.rows - {id})
    case Escalate(id, reason) =>
      s.(rows := s.rows[id := s.rows[id].(status := WaitingHuman, judgmentReason := reason)])
    case Expire(id) => s.(rows := AfterUpdateStatus(s.rows, id, Failed))
  }

  /** The actions `as` lead from `s` to `t`, each of them enabled and orderly when taken. */
  ghost predicate Steps(s: Sys, acts: seq<Action>, t: Sys)
    decreases |acts|
  {
    if acts == [] then s == t
    else Enabled(s, acts[0]) && Orderly(s, acts[0]) && Steps(Apply(s, acts[0]), acts[1..], t)
  }

  const EMPTY := Sys(map[], 1, map[], {}, {}, map[], map[], {}, Resting)

  // ---- the invariant ----

  /** Between a won claim and the write of `running`. */
  predicate Launching(pc: Pc) {
    pc.Start? || pc.Unclaim? || pc.SetWs? || pc.Stamp? || pc.SetRunning?
  }

  predicate HasSession(pc: Pc) {
    pc.SetWs? || pc.Stamp? || pc.SetRunning?
  }

  /** What a call past its claim knows about its row. */
  predicate Grip(s: Sys, pc: Pc) {
    PastClaim(pc) ==>
      && pc.id < s.nextId
      && (HasSession(pc) ==> RealSession(pc.ws) && pc.ws in s.born)
      && ((pc.Start? || pc.Unclaim?) ==> Count(s.starts, pc.id) <= Count(s.resets, pc.id))
      && (pc.id in s.rows ==> Grasps(pc, s.rows[pc.id]))
  }

  /** And about the row itself, while it exists. */
  predicate Grasps(pc: Pc, row: Task) {
    && row.ws != ""
    && ((pc.Start? || pc.Unclaim? || pc.SetWs?) ==> row.ws == CLAIM_SENTINEL && row.status != Running)
    && ((pc.Stamp? || pc.SetRunning?) ==> row.ws == pc.ws && row.status != Running)
    && (pc.SetRunning? ==> row.startedAt != 0)
  }

  ghost predicate ClaimsExclusive(s: Sys) {
    forall p, q | p in s.procs && q in s.procs && PastClaim(s.procs[p].pc) && PastClaim(s.procs[q].pc)
      && s.procs[p].pc.id == s.procs[q].pc.id :: p == q
  }

  predicate RunningIsReal(row: Task, born: set<string>) {
    row.status == Running ==> RealSession(row.ws) && row.ws in born && row.startedAt != 0
  }

  ghost predicate RowsSound(s: Sys) {
    && (forall id | id in s.rows :: id < s.nextId && RunningIsReal(s.rows[id], s.born))
    && (forall id | id in s.rows && s.rows[id].ws == "" :: Count(s.starts, id) <= Count(s.resets, id))
    && (forall id | s.nextId <= id :: Count(s.starts, id) == 0)
    && (forall id :: Count(s.starts, id) <= Count(s.resets, id) + 1)
  }

  ghost predicate Inv(s: Sys) {
    && ClaimsExclusive(s)
    && (forall p | p in s.procs :: Grip(s, s.procs[p].pc))
    && RowsSound(s)
  }

  /** Row `id` changed in a way that no claim notices. */
  predicate Harmless(before: Task, after: Task, born: set<string>) {
    && after.ws == before.ws && after.startedAt == before.startedAt
    && (after.status == Running ==> before.status == Running)
  }

  /** Actions that leave the processes and the counters alone and touch rows only harmlessly. */
  lemma HarmlessKeeps(s: Sys, t: Sys)
    requires Inv(s)
    requires t.procs == s.procs && t.born == s.born && t.nextId == s.nextId
    requires t.starts == s.starts && t.resets == s.resets
    requires t.rows.Keys == s.rows.Keys
    requires forall id | id in s.rows :: Harmless(s.rows[id], t.rows[id], s.born)
    ensures Inv(t)
  {
    forall p | p in t.procs ensures Grip(t, t.procs[p].pc) {
      assert Grip(s, s.procs[p].pc);
    }
  }

  /** Actions that change one process, to a place not past a claim, and no row. */
  lemma ProcKeeps(s: Sys, t: Sys, p: Pid)
    requires Inv(s)
    requires t == s.(procs := t.procs)
    requires forall q | q in t.procs && q != p :: q in s.procs && t.procs[q] == s.procs[q]
    requires p in t.procs ==> !PastClaim(t.procs[p].pc)
    ensures Inv(t)
  {
    forall q | q in t.procs ensures Grip(t, t.procs[q].pc) {
      if q != p { assert Grip(s, s.procs[q].pc); }
    }
  }

  /** Human commands that touch a row no call has claimed. */
  lemma NotClaimed(s: Sys, t: Sys, id: Id)
    requires Inv(s) && !Claimed(s, id) && t.procs == s.procs && t.born == s.born && t.starts == s.starts
    requires t.nextId == s.nextId && t.rows.Keys == s.rows.Keys
    requires forall j | j in s.rows && j != id :: t.rows[j] == s.rows[j]
    requires forall j | j != id :: Count(t.resets, j) == Count(s.resets, j)
    ensures forall p | p in t.procs :: Grip(t, t.procs[p].pc)
  {
    forall p | p in t.procs ensures Grip(t, t.procs[p].pc) {
      assert Grip(s, s.procs[p].pc);
    }
  }

  lemma ResetRowSound(s: Sys, t: Sys, id: Id, row: Task)
    requires RowsSound(s) && id in s.rows && t.rows == s.rows[id := row] && row.status != Running
    requires t.nextId == s.nextId && t.born == s.born && t.starts == s.starts && t.resets == Bump(s.resets, id)
    ensures RowsSound(t)
  {
    assert forall j | j != id :: Count(t.resets, j) == Count(s.resets, j);
  }

  lemma ReopenKeeps(s: Sys, id: Id)
    requires Inv(s) && Enabled(s, Reopen(id)) && Orderly(s, Reopen(id))
    ensures Inv(Apply(s, Reopen(id)))
  {
    var t := Apply(s, Reopen(id));
    assert t.rows == s.rows[id := s.rows[id].(status := Pending, ws := "")];
    NotClaimed(s, t, id);
    ResetRowSound(s, t, id, t.rows[id]);
  }

  lemma CleanKeeps(s: Sys, id: Id)
    requires Inv(s) && Enabled(s, Clean(id)) && Orderly(s, Clean(id))
    ensures Inv(Apply(s, Clean(id)))
  {
    var t := Apply(s, Clean(id));
    NotClaimed(s, t, id);
    ResetRowSound(s, t, id, t.rows[id]);
  }

  lemma RemoveKeeps(s: Sys, id: Id)
    requires Inv(s) && Enabled(s, Remove(id)) && Orderly(s, Remove(id))
    ensures Inv(Apply(s, Remove(id)))
  {
    var t := Apply(s, Remove(id));
    forall p | p in t.procs ensures Grip(t, t.procs[p].pc) {
      assert Grip(s, s.procs[p].pc);
    }
  }

  lemma InsertKeeps(s: Sys, task: Task)
    requires Inv(s) && FreshRow(task)
    ensures Inv(Apply(s, Insert(task)))
  {
    var t := Apply(s, Insert(task));
    forall p | p in t.procs ensures Grip(t, t.procs[p].pc) {
      assert Grip(s, s.procs[p].pc);
    }
  }

  /** An action of a dispatcher that is not past a claim and does not win one. */
  lemma EarlyActKeeps(s: Sys, p: Pid, e: Event)
    requires Inv(s) && Enabled(s, Act(p, e))
    requires !PastClaim(s.procs[p].pc)
    requires !(s.procs[p].pc.Claim? && e.Fine? && Claimable(s.rows, s.procs[p].pc.id))
    ensures Inv(Apply(s, Act(p, e)))
  {
    var n := Step(s.procs[p].pc, s.rows, e);
    var mid := s.(rows := n.1);
    EarlyStepHarmless(s, p, e);
    HarmlessKeeps(s, mid);
    ProcKeeps(mid, Apply(s, Act(p, e)), p);
  }

  lemma EarlyStepHarmless(s: Sys, p: Pid, e: Event)
    requires p in s.procs && Accepts(s.procs[p].pc, e) && !PastClaim(s.procs[p].pc)
    requires !(s.procs[p].pc.Claim? && e.Fine? && Claimable(s.rows, s.procs[p].pc.id))
    ensures var n := Step(s.procs[p].pc, s.rows, e);
      && n.1.Keys == s.rows.Keys && !PastClaim(n.0) && !e.Created?
      && forall id | id in s.rows :: Harmless(s.rows[id], n.1[id], s.born)
  {
  }

  /** Winning the claim: the row's `ws` was empty, so nobody else is past a claim on it. */
  lemma ClaimKeeps(s: Sys, p: Pid)
    requires Inv(s) && Enabled(s, Act(p, Fine))
    requires s.procs[p].pc.Claim? && Claimable(s.rows, s.procs[p].pc.id)
    ensures Inv(Apply(s, Act(p, Fine)))
  {
    var t := Apply(s, Act(p, Fine));
    forall q | q in t.procs
      ensures Grip(t, t.procs[q].pc)
      ensures q != p && PastClaim(t.procs[q].pc) ==> t.procs[q].pc.id != s.procs[p].pc.id
    {
      assert Grip(s, s.procs[q].pc);
    }
  }

  /** A call past its claim that changes only its own row disturbs no other call. */
  lemma OthersKeep(s: Sys, t: Sys, p: Pid)
    requires Inv(s) && p in s.procs && PastClaim(s.procs[p].pc)
    requires t.procs.Keys == s.procs.Keys && forall q | q in s.procs && q != p :: t.procs[q] == s.procs[q]
    requires PastClaim(t.procs[p].pc) ==> t.procs[p].pc.id == s.procs[p].pc.id
    requires t.rows.Keys == s.rows.Keys && s.born <= t.born && t.resets == s.resets && t.nextId == s.nextId
    requires forall id | id in s.rows && id != s.procs[p].pc.id :: t.rows[id] == s.rows[id]
    requires forall id | id != s.procs[p].pc.id :: Count(t.starts, id) == Count(s.starts, id)
    ensures ClaimsExclusive(t)
    ensures forall q | q in t.procs && q != p :: Grip(t, t.procs[q].pc)
  {
    forall q | q in t.procs && q != p ensures Grip(t, t.procs[q].pc) {
      assert Grip(s, s.procs[q].pc);
    }
  }

  /** An action of a dispatcher past its claim. */
  lemma LateActKeeps(s: Sys, p: Pid, e: Event)
    requires Inv(s) && Enabled(s, Act(p, e))
    requires PastClaim(s.procs[p].pc)
    ensures Inv(Apply(s, Act(p, e)))
  {
    var t := Apply(s, Act(p, e));
    StepShape(s.procs[p].pc, s.rows, e);
    OthersKeep(s, t, p);
    LateActOwn(s, p, e);
  }

  lemma LateActOwn(s: Sys, p: Pid, e: Event)
    requires Inv(s) && Enabled(s, Act(p, e))
    requires PastClaim(s.procs[p].pc)
    ensures var t := Apply(s, Act(p, e)); RowsSound(t) && Grip(t, t.procs[p].pc)
  {
    var t := Apply(s, Act(p, e));
    var id := s.procs[p].pc.id;
    assert Grip(s, s.procs[p].pc);
    if id in s.rows {
      assert s.rows == s.rows[id := s.rows[id]];
      assert id < s.nextId && RunningIsReal(s.rows[id], s.born);
      LateRow(s, p, e);
      OneRowSound(s, t, id, t.rows[id]);
    } else {
      LateGone(s, p, e);
    }
  }

  /** An action on a row that is gone changes no row. */
  lemma GoneStep(pc: Pc, rows: Rows, e: Event)
    requires Accepts(pc, e) && pc.id !in rows
    ensures var n := Step(pc, rows, e);
      && n.1 == rows
      && (PastClaim(n.0) ==> n.0.id == pc.id)
      && (PastClaim(pc) && (n.0.Start? || n.0.Unclaim?) ==> pc.Start? && n.0.Unclaim?)
      && (HasSession(n.0) ==> pc.Start? && e.Created? && n.0.ws == e.ws)
  {
  }

  /** A call whose row has been removed. */
  lemma LateGone(s: Sys, p: Pid, e: Event)
    requires Inv(s) && Enabled(s, Act(p, e))
    requires PastClaim(s.procs[p].pc) && s.procs[p].pc.id !in s.rows
    ensures var t := Apply(s, Act(p, e)); RowsSound(t) && Grip(t, t.procs[p].pc)
  {
    var t, id := Apply(s, Act(p, e)), s.procs[p].pc.id;
    assert Grip(s, s.procs[p].pc);
    GoneStep(s.procs[p].pc, s.rows, e);
    assert forall j | j != id :: Count(t.starts, j) == Count(s.starts, j);
  }

  /** The claimed row after the action. */
  lemma LateRow(s: Sys, p: Pid, e: Event)
    requires Inv(s) && Enabled(s, Act(p, e))
    requires PastClaim(s.procs[p].pc) && Grip(s, s.procs[p].pc) && s.procs[p].pc.id in s.rows
    requires RunningIsReal(s.rows[s.procs[p].pc.id], s.born)
    ensures var t, id := Apply(s, Act(p, e)), s.procs[p].pc.id;
      && id in t.rows && t.rows == s.rows[id := t.rows[id]]
      && Grip(t, t.procs[p].pc)
      && RunningIsReal(t.rows[id], t.born)
      && (t.rows[id].ws == "" ==> Count(t.starts, id) <= Count(t.resets, id))
      && Count(t.starts, id) <= Count(t.resets, id) + 1
      && (t.starts == s.starts || t.starts == Bump(s.starts, id))
  {
    var t, id := Apply(s, Act(p, e)), s.procs[p].pc.id;
    var n := Step(s.procs[p].pc, s.rows, e);
    assert t.rows == n.1 && t.procs[p].pc == n.0;
    assert n.1 == s.rows[id := n.1[id]];
  }

  lemma OneRowSound(s: Sys, t: Sys, id: Id, row: Task)
    requires RowsSound(s) && id in s.rows && t.rows == s.rows[id := row]
    requires t.nextId == s.nextId && t.resets == s.resets && s.born <= t.born
    requires t.starts == s.starts || t.starts == Bump(s.starts, id)
    requires RunningIsReal(row, t.born)
    requires row.ws == "" ==> Count(t.starts, id) <= Count(t.resets, id)
    requires Count(t.starts, id) <= Count(t.resets, id) + 1
    ensures RowsSound(t)
  {
    assert forall j | j != id :: Count(t.starts, j) == Count(s.starts, j);
    assert id < s.nextId;
  }

  /** The watcher and the reaper. */
  lemma WatchAndReapKeep(s: Sys, a: Action)
    requires Inv(s) && Enabled(s, a)
    requires a.WatchList? || a.WatchDone? || a.WatchFailed? || a.WatchStamp? || a.WatchSkip? || a.ReapRows? ||
      a.ReapSessions?
      || a.Reap? || a.Warn? || a.ReapEnd? || a.ReapAbort? || a.Die?
    ensures Inv(Apply(s, a))
  {
    HarmlessKeeps(s, Apply(s, a));
  }

  /** The planner's updates, and the commands that only move the status. */
  lemma StatusWritesKeep(s: Sys, a: Action)
    requires Inv(s) && Enabled(s, a) && Orderly(s, a)
    requires a.PlanStatus? || a.PlanLabel? || a.Finish? || a.Escalate? || a.Expire?
    ensures Inv(Apply(s, a))
  {
    HarmlessKeeps(s, Apply(s, a));
  }

  lemma ApplyKeeps(s: Sys, a: Action)
    requires Inv(s) && Enabled(s, a) && Orderly(s, a)
    ensures Inv(Apply(s, a))
  {
    if a.Act? {
      var pc := s.procs[a.p].pc;
      if PastClaim(pc) { LateActKeeps(s, a.p, a.e); }
      else if pc.Claim? && a.e.Fine? && Claimable(s.rows, pc.id) { ClaimKeeps(s, a.p); }
      else { EarlyActKeeps(s, a.p, a.e); }
    } else if a.ListPending? || a.Pick? || a.EndPass? || a.Crash? {
      ProcKeeps(s, Apply(s, a), a.p);
    } else if a.Reopen? || a.Clean? || a.Remove? {
      if a.Reopen? { ReopenKeeps(s, a.id); } else if a.Clean? { CleanKeeps(s, a.id); } else { RemoveKeeps(s, a.id); }
    } else if a.Insert? {
      InsertKeeps(s, a.task);
    } else if a.PlanStatus? || a.PlanLabel? || a.Finish? || a.Escalate? || a.Expire? {
      StatusWritesKeep(s, a);
    } else {
      WatchAndReapKeep(s, a);
    }
  }

  lemma {:induction false} InvAlways(s: Sys, acts: seq<Action>, t: Sys)
    requires Inv(s) && Steps(s, acts, t)
    ensures Inv(t)
    decreases |acts|
  {
    if acts != [] {
      ApplyKeeps(s, acts[0]);
      InvAlways(Apply(s, acts[0]), acts[1..], t);
    }
  }

  // ---- what follows for every run from the empty table ----

  /** At most one dispatcher is past a claim on a row, whoever crashes and wherever. */
  lemma ClaimExclusion(acts: seq<Action>, s: Sys, p: Pid, q: Pid)
    requires Steps(EMPTY, acts, s)
    requires p in s.procs && q in s.procs && PastClaim(s.procs[p].pc) && PastClaim(s.procs[q].pc)
    requires s.procs[p].pc.id == s.procs[q].pc.id
    ensures p == q
  {
    InvAlways(EMPTY, acts, s);
  }

  /** A running row has its start time and the id of a session that was really created. */
  lemma RunningHasSession(acts: seq<Action>, s: Sys, id: Id)
    requires Steps(EMPTY, acts, s) && id in s.rows && s.rows[id].status == Running
    ensures s.rows[id].startedAt != 0
    ensures s.rows[id].ws != "" && s.rows[id].ws != CLAIM_SENTINEL && s.rows[id].ws in s.born
  {
    InvAlways(EMPTY, acts, s);
  }

  /** The condition on clean is exact: clearing the `ws` of a row keeps every running row real
      if and only if the row is not running. */
  lemma CleanSparesRunning(s: Sys, id: Id)
    requires Inv(s) && Enabled(s, Clean(id))
    ensures (forall j | j in s.rows :: RunningIsReal(AfterSetWorkspace(s.rows, id, "")[j], s.born))
      <==> s.rows[id].status != Running
  {
    var after := AfterSetWorkspace(s.rows, id, "");
    assert id in s.rows && after[id].ws == "";
    forall j | j in s.rows && j != id ensures RunningIsReal(after[j], s.born) {
      assert after[j] == s.rows[j];
    }
  }

  /** How many sessions the run creates for the row. */
  ghost function SessionsCreated(s: Sys, acts: seq<Action>, id: Id): nat
    decreases |acts|
  {
    if acts == [] || !Enabled(s, acts[0]) || !Orderly(s, acts[0]) then 0
    else
      var a := acts[0];
      (if a.Act? && a.e.Created? && s.procs[a.p].pc.id == id then 1 else 0)
        + SessionsCreated(Apply(s, a), acts[1..], id)
  }

  /** How many of the actions clear the row's `ws` from outside. */
  function ResetsIn(acts: seq<Action>, id: Id): nat {
    if acts == [] then 0
    else (if acts[0] == Reopen(id) || acts[0] == Clean(id) then 1 else 0) + ResetsIn(acts[1..], id)
  }

  lemma CountersStep(s: Sys, a: Action, id: Id)
    requires Enabled(s, a) && Orderly(s, a)
    ensures Count(Apply(s, a).starts, id) ==
      Count(s.starts, id) + if a.Act? && a.e.Created? && s.procs[a.p].pc.id == id then 1 else 0
    ensures Count(Apply(s, a).resets, id) == Count(s.resets, id) + if a == Reopen(id) || a == Clean(id) then 1 else 0
  {
    assert a.Act? && a.e.Created? ==> s.procs[a.p].pc.Start?;
  }

  lemma {:induction false} CountersCount(s: Sys, acts: seq<Action>, t: Sys, id: Id)
    requires Steps(s, acts, t)
    ensures Count(t.starts, id) == Count(s.starts, id) + SessionsCreated(s, acts, id)
    ensures Count(t.resets, id) == Count(s.resets, id) + ResetsIn(acts, id)
    decreases |acts|
  {
    if acts != [] {
      CountersStep(s, acts[0], id);
      CountersCount(Apply(s, acts[0]), acts[1..], t, id);
    }
  }

  /** A row gets at most one session, plus one for every command that cleared its `ws`; in
      particular at most one in a run without reopen, promote and clean. */
  lemma SessionsBounded(acts: seq<Action>, s: Sys, id: Id)
    requires Steps(EMPTY, acts, s)
    ensures SessionsCreated(EMPTY, acts, id) <= 1 + ResetsIn(acts, id)
  {
    InvAlways(EMPTY, acts, s);
    CountersCount(EMPTY, acts, s, id);
  }

  // ---- dispatchOne is a run of this system ----

  function ActsOf(p: Pid, es: seq<Event>): seq<Action> {
    if es == [] then [] else [Act(p, es[0])] + ActsOf(p, es[1..])
  }

  /** The steps a call of dispatchOne takes, taken here with nobody in between, end with the
      same table. */
  lemma {:induction false} CallIsRun(s: Sys, p: Pid, es: seq<Event>, pc': Pc, rows': Rows) returns (t: Sys)
    requires p in s.procs && Follows(s.procs[p].pc, s.rows, es, pc', rows')
    ensures Steps(s, ActsOf(p, es), t) && t.rows == rows'
    ensures t.procs == s.procs[p := s.procs[p].(pc := pc')]
    ensures t.sweep == s.sweep && t.watch == s.watch && t.nextId == s.nextId && s.live <= t.live
    ensures forall e | e in es && e.Created? :: e.ws in t.live
    decreases |es|
  {
    if es == [] {
      t := s;
    } else {
      var a := Act(p, es[0]);
      var n := Step(s.procs[p].pc, s.rows, es[0]);
      t := CallIsRun(Apply(s, a), p, es[1..], pc', rows');
      assert ActsOf(p, es)[1..] == ActsOf(p, es[1..]);
    }
  }
}
