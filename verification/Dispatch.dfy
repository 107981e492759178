/** One dispatcher at work (internal/dispatch/dispatch.go).

    `Step` cuts dispatchOne into its atomic actions, one SQL statement or one call to the
    executor each; module `Lifecycle` interleaves these actions.  The methods of `Dispatcher`
    are dispatchOne and Run themselves, proved to take exactly these steps. */
module Dispatch {
  import opened Tasks
  import Collections

  /** Where a call of dispatchOne stands.  `trouble` is the readiness error of a session that
      was created, empty when it is ready; `started` is the call's first result. */
  datatype Pc =
    | Idle
    | Check(id: Id)
    | Lock(id: Id, key: string)
    | Mkdir(id: Id, key: string)
    | Claim(id: Id, key: string)
    | Start(id: Id, key: string)
    | Unclaim(id: Id, key: string)
    | SetWs(id: Id, key: string, ws: string, trouble: string)
    | Stamp(id: Id, key: string, ws: string, trouble: string)
    | SetRunning(id: Id, key: string, ws: string, trouble: string)
    | Send(id: Id)
    | Release(id: Id, key: string, abort: bool)
    | ReadReason(id: Id, why: string, started: bool)
    | WriteFailed(id: Id, reason: string, started: bool)
    | Returned(started: bool, failed: bool)

  /** What the surroundings answer to one action. */
  datatype Event =
    | Cleared(key: string)
    | Refused(why: string)
    | Fine
    | Broken
    | Clock(t: Time)
    | NotCreated
    | Created(ws: string, trouble: string)

  predicate Accepts(pc: Pc, e: Event) {
    match pc
    case Idle | Returned(_, _) => false
    case Check(_) => e.Cleared? || (e.Refused? && e.why != "")
    case Mkdir(_, _) => e.Fine? || e.Refused?
    case Send(_) => e.Fine? || (e.Refused? && e.why != "")
    case Start(_, _) => e.NotCreated? || (e.Created? && RealSession(e.ws))
    case Stamp(_, _, _, _) => e.Clock? || e.Broken?
    case _ => e.Fine? || e.Broken?
  }

  function Abandon(id: Id, key: string, abort: bool): Pc {
    if key == "" then Returned(false, abort) else Release(id, key, abort)
  }

  /** One action and its effect on the table. */
  function Step(pc: Pc, rows: Rows, e: Event): (Pc, Rows)
    requires Accepts(pc, e)
  {
    match pc
    case Check(id) =>
      if e.Refused? then (ReadReason(id, e.why, false), rows)
      else (if e.key == "" then Mkdir(id, "") else Lock(id, e.key), rows)
    case Lock(id, key) =>
      if e.Broken? || id !in rows then (Returned(false, true), rows)
      else if HeldByOther(rows, id, key) then (Returned(false, false), rows)
      else (Mkdir(id, key), AfterAcquireLock(rows, id, key))
    case Mkdir(id, key) =>
      (if e.Fine? then Claim(id, key) else Abandon(id, key, false), rows)
    case Claim(id, key) =>
      if e.Broken? || id !in rows then (Abandon(id, key, true), rows)
      else if !Claimable(rows, id) then (Abandon(id, key, false), rows)
      else (Start(id, key), AfterClaimWorkspace(rows, id, CLAIM_SENTINEL))
    case Start(id, key) =>
      (if e.NotCreated? then Unclaim(id, key) else SetWs(id, key, e.ws, e.trouble), rows)
    case Unclaim(id, key) =>
      (Abandon(id, key, false), if e.Broken? then rows else AfterSetWorkspace(rows, id, ""))
    case SetWs(id, key, ws, trouble) =>
      if e.Broken? || id !in rows then (Returned(false, true), rows)
      else (Stamp(id, key, ws, trouble), AfterSetWorkspace(rows, id, ws))
    case Stamp(id, key, ws, trouble) =>
      if e.Broken? || e.t == 0 || id !in rows then (Returned(false, true), rows)
      else (SetRunning(id, key, ws, trouble), AfterSetStartedAt(rows, id, e.t))
    case SetRunning(id, key, ws, trouble) =>
      if e.Broken? || id !in rows then (Returned(false, true), rows)
      else (if trouble == "" then Send(id) else ReadReason(id, trouble, true), AfterUpdateStatus(rows, id, Running))
    case Send(id) =>
      (if e.Fine? then Returned(true, false) else ReadReason(id, e.why, true), rows)
    case Release(id, key, abort) =>
      (Returned(false, abort), if e.Broken? then rows else AfterReleaseLock(rows, id))
    case ReadReason(id, why, started) =>
      (WriteFailed(id, if e.Broken? || id !in rows then why else Joined(rows[id].judgmentReason, why), started), rows)
    case WriteFailed(id, reason, started) =>
      (Returned(started, false), if e.Broken? then rows else AfterMarkFailed(rows, id, reason))
  }

  /** An action stays on its own row and adds or drops no row. */
  lemma StepShape(pc: Pc, rows: Rows, e: Event)
    requires Accepts(pc, e)
    ensures var n := Step(pc, rows, e);
      && !pc.Idle? && !pc.Returned?
      && (n.0.Idle? || n.0.Returned? || n.0.id == pc.id)
      && n.1.Keys == rows.Keys
      && forall i | i in rows && i != pc.id :: n.1[i] == rows[i]
  {
  }

  /** Taking the actions `es` one after the other leads from (pc, rows) to (pc', rows'). */
  ghost predicate Follows(pc: Pc, rows: Rows, es: seq<Event>, pc': Pc, rows': Rows)
    decreases |es|
  {
    if es == [] then pc == pc' && rows == rows'
    else
      && Accepts(pc, es[0])
      && var n := Step(pc, rows, es[0]);
         Follows(n.0, n.1, es[1..], pc', rows')
  }

  lemma FollowsCons(pc: Pc, rows: Rows, e: Event, es: seq<Event>, pc': Pc, rows': Rows)
    requires Accepts(pc, e)
    requires Follows(Step(pc, rows, e).0, Step(pc, rows, e).1, es, pc', rows')
    ensures Follows(pc, rows, [e] + es, pc', rows')
  {
    assert ([e] + es)[1..] == es;
  }

  /** The row of the call has been set running. */
  predicate Begun(pc: Pc) {
    || pc.Send?
    || ((pc.ReadReason? || pc.WriteFailed? || pc.Returned?) && pc.started)
  }

  /** An action that sets a row running puts the call where it has begun, and there it stays. */
  lemma RunsOnlyBegun(pc: Pc, rows: Rows, e: Event)
    requires Accepts(pc, e)
    ensures var n := Step(pc, rows, e);
      && (Begun(pc) ==> Begun(n.0))
      && (Begun(n.0) || forall j | j in n.1 && n.1[j].status == Running :: j in rows && rows[j].status == Running)
  {
  }

  /** A call that does not report a start has set nothing running, whatever failed in it. */
  lemma {:induction false} NotStartedRunsNothing(pc: Pc, rows: Rows, es: seq<Event>, failed: bool, rows': Rows)
    requires Follows(pc, rows, es, Returned(false, failed), rows')
    ensures !Begun(pc)
    ensures forall j | j in rows' && rows'[j].status == Running :: j in rows && rows[j].status == Running
    decreases |es|
  {
    if es != [] {
      var n := Step(pc, rows, es[0]);
      RunsOnlyBegun(pc, rows, es[0]);
      NotStartedRunsNothing(n.0, n.1, es[1..], failed, rows');
    }
  }

  lemma NotStartedNewlyRunning(pc: Pc, rows: Rows, es: seq<Event>, failed: bool, rows': Rows)
    requires Follows(pc, rows, es, Returned(false, failed), rows')
    ensures NewlyRunning(rows, rows') == {}
  {
    NotStartedRunsNothing(pc, rows, es, failed, rows');
    forall j ensures j !in NewlyRunning(rows, rows') {
    }
  }

  /** What a call may do to its row: write the five columns of a launch, and leave the status or
      set it to Running or Failed. */
  predicate StatusStep(before: Task, after: Task) {
    && (after.status == before.status || after.status == Running || after.status == Failed)
    && after == before.(status := after.status, judgmentReason := after.judgmentReason, lockKey := after.lockKey,
                        ws := after.ws, startedAt := after.startedAt)
  }

  /** The effect of a call that met no driver error.  Started: the row was free and pending and
      now runs, or has failed, with a real session and a start time.  Otherwise it has failed or
      keeps its status and `ws`, so no placeholder of this call is left behind. */
  predicate CleanOutcome(before: Task, after: Task, started: bool) {
    if started then
      && before.status == Pending && before.ws == ""
      && RealSession(after.ws) && after.startedAt != 0
      && (after.status == Running || after.status == Failed)
    else
      && after.ws == before.ws
      && (after.status == before.status || after.status == Failed)
  }

  /** Only row `id` changed, within its contract. */
  predicate OnlyRow(before: Rows, after: Rows, id: Id) {
    && after.Keys == before.Keys
    && (forall j | j in before && j != id :: after[j] == before[j])
    && (id in before ==> StatusStep(before[id], after[id]))
  }

  /** Row `id` was set running and kept its session and start time; it may have failed since. */
  predicate RunsOrFailed(before: Rows, after: Rows, id: Id)
    requires id in before
  {
    && OnlyRow(before, after, id)
    && (after[id].status == Running || after[id].status == Failed)
    && after[id].ws == before[id].ws && after[id].startedAt == before[id].startedAt
    && after[id].lockKey == before[id].lockKey
  }

  /** resolveCwd, the cwd allowlist and ResolveLockKey, as far as the row decides them. */
  datatype Verdict = Go(key: string) | NoGo(why: string)

  datatype Answer = Okay | Trouble(text: string)

  /** What the surroundings of one call answer: MkdirAll and Chmod of the control directory, the
      executor's Start and Send, and the clock.  Start names a session whenever it created one,
      ready or not. */
  datatype Answers = Answers(controlDir: bool, ws: string, start: Answer, send: Answer, now: Time)

  type Surroundings = a: Answers | a.ws != CLAIM_SENTINEL && a.now != 0 && (a.start.Okay? ==> a.ws != "")
    witness Answers(false, "", Trouble(""), Okay, 1)

  const UNREADY := "dispatch: session did not become ready: "
  const NOT_SENT := "dispatch: Send failed: "

  /** The reason for which a row with a session fails at once, if there is one. */
  function TroubleOf(a: Answers): string {
    if a.start.Trouble? then UNREADY + a.start.text else if a.send.Trouble? then NOT_SENT + a.send.text else ""
  }

  /** The claimed row once its session has been recorded. */
  function WithSession(task: Task, a: Answers): Task {
    Ran(task.(ws := a.ws, startedAt := a.now), a)
  }

  function Ran(task: Task, a: Answers): Task {
    if TroubleOf(a) == "" then task.(status := Running)
    else task.(status := Failed, judgmentReason := Joined(task.judgmentReason, TroubleOf(a)))
  }

  function Unlocked(task: Task, key: string): Task {
    if key == "" then task else task.(lockKey := "")
  }

  datatype RunOneOutcome = Missing | Unread | NotPending | Tried(started: bool, failed: bool)

  class Dispatcher {
    const repo: TaskRepo
    const check: Task -> Verdict

    constructor (repo: TaskRepo, check: Task -> Verdict)
      ensures this.repo == repo && this.check == check
    {
      this.repo, this.check := repo, check;
    }

    /** Records a failure and keeps any earlier judgment reason in front of it. */
    method MarkFailed(id: Id, why: string, ghost started: bool) returns (ghost es: seq<Event>)
      requires why != ""
      modifies repo
      ensures repo.nextId == old(repo.nextId)
      ensures old(repo.faulted) ==> repo.faulted
      ensures Follows(ReadReason(id, why, started), old(repo.rows), es, Returned(started, false), repo.rows)
      ensures repo.rows == old(repo.rows) || exists reason :: repo.rows == AfterMarkFailed(old(repo.rows), id, reason)
      ensures !repo.faulted && id in old(repo.rows) ==>
        var prior := old(repo.rows)[id].judgmentReason;
        repo.rows == old(repo.rows)[id := old(repo.rows)[id].(
          status := Failed, judgmentReason := if prior == "" then why else prior + "; " + why)]
    {
      ghost var rows := repo.rows;
      var cur, err := repo.Get(id);
      ghost var read := if err == Fault then Broken else Fine;
      var reason := why;
      if err == Nil { reason := Joined(cur.judgmentReason, why); }
      err := repo.MarkFailedWithReason(id, reason);
      ghost var wrote := if err == Fault then Broken else Fine;
      FailFollows(rows, id, why, started, read, wrote);
      es := [read] + ([wrote] + []);
    }

    lemma FailFollows(rows: Rows, id: Id, why: string, started: bool, read: Event, wrote: Event)
      requires (read.Fine? || read.Broken?) && (wrote.Fine? || wrote.Broken?)
      ensures
        var reason := if read.Broken? || id !in rows then why else Joined(rows[id].judgmentReason, why);
        var rows' := if wrote.Broken? then rows else AfterMarkFailed(rows, id, reason);
        Follows(ReadReason(id, why, started), rows, [read] + ([wrote] + []), Returned(started, false), rows')
    {
      var reason := if read.Broken? || id !in rows then why else Joined(rows[id].judgmentReason, why);
      var rows' := if wrote.Broken? then rows else AfterMarkFailed(rows, id, reason);
      FollowsCons(WriteFailed(id, reason, started), rows, wrote, [], Returned(started, false), rows');
      FollowsCons(ReadReason(id, why, started), rows, read, [wrote] + [], Returned(started, false), rows');
    }

    /** Gives up a row that was not claimed, or not started. */
    method GiveUp(id: Id, key: string, ghost abort: bool) returns (ghost es: seq<Event>)
      modifies repo
      ensures repo.nextId == old(repo.nextId)
      ensures old(repo.faulted) ==> repo.faulted
      ensures Follows(Abandon(id, key, abort), old(repo.rows), es, Returned(false, abort), repo.rows)
      ensures repo.rows == old(repo.rows) || (key != "" && repo.rows == AfterReleaseLock(old(repo.rows), id))
      ensures !repo.faulted && id in old(repo.rows) ==>
        repo.rows == old(repo.rows)[id := Unlocked(old(repo.rows)[id], key)]
    {
      es := [];
      ghost var rows := repo.rows;
      assert id in rows ==> rows[id := rows[id]] == rows;
      if key != "" {
        var err := repo.ReleaseLock(id);
        ghost var released := if err == Fault then Broken else Fine;
        FollowsCons(Release(id, key, abort), rows, released, [], Returned(false, abort), repo.rows);
        es := [released] + [];
      }
    }

    /** The row is running: deliver the prompt, or fail the row when the session is not ready. */
    method Deliver(id: Id, a: Surroundings) returns (ghost es: seq<Event>)
      modifies repo
      ensures repo.nextId == old(repo.nextId)
      ensures old(repo.faulted) ==> repo.faulted
      ensures Follows(if a.start.Okay? then Send(id) else ReadReason(id, UNREADY + a.start.text, true), old(repo.rows),
                      es, Returned(true, false), repo.rows)
      ensures repo.rows == old(repo.rows) || exists reason :: repo.rows == AfterMarkFailed(old(repo.rows), id, reason)
      ensures !repo.faulted && id in old(repo.rows) && old(repo.rows)[id].status == Running ==>
        repo.rows == old(repo.rows)[id := Ran(old(repo.rows)[id], a)]
    {
      ghost var rows := repo.rows;
      assert id in rows && rows[id].status == Running ==> rows[id := rows[id].(status := Running)] == rows;
      if a.start.Trouble? {
        es := MarkFailed(id, UNREADY + a.start.text, true);
      } else if a.send.Trouble? {
        var undelivered := NOT_SENT + a.send.text;
        ghost var tail := MarkFailed(id, undelivered, true);
        FollowsCons(Send(id), rows, Refused(undelivered), tail, Returned(true, false), repo.rows);
        es := [Refused(undelivered)] + tail;
      } else {
        FollowsCons(Send(id), rows, Fine, [], Returned(true, false), repo.rows);
        es := [Fine] + [];
      }
    }

    /** The readiness error as the step machine carries it. */
    ghost function Unready(a: Answers): string {
      if a.start.Okay? then "" else UNREADY + a.start.text
    }

    method RunStamped(id: Id, ghost key: string, a: Surroundings)
      returns (started: bool, failed: bool, ghost es: seq<Event>)
      modifies repo
      ensures repo.nextId == old(repo.nextId)
      ensures old(repo.faulted) ==> repo.faulted
      ensures Follows(SetRunning(id, key, a.ws, Unready(a)), old(repo.rows), es, Returned(started, failed), repo.rows)
      ensures started == !failed && (failed ==> repo.faulted || id !in repo.rows)
      ensures failed ==> repo.rows == old(repo.rows)
      ensures started ==> id in old(repo.rows) && RunsOrFailed(old(repo.rows), repo.rows, id)
      ensures started && !repo.faulted ==> repo.rows == old(repo.rows)[id := Ran(old(repo.rows)[id], a)]
    {
      ghost var rows := repo.rows;
      var err := repo.UpdateStatus(id, Running);
      if err != Nil {
        FollowsCons(SetRunning(id, key, a.ws, Unready(a)), rows, Broken, [], Returned(false, true), rows);
        return false, true, [Broken] + [];
      }
      ghost var tail := Deliver(id, a);
      FollowsCons(SetRunning(id, key, a.ws, Unready(a)), rows, Fine, tail, Returned(true, false), repo.rows);
      return true, false, [Fine] + tail;
    }

    /** The session exists: record its id, then the start time, then the status, in this order. */
    method RecordSession(id: Id, ghost key: string, a: Surroundings)
      returns (started: bool, failed: bool, ghost es: seq<Event>)
      requires a.ws != ""
      modifies repo
      ensures repo.nextId == old(repo.nextId)
      ensures old(repo.faulted) ==> repo.faulted
      ensures Follows(SetWs(id, key, a.ws, Unready(a)), old(repo.rows), es, Returned(started, failed), repo.rows)
      ensures OnlyRow(old(repo.rows), repo.rows, id)
      ensures id in repo.rows ==> repo.rows[id].lockKey == old(repo.rows)[id].lockKey
      ensures started == !failed && (failed ==> repo.faulted || id !in repo.rows)
      ensures started ==> id in repo.rows && repo.rows[id].ws == a.ws && repo.rows[id].startedAt != 0
      ensures started ==> repo.rows[id].status == Running || repo.rows[id].status == Failed
      ensures started && !repo.faulted ==> repo.rows[id] == WithSession(old(repo.rows)[id], a)
    {
      ghost var rows0 := repo.rows;
      var err := repo.SetWorkspace(id, a.ws);
      if err != Nil {
        FollowsCons(SetWs(id, key, a.ws, Unready(a)), rows0, Broken, [], Returned(false, true), rows0);
        return false, true, [Broken] + [];
      }
      started, failed, es := StampAndRun(id, key, a);
      FollowsCons(SetWs(id, key, a.ws, Unready(a)), rows0, Fine, es, Returned(started, failed), repo.rows);
      es := [Fine] + es;
    }

    method StampAndRun(id: Id, ghost key: string, a: Surroundings)
      returns (started: bool, failed: bool, ghost es: seq<Event>)
      modifies repo
      ensures repo.nextId == old(repo.nextId)
      ensures old(repo.faulted) ==> repo.faulted
      ensures Follows(Stamp(id, key, a.ws, Unready(a)), old(repo.rows), es, Returned(started, failed), repo.rows)
      ensures OnlyRow(old(repo.rows), repo.rows, id)
      ensures id in repo.rows ==>
        repo.rows[id].lockKey == old(repo.rows)[id].lockKey && repo.rows[id].ws == old(repo.rows)[id].ws
      ensures started == !failed && (failed ==> repo.faulted || id !in repo.rows)
      ensures started ==> id in repo.rows && repo.rows[id].startedAt != 0
      ensures started ==> repo.rows[id].status == Running || repo.rows[id].status == Failed
      ensures started && !repo.faulted ==>
        repo.rows[id] == Ran(old(repo.rows)[id].(startedAt := a.now), a)
    {
      ghost var rows := repo.rows;
      var err := repo.SetStartedAt(id, a.now);
      if err != Nil {
        FollowsCons(Stamp(id, key, a.ws, Unready(a)), rows, Broken, [], Returned(false, true), rows);
        return false, true, [Broken] + [];
      }
      started, failed, es := RunStamped(id, key, a);
      FollowsCons(Stamp(id, key, a.ws, Unready(a)), rows, Clock(a.now), es, Returned(started, failed), repo.rows);
      es := [Clock(a.now)] + es;
    }

    /** The row is claimed: start a session, or clear the claim when none was created. */
    method Launch(id: Id, key: string, a: Surroundings) returns (started: bool, failed: bool, ghost es: seq<Event>)
      modifies repo
      ensures repo.nextId == old(repo.nextId)
      ensures old(repo.faulted) ==> repo.faulted
      ensures Follows(Start(id, key), old(repo.rows), es, Returned(started, failed), repo.rows)
      ensures OnlyRow(old(repo.rows), repo.rows, id)
      ensures failed ==> !started && (repo.faulted || id !in repo.rows)
      ensures started ==> id in repo.rows && RealSession(repo.rows[id].ws) && repo.rows[id].startedAt != 0
      ensures started ==> repo.rows[id].status == Running || repo.rows[id].status == Failed
      ensures started ==> repo.rows[id].lockKey == old(repo.rows)[id].lockKey
      ensures id in repo.rows ==>
        repo.rows[id].lockKey in {old(repo.rows)[id].lockKey, Unlocked(old(repo.rows)[id], key).lockKey}
      ensures !started && !failed && id in repo.rows ==> repo.rows[id].status == old(repo.rows)[id].status
      ensures !repo.faulted && id in repo.rows ==>
        && !failed && (started <==> a.ws != "")
        && repo.rows[id] == if started then WithSession(old(repo.rows)[id], a)
                            else Unlocked(old(repo.rows)[id].(ws := ""), key)
    {
      ghost var rows := repo.rows;
      if a.ws == "" {
        started, failed := false, false;
        var err := repo.SetWorkspace(id, "");
        ghost var cleared := if err == Fault then Broken else Fine;
        es := GiveUp(id, key, false);
        FollowsCons(Unclaim(id, key), rows, cleared, es, Returned(false, false), repo.rows);
        FollowsCons(Start(id, key), rows, NotCreated, [cleared] + es, Returned(false, false), repo.rows);
        es := [NotCreated] + ([cleared] + es);
      } else {
        started, failed, es := RecordSession(id, key, a);
        FollowsCons(Start(id, key), rows, Created(a.ws, Unready(a)), es, Returned(started, failed), repo.rows);
        es := [Created(a.ws, Unready(a))] + es;
      }
    }

    /** What a call from the control directory on makes of its row when the driver does not fail. */
    predicate ClaimedOrLeft(before: Task, after: Task, key: string, a: Answers, started: bool) {
      && (started <==> a.controlDir && before.status == Pending && before.ws == "" && a.ws != "")
      && after == if started then WithSession(before, a) else Unlocked(before, key)
    }

    method ClaimRow(id: Id, key: string, a: Surroundings) returns (started: bool, failed: bool, ghost es: seq<Event>)
      requires a.controlDir
      modifies repo
      ensures repo.nextId == old(repo.nextId)
      ensures old(repo.faulted) ==> repo.faulted
      ensures Follows(Claim(id, key), old(repo.rows), es, Returned(started, failed), repo.rows)
      ensures OnlyRow(old(repo.rows), repo.rows, id)
      ensures failed ==> !started && (repo.faulted || id !in repo.rows)
      ensures started ==> id in repo.rows && repo.rows[id].lockKey == old(repo.rows)[id].lockKey
      ensures id in repo.rows ==>
        repo.rows[id].lockKey in {old(repo.rows)[id].lockKey, Unlocked(old(repo.rows)[id], key).lockKey}
      ensures !repo.faulted && id in repo.rows ==>
        !failed && ClaimedOrLeft(old(repo.rows)[id], repo.rows[id], key, a, started)
    {
      ghost var rows := repo.rows;
      var claimed, err := repo.ClaimWorkspace(id, CLAIM_SENTINEL);
      if err != Nil {
        ghost var answer := if err == Fault then Broken else Fine;
        es := GiveUp(id, key, true);
        FollowsCons(Claim(id, key), rows, answer, es, Returned(false, true), repo.rows);
        return false, true, [answer] + es;
      }
      if !claimed {
        started, failed := false, false;
        es := GiveUp(id, key, false);
      } else {
        started, failed, es := Launch(id, key, a);
      }
      FollowsCons(Claim(id, key), rows, Fine, es, Returned(started, failed), repo.rows);
      es := [Fine] + es;
    }

    /** From the lock onwards. */
    method ClaimAndStart(id: Id, key: string, a: Surroundings)
      returns (started: bool, failed: bool, ghost es: seq<Event>)
      modifies repo
      ensures repo.nextId == old(repo.nextId)
      ensures old(repo.faulted) ==> repo.faulted
      ensures Follows(Mkdir(id, key), old(repo.rows), es, Returned(started, failed), repo.rows)
      ensures OnlyRow(old(repo.rows), repo.rows, id)
      ensures failed ==> !started && (repo.faulted || id !in repo.rows)
      ensures started ==> id in repo.rows && repo.rows[id].lockKey == old(repo.rows)[id].lockKey
      ensures id in repo.rows ==>
        repo.rows[id].lockKey in {old(repo.rows)[id].lockKey, Unlocked(old(repo.rows)[id], key).lockKey}
      ensures !repo.faulted && id in repo.rows ==>
        !failed && ClaimedOrLeft(old(repo.rows)[id], repo.rows[id], key, a, started)
    {
      ghost var rows := repo.rows;
      if !a.controlDir {
        started, failed := false, false;
        es := GiveUp(id, key, false);
        FollowsCons(Mkdir(id, key), rows, Refused(""), es, Returned(false, false), repo.rows);
        es := [Refused("")] + es;
      } else {
        started, failed, es := ClaimRow(id, key, a);
        FollowsCons(Mkdir(id, key), rows, Fine, es, Returned(started, failed), repo.rows);
        es := [Fine] + es;
      }
    }

    /** A row that has passed the check under `key`: the lock, and what follows it. */
    method LockAndStart(id: Id, key: string, a: Surroundings)
      returns (started: bool, failed: bool, ghost es: seq<Event>)
      modifies repo
      ensures repo.nextId == old(repo.nextId)
      ensures old(repo.faulted) ==> repo.faulted
      ensures Follows(if key == "" then Mkdir(id, "") else Lock(id, key), old(repo.rows), es,
                      Returned(started, failed), repo.rows)
      ensures OnlyRow(old(repo.rows), repo.rows, id)
      ensures failed ==> !started && (repo.faulted || id !in repo.rows)
      ensures started ==> id in repo.rows
      ensures key != "" && HeldByOther(old(repo.rows), id, key) ==> !started && repo.rows == old(repo.rows)
      ensures key != "" && started ==> repo.rows[id].lockKey == key
      ensures id in repo.rows ==>
        repo.rows[id].lockKey in if key ==
          "" then {old(repo.rows)[id].lockKey} else {old(repo.rows)[id].lockKey, key, ""}
      ensures !repo.faulted && id in repo.rows && !(key != "" && HeldByOther(old(repo.rows), id, key)) ==>
        && !failed
        && ClaimedOrLeft(if key == "" then old(repo.rows)[id] else old(repo.rows)[id].(lockKey := key), repo.rows[id],
                         key, a, started)
    {
      ghost var rows := repo.rows;
      if key == "" {
        started, failed, es := ClaimAndStart(id, key, a);
        return;
      }
      var err := repo.AcquireLock(id, key);
      if err == LockHeld {
        FollowsCons(Lock(id, key), rows, Fine, [], Returned(false, false), rows);
        return false, false, [Fine] + [];
      }
      if err != Nil {
        FollowsCons(Lock(id, key), rows, Broken, [], Returned(false, true), rows);
        return false, true, [Broken] + [];
      }
      started, failed, es := ClaimAndStart(id, key, a);
      FollowsCons(Lock(id, key), rows, Fine, es, Returned(started, failed), repo.rows);
      es := [Fine] + es;
    }

    /** dispatchOne: `task` is the row as the pass listed it, and `a` what the surroundings answer.

        A row that the check refuses fails, with the refusal behind its earlier reason, before
        anything is taken.  A row under a key is left alone while another active row holds the key,
        and carries the key if it is started.  Otherwise it is started exactly if its control
        directory can be made, it is pending and free, and a session comes into being; and then it
        runs, or fails because the session is not ready or the prompt did not reach it. */
    method DispatchOne(id: Id, task: Task, a: Surroundings) returns (started: bool, failed: bool, ghost es: seq<Event>)
      modifies repo
      ensures repo.nextId == old(repo.nextId)
      ensures old(repo.faulted) ==> repo.faulted
      ensures Follows(Check(id), old(repo.rows), es, Returned(started, failed), repo.rows)
      ensures es != []
      ensures es[0] == if check(task).NoGo? then Refused("dispatch: " + check(task).why) else Cleared(check(task).key)
      ensures OnlyRow(old(repo.rows), repo.rows, id)
      ensures failed ==> repo.faulted || id !in repo.rows
      ensures started ==> id in repo.rows
      ensures !started ==> NewlyRunning(old(repo.rows), repo.rows) == {}
      ensures !repo.faulted && id in repo.rows ==> CleanOutcome(old(repo.rows)[id], repo.rows[id], started)
      // refused
      ensures check(task).NoGo? ==> !started && !failed
      ensures check(task).NoGo? && id in repo.rows ==>
        repo.rows[id].ws == old(repo.rows)[id].ws && repo.rows[id].lockKey == old(repo.rows)[id].lockKey
      ensures check(task).NoGo? && !repo.faulted && id in repo.rows ==>
        var before, why := old(repo.rows)[id], "dispatch: " + check(task).why;
        repo.rows[id] == before.(
          status := Failed,
          judgmentReason := if before.judgmentReason == "" then why else before.judgmentReason + "; " + why)
      // under a key
      ensures check(task).Go? && check(task).key != "" && (exists j | j in old(repo.rows) ::
        j != id && old(repo.rows)[j].lockKey == check(task).key && old(repo.rows)[j].status in {Pending, Running}) ==>
          !started && repo.rows == old(repo.rows)
      ensures check(task).Go? && check(task).key != "" && started ==> repo.rows[id].lockKey == check(task).key
      ensures check(task).Go? && id in repo.rows ==>
        && (check(task).key == "" ==> repo.rows[id].lockKey == old(repo.rows)[id].lockKey)
        && repo.rows[id].lockKey in {old(repo.rows)[id].lockKey, check(task).key, ""}
      // otherwise
      ensures check(task).Go? && !repo.faulted && id in repo.rows ==>
        var key, before, after := check(task).key, old(repo.rows)[id], repo.rows[id];
        var held := key != "" && exists j | j in old(repo.rows) ::
          j != id && old(repo.rows)[j].lockKey == key && old(repo.rows)[j].status in {Pending, Running};
        && !failed
        && (started <==> !held && a.controlDir && before.status == Pending && before.ws == "" && a.ws != "")
        && (!held && !started ==> after == before.(lockKey := if key == "" then before.lockKey else ""))
        && (started ==>
              && after.ws == a.ws && after.startedAt == a.now
              && var why :=
                if a.start.Trouble? then "dispatch: session did not become ready: " + a.start.text
                else if a.send.Trouble? then "dispatch: Send failed: " + a.send.text else "";
                 if why == "" then after.status == Running && after.judgmentReason == before.judgmentReason
                 else
                   && after.status == Failed
                   && after.judgmentReason ==
                        if before.judgmentReason == "" then why else before.judgmentReason + "; " + why)
    {
      ghost var rows0 := repo.rows;
      started, failed := false, false;
      match check(task) {
        case NoGo(text) =>
          var why := "dispatch: " + text;
          ghost var tail := MarkFailed(id, why, false);
          FollowsCons(Check(id), rows0, Refused(why), tail, Returned(false, false), repo.rows);
          es := [Refused(why)] + tail;
        case Go(key) =>
          started, failed, es := LockAndStart(id, key, a);
          FollowsCons(Check(id), rows0, Cleared(key), es, Returned(started, failed), repo.rows);
          es := [Cleared(key)] + es;
      }
      if !started { NotStartedNewlyRunning(Check(id), rows0, es, failed, repo.rows); }
    }

    /** What the pass owes to the check: a refused row is never taken, and a row that runs under a
        key has it to itself. */
    ghost predicate Obeyed(before: Rows, after: Rows, tried: seq<Id>, clean: bool) {
      forall id | id in tried && id in before && id in after ::
        if check(before[id]).NoGo? then TurnedDown(before[id], after[id], "dispatch: " + check(before[id]).why, clean)
        else after[id].status == Running ==> HasKeyAlone(after, id, check(before[id]).key)
    }

    /** Why a row that passed the check was not started: no control directory, no session, a claim or a
        session on it already, or its key held by another active row, which was there when the pass
        began or has been started by it. */
    ghost predicate Excused(before: Rows, after: Rows, id: Id, a: Answers)
      requires id in before
    {
      || !a.controlDir || a.ws == "" || before[id].ws != ""
      || (check(before[id]).Go? && check(before[id]).key != "" &&
          (HeldByOther(before, id, check(before[id]).key) || HeldByOther(after, id, check(before[id]).key)))
    }

    /** Every row tried that passed the check was started, with the session it was given, or has an
        excuse. */
    ghost predicate Explained(before: Rows, after: Rows, tried: seq<Id>, begun: set<Id>, answers: Id -> Surroundings) {
      forall id | id in tried && id in before && id in after && check(before[id]).Go? ::
        if id in begun then after[id].ws == answers(id).ws && after[id].startedAt == answers(id).now
        else Excused(before, after, id, answers(id))
    }

    /** A pass has worked through `tried`; `begun` are the calls that reported a start. */
    ghost predicate Passing(before: Rows, after: Rows, tried: seq<Id>, clean: bool, begun: set<Id>,
                            answers: Id -> Surroundings)
    {
      && PassState(before, after, tried, clean, begun)
      && Obeyed(before, after, tried, clean)
      && AllBegun(before, after, tried, clean, begun)
      && (clean ==> Explained(before, after, tried, begun, answers))
    }

    /** A whole pass in which the driver did not fail. */
    ghost predicate Passed(before: Rows, after: Rows, maxParallel: int, answers: Id -> Surroundings, tried: seq<Id>,
                           begun: set<Id>)
    {
      && PassEffect(before, after, tried, true) && (maxParallel <= 0 ==> tried == [])
      && (maxParallel > 0 ==>
            exists ids :: IsListing(before, DispatchQuery(maxParallel), ids) && tried <= ids
              && (tried == ids || |begun| == maxParallel))
      && (forall id | id in begun :: id in tried)
      && Explained(before, after, tried, begun, answers)
    }

    /** The loop of Run: works through the candidates until the budget is spent. */
    method WorkThrough(candidates: seq<Id>, snapshot: Rows, maxParallel: int, answers: Id -> Surroundings)
      returns (failed: bool, ghost tried: seq<Id>, ghost begun: set<Id>)
      requires maxParallel > 0 && snapshot == repo.rows
      requires forall i, j | 0 <= i < j < |candidates| :: candidates[i] != candidates[j]
      requires forall i | 0 <= i < |candidates| ::
        candidates[i] in snapshot && snapshot[candidates[i]].status == Pending
      modifies repo
      ensures repo.nextId == old(repo.nextId)
      ensures old(repo.faulted) ==> repo.faulted
      ensures failed ==> repo.faulted
      ensures tried <= candidates && |begun| <= maxParallel
      ensures !failed ==> tried == candidates || |begun| == maxParallel
      ensures Passing(snapshot, repo.rows, tried, !repo.faulted, begun, answers)
    {
      failed, tried, begun := false, [], {};
      var dispatched, n := 0, 0;
      while n < |candidates| && dispatched < maxParallel && !failed
        invariant 0 <= n <= |candidates| && tried == candidates[..n]
        invariant repo.nextId == old(repo.nextId) && (old(repo.faulted) || failed ==> repo.faulted)
        invariant Passing(snapshot, repo.rows, tried, !repo.faulted, begun, answers)
        invariant |begun| == dispatched <= maxParallel
      {
        var started;
        started, failed, begun := TryNext(candidates, n, snapshot, answers, begun);
        tried, n := candidates[..n + 1], n + 1;
        if started { dispatched := dispatched + 1; }
      }
      assert candidates[..|candidates|] == candidates;
    }

    lemma NextUntried(candidates: seq<Id>, n: nat)
      requires n < |candidates| && forall i, j | 0 <= i < j < |candidates| :: candidates[i] != candidates[j]
      ensures candidates[n] !in candidates[..n] && candidates[..n + 1] == candidates[..n] + [candidates[n]]
    {
    }

    /** dispatch <id>: the named row is tried if it is pending, whatever its plan label. */
    method RunOne(id: Id, a: Surroundings) returns (outcome: RunOneOutcome)
      modifies repo
      ensures repo.nextId == old(repo.nextId)
      ensures old(repo.faulted) ==> repo.faulted
      ensures outcome.Tried? ==> id in old(repo.rows) && old(repo.rows)[id].status == Pending
      ensures !outcome.Tried? ==> repo.rows == old(repo.rows)
      ensures outcome.Missing? ==> id !in repo.rows
      ensures outcome.Unread? ==> repo.faulted
      ensures outcome.NotPending? ==> id in repo.rows && repo.rows[id].status != Pending
      ensures OnlyRow(old(repo.rows), repo.rows, id)
      ensures outcome.Tried? && !outcome.started ==> NewlyRunning(old(repo.rows), repo.rows) == {}
      ensures outcome.Tried? && !repo.faulted ==>
        id in repo.rows && CleanOutcome(old(repo.rows)[id], repo.rows[id], outcome.started)
      ensures outcome.Tried? && check(old(repo.rows)[id]).NoGo? ==>
        var before, why := old(repo.rows)[id], "dispatch: " + check(old(repo.rows)[id]).why;
        && !outcome.started && id in repo.rows
        && repo.rows[id].ws == before.ws && repo.rows[id].lockKey == before.lockKey
        && (!repo.faulted ==>
              && repo.rows[id].status == Failed
              && repo.rows[id].judgmentReason ==
                   if before.judgmentReason == "" then why else before.judgmentReason + "; " + why)
      ensures outcome.Tried? && check(old(repo.rows)[id]).Go? ==>
        var key := check(old(repo.rows)[id]).key;
        var held := key != "" && exists j | j in old(repo.rows) ::
          j != id && old(repo.rows)[j].lockKey == key && old(repo.rows)[j].status in {Pending, Running};
        && (held ==> !outcome.started && repo.rows == old(repo.rows))
        && (key != "" && outcome.started ==> id in repo.rows && repo.rows[id].lockKey == key)
        && (!repo.faulted ==> (outcome.started <==> !held && a.controlDir && old(repo.rows)[id].ws == "" && a.ws != ""))
    {
      var task, err := repo.Get(id);
      if err == NotFound { return Missing; }
      if err != Nil { return Unread; }
      if task.status != Pending { return NotPending; }
      var started, failed, es := DispatchOne(id, task, a);
      return Tried(started, failed);
    }

    /** A call, as far as a pass needs it. */
    method TryRow(id: Id, task: Task, a: Surroundings) returns (started: bool, broke: bool)
      modifies repo
      ensures repo.nextId == old(repo.nextId) && (old(repo.faulted) ==> repo.faulted)
      ensures broke ==> repo.faulted || id !in repo.rows
      ensures OnlyRow(old(repo.rows), repo.rows, id)
      ensures !started ==> NewlyRunning(old(repo.rows), repo.rows) == {}
      ensures id in old(repo.rows) ==>
        && (!repo.faulted ==> CleanOutcome(old(repo.rows)[id], repo.rows[id], started))
        && ObeysCheck(check(task), old(repo.rows), repo.rows, id, !repo.faulted, started)
        && (!started && old(repo.rows)[id].status != Running ==> repo.rows[id].status != Running)
        && (!repo.faulted && check(task).Go? ==>
              Accounted(old(repo.rows), repo.rows, id, check(task).key, started, a))
    {
      ghost var rows := repo.rows;
      ghost var es;
      started, broke, es := DispatchOne(id, task, a);
      assert !started && id in rows && rows[id].status != Running ==> id !in NewlyRunning(rows, repo.rows);
    }

    method TryNext(candidates: seq<Id>, n: nat, snapshot: Rows, answers: Id -> Surroundings, ghost begun: set<Id>)
      returns (started: bool, broke: bool, ghost begun': set<Id>)
      requires n < |candidates| && candidates[n] in snapshot && snapshot[candidates[n]].status == Pending
      requires forall i, j | 0 <= i < j < |candidates| :: candidates[i] != candidates[j]
      requires Passing(snapshot, repo.rows, candidates[..n], !repo.faulted, begun, answers)
      modifies repo
      ensures repo.nextId == old(repo.nextId)
      ensures old(repo.faulted) ==> repo.faulted
      ensures broke ==> repo.faulted
      ensures Passing(snapshot, repo.rows, candidates[..n + 1], !repo.faulted, begun', answers)
      ensures |begun'| == |begun| + if started then 1 else 0
    {
      var id := candidates[n];
      ghost var before, wasClean := repo.rows, !repo.faulted;
      NextUntried(candidates, n);
      assert before.Keys == snapshot.Keys && before[id] == snapshot[id] && id !in begun;
      started, broke := TryRow(id, snapshot[id], answers(id));
      PassingNext(snapshot, before, repo.rows, candidates[..n], id, wasClean, !repo.faulted, started, begun, answers);
      begun' := if started then begun + {id} else begun;
    }

    lemma PassingNext(start: Rows, before: Rows, after: Rows, tried: seq<Id>, id: Id, wasClean: bool, clean: bool,
                      started: bool, begun: set<Id>, answers: Id -> Surroundings)
      requires Passing(start, before, tried, wasClean, begun, answers)
      requires id in start && id !in tried && start[id].status == Pending && OnlyRow(before, after, id)
      requires clean ==> wasClean && CleanOutcome(before[id], after[id], started)
      requires ObeysCheck(check(start[id]), before, after, id, clean, started)
      requires clean && check(start[id]).Go? ==>
        Accounted(before, after, id, check(start[id]).key, started, answers(id))
      requires !started ==> NewlyRunning(before, after) == {} && after[id].status != Running
      ensures Passing(start, after, tried + [id], clean, if started then begun + {id} else begun, answers)
    {
      PassGoesOn(start, before, after, tried, id, wasClean, clean, started, begun);
      ObeyedNext(start, before, after, tried, id, wasClean, clean, started);
      forall i | i in begun ensures i != id && before[i] == after[i] {}
      if clean { ExplainedNext(start, before, after, tried, id, started, begun, answers); }
    }

    /** A clean call on a row that passed the check: started with its session, or not for a reason. */
    ghost predicate Accounted(before: Rows, after: Rows, id: Id, key: string, started: bool, a: Answers)
      requires id in before && id in after
    {
      if started then after[id].ws == a.ws && after[id].startedAt == a.now
      else !a.controlDir || a.ws == "" || before[id].status != Pending || before[id].ws != ""
           || (key != "" && HeldByOther(before, id, key))
    }

    lemma ExplainedNext(start: Rows, before: Rows, after: Rows, tried: seq<Id>, id: Id, started: bool, begun: set<Id>,
                        answers: Id -> Surroundings)
      requires start.Keys == before.Keys && id in start && id !in tried && id !in begun && before[id] == start[id]
      requires start[id].status == Pending && OnlyRow(before, after, id)
      requires forall i | i in start && i !in tried :: before[i] == start[i]
      requires Explained(start, before, tried, begun, answers)
      requires check(start[id]).Go? ==> Accounted(before, after, id, check(start[id]).key, started, answers(id))
      requires check(start[id]).Go? && check(start[id]).key != "" && HeldByOther(before, id, check(start[id]).key) ==>
        after == before
      ensures Explained(start, after, tried + [id], if started then begun + {id} else begun, answers)
    {
      forall i | i in tried && i in start && check(start[i]).Go? && i !in begun
        ensures Excused(start, after, i, answers(i))
      {
        HeldStays(start, before, after, i, id, check(start[i]).key);
      }
      if check(start[id]).Go? && !started {
        HeldEarlier(start, before, after, id, check(start[id]).key);
      }
    }

    /** Who holds a key while a pass goes on held it when it began, or holds it still. */
    lemma HeldStays(start: Rows, before: Rows, after: Rows, i: Id, id: Id, key: string)
      requires OnlyRow(before, after, id) && id in start && id in before && before[id] == start[id]
      ensures HeldByOther(before, i, key) ==> HeldByOther(start, i, key) || HeldByOther(after, i, key)
    {
      if HeldByOther(before, i, key) {
        var j :| j in before && j != i && before[j].lockKey == key && Active(before[j].status);
        assert j != id ==> after[j] == before[j];
      }
    }

    lemma HeldEarlier(start: Rows, before: Rows, after: Rows, id: Id, key: string)
      requires OnlyRow(before, after, id)
      ensures HeldByOther(before, id, key) ==> HeldByOther(after, id, key)
    {
      if HeldByOther(before, id, key) {
        var j :| j in before && j != id && before[j].lockKey == key && Active(before[j].status);
        assert after[j] == before[j];
      }
    }

    /** What one call does, as far as the next lemma needs it. */
    ghost predicate ObeysCheck(verdict: Verdict, before: Rows, after: Rows, id: Id, clean: bool, started: bool)
      requires id in before && id in after
    {
      if verdict.NoGo? then
        && !started
        && (before[id].status != Running ==> TurnedDown(before[id], after[id], "dispatch: " + verdict.why, clean))
      else
        && after[id].lockKey in {before[id].lockKey, verdict.key, ""}
        && (verdict.key == "" ==> after[id].lockKey == before[id].lockKey)
        && (verdict.key != "" && HeldByOther(before, id, verdict.key) ==> after == before)
        && (started ==> HasKeyAlone(after, id, verdict.key))
    }

    lemma ObeyedNext(start: Rows, before: Rows, after: Rows, tried: seq<Id>, id: Id, wasClean: bool, clean: bool,
                     started: bool)
      requires start.Keys == before.Keys && id in start && id !in tried && before[id] == start[id]
      requires start[id].status == Pending && (clean ==> wasClean)
      requires OnlyRow(before, after, id) && Obeyed(start, before, tried, wasClean)
      requires ObeysCheck(check(start[id]), before, after, id, clean, started)
      requires !started ==> after[id].status != Running
      ensures Obeyed(start, after, tried + [id], clean)
    {
      forall i | i in tried && i in start && check(start[i]).Go? && check(start[i]).key != "" &&
        after[i].status == Running
        ensures HasKeyAlone(after, i, check(start[i]).key)
      {
        assert before[i] == after[i];
      }
    }

    lemma ObeyedReads(before: Rows, after: Rows, tried: seq<Id>, clean: bool)
      requires Obeyed(before, after, tried, clean)
      requires forall id | id in tried :: id in before && id in after
      ensures forall id | id in tried && check(before[id]).NoGo? ::
        && after[id].ws == before[id].ws && after[id].lockKey == before[id].lockKey && after[id].status != Running
        && (clean ==>
              && after[id].status == Failed
              && after[id].judgmentReason ==
                   if before[id].judgmentReason == "" then "dispatch: " + check(before[id]).why
                   else before[id].judgmentReason + "; " + ("dispatch: " + check(before[id]).why))
      ensures forall id | id in tried && after[id].status == Running ::
        check(before[id]).Go? && (check(before[id]).key != "" ==> after[id].lockKey == check(before[id]).key)
      ensures forall id, j | id in tried && after[id].status == Running && check(before[id]).key != "" &&
        j in after && j != id && after[j].lockKey == after[id].lockKey ::
          after[j].status != Pending && after[j].status != Running
    {
    }

    /** One pass over the pending queue.  `tried` is the part of the listing it worked through, and
        `answers` what the surroundings answer to the call on each row. */
    method Run(maxParallel: int, answers: Id -> Surroundings)
      returns (failed: bool, ghost tried: seq<Id>, ghost begun: set<Id>)
      modifies repo
      ensures repo.nextId == old(repo.nextId)
      ensures old(repo.faulted) ==> repo.faulted
      ensures failed ==> repo.faulted
      ensures maxParallel <= 0 ==> tried == [] && repo.rows == old(repo.rows)
      ensures maxParallel > 0 && !failed ==>
        exists ids :: IsListing(old(repo.rows), ListFilter([Pending], maxParallel * 4, true), ids) && tried <= ids
          && (tried == ids || |begun| == maxParallel)
      ensures forall i, j | 0 <= i < j < |tried| :: tried[i] != tried[j]
      ensures PassEffect(old(repo.rows), repo.rows, tried, !repo.faulted)
      ensures !failed && !repo.faulted ==> Passed(old(repo.rows), repo.rows, maxParallel, answers, tried, begun)
      ensures maxParallel > 0 ==> |NewlyRunning(old(repo.rows), repo.rows)| <= maxParallel
      ensures forall id | id in tried ::
        id in old(repo.rows) && old(repo.rows)[id].status == Pending && old(repo.rows)[id].planLabel in {"", "ready"}
      ensures forall id | id in begun ::
        id in tried && (!repo.faulted ==> old(repo.rows)[id].ws == "" && repo.rows[id].ws != "")
      ensures forall id | id in tried && check(old(repo.rows)[id]).NoGo? ::
        && repo.rows[id].ws == old(repo.rows)[id].ws && repo.rows[id].lockKey == old(repo.rows)[id].lockKey
        && repo.rows[id].status != Running
        && (!repo.faulted ==>
              && repo.rows[id].status == Failed
              && repo.rows[id].judgmentReason ==
                   if old(repo.rows)[id].judgmentReason == "" then "dispatch: " + check(old(repo.rows)[id]).why
                   else old(repo.rows)[id].judgmentReason + "; " + ("dispatch: " + check(old(repo.rows)[id]).why))
      ensures !repo.faulted ==> forall id | id in tried && check(old(repo.rows)[id]).Go? && id in begun ::
        repo.rows[id].ws == answers(id).ws && repo.rows[id].startedAt == answers(id).now
      ensures !repo.faulted ==> forall id | id in tried && check(old(repo.rows)[id]).Go? && id !in begun ::
        || !answers(id).controlDir || answers(id).ws == "" || old(repo.rows)[id].ws != ""
        || (check(old(repo.rows)[id]).key != "" && exists j | j in repo.rows && j != id ::
              (repo.rows[j].lockKey == check(old(repo.rows)[id]).key && repo.rows[j].status in {Pending, Running}) ||
              (old(repo.rows)[j].lockKey == check(old(repo.rows)[id]).key &&
                old(repo.rows)[j].status in {Pending, Running}))
      ensures forall id | id in tried && repo.rows[id].status == Running ::
        check(old(repo.rows)[id]).Go? && (check(old(repo.rows)[id]).key != "" ==>
                                            repo.rows[id].lockKey == check(old(repo.rows)[id]).key)
      ensures forall id, j | id in tried && repo.rows[id].status == Running && check(old(repo.rows)[id]).key != "" &&
        j in repo.rows && j != id && repo.rows[j].lockKey == repo.rows[id].lockKey ::
          repo.rows[j].status != Pending && repo.rows[j].status != Running
    {
      failed, tried, begun := false, [], {};
      if maxParallel <= 0 { return; }
      var snapshot := repo.rows;
      var candidates, err := repo.List(ListFilter([Pending], maxParallel * 4, true));
      if err != Nil {
        assert NewlyRunning(snapshot, repo.rows) == {};
        return true, [], {};
      }
      ListingDistinct(snapshot, DispatchQuery(maxParallel), candidates);
      failed, tried, begun := WorkThrough(candidates, snapshot, maxParallel, answers);
      TriedListed(snapshot, maxParallel, candidates, tried);
      ObeyedReads(snapshot, repo.rows, tried, !repo.faulted);
      if !repo.faulted { ExplainedReads(snapshot, repo.rows, tried, begun, answers); }
      Collections.SubsetSize(NewlyRunning(snapshot, repo.rows), begun);
    }

    lemma ExplainedReads(before: Rows, after: Rows, tried: seq<Id>, begun: set<Id>, answers: Id -> Surroundings)
      requires Explained(before, after, tried, begun, answers) && after.Keys == before.Keys
      requires forall id | id in tried :: id in before
      ensures forall id | id in tried && check(before[id]).Go? && id in begun ::
        after[id].ws == answers(id).ws && after[id].startedAt == answers(id).now
      ensures forall id | id in tried && check(before[id]).Go? && id !in begun ::
        || !answers(id).controlDir || answers(id).ws == "" || before[id].ws != ""
        || (check(before[id]).key != "" && exists j | j in after && j != id ::
              (after[j].lockKey == check(before[id]).key && after[j].status in {Pending, Running}) ||
              (before[j].lockKey == check(before[id]).key && before[j].status in {Pending, Running}))
    {
      forall id | id in tried && check(before[id]).Go? && id !in begun
        ensures Excused(before, after, id, answers(id))
      {
      }
    }

    lemma TriedListed(rows: Rows, maxParallel: int, ids: seq<Id>, tried: seq<Id>)
      requires maxParallel > 0 && IsListing(rows, DispatchQuery(maxParallel), ids) && tried <= ids
      ensures forall id | id in tried :: id in rows && Dispatchable(rows[id])
      ensures forall i, j | 0 <= i < j < |tried| :: tried[i] != tried[j]
    {
      ListingDistinct(rows, DispatchQuery(maxParallel), ids);
      forall id | id in tried ensures id in rows && Dispatchable(rows[id]) {
        assert id in ids;
      }
    }
  }

  /** The rows that `begun` names were tried, and got a session. */
  ghost predicate AllBegun(before: Rows, after: Rows, tried: seq<Id>, clean: bool, begun: set<Id>) {
    forall id | id in begun ::
      id in tried && id in before && id in after && (clean ==> before[id].ws == "" && after[id].ws != "")
  }

  /** The row carries its key, if it has one, and no other pending or running row does. */
  predicate HasKeyAlone(rows: Rows, id: Id, key: string)
    requires id in rows
  {
    key != "" ==> rows[id].lockKey == key && !HeldByOther(rows, id, key)
  }

  /** A row the check refused: nothing is taken, and unless the driver failed the refusal is recorded. */
  predicate TurnedDown(before: Task, after: Task, why: string, clean: bool) {
    && after.ws == before.ws && after.lockKey == before.lockKey && after.status != Running
    && (clean ==> after.status == Failed && after.judgmentReason == Joined(before.judgmentReason, why))
  }

  /** The effect of a pass: rows it tried were dispatchable and moved at most to Running or
      Failed, the others are untouched. */
  ghost predicate PassEffect(before: Rows, after: Rows, tried: seq<Id>, clean: bool) {
    && after.Keys == before.Keys
    && (forall id | id in tried :: id in before && Dispatchable(before[id]) && StatusStep(before[id], after[id]))
    && (forall id | id in before && id !in tried :: after[id] == before[id])
    && (clean ==> forall id | id in tried :: PassOutcome(before[id], after[id]))
  }

  /** A pass has worked through `tried`; `begun` are the calls that reported a start. */
  ghost predicate PassState(before: Rows, after: Rows, tried: seq<Id>, clean: bool, begun: set<Id>) {
    && after.Keys == before.Keys
    && (forall id | id in tried :: id in before && StatusStep(before[id], after[id]))
    && (forall id | id in before && id !in tried :: after[id] == before[id])
    && (clean ==> forall id | id in tried :: PassOutcome(before[id], after[id]))
    && NewlyRunning(before, after) <= begun
  }

  lemma PassGoesOn(start: Rows, before: Rows, after: Rows, tried: seq<Id>, id: Id, wasClean: bool, clean: bool,
                   started: bool, begun: set<Id>)
    requires PassState(start, before, tried, wasClean, begun)
    requires id in start && id !in tried && start[id].status == Pending
    requires OnlyRow(before, after, id)
    requires clean ==> wasClean && CleanOutcome(before[id], after[id], started)
    requires !started ==> NewlyRunning(before, after) == {}
    ensures PassState(start, after, tried + [id], clean, if started then begun + {id} else begun)
  {
    forall j | j in NewlyRunning(start, after)
      ensures j in if started then begun + {id} else begun
    {
      assert j == id ==> before[j] == start[j];
      assert j !in NewlyRunning(before, after) ==> j in NewlyRunning(start, before);
    }
  }

  predicate Dispatchable(task: Task) {
    task.status == Pending && (task.planLabel == DISPATCHABLE_PLAN_LABEL || task.planLabel == "")
  }

  function DispatchQuery(maxParallel: int): ListFilter
    requires maxParallel > 0
  {
    ListFilter([Pending], maxParallel * 4, true)
  }

  /** After a pass without driver errors a row it tried runs or has failed with a real session,
      has failed, or is pending with its `ws` as before. */
  predicate PassOutcome(before: Task, after: Task) {
    || CleanOutcome(before, after, true)
    || (after.ws == before.ws && (after.status == Failed || after.status == Pending))
  }

  function NewlyRunning(before: Rows, after: Rows): set<Id> {
    set id | id in after && after[id].status == Running && !(id in before && before[id].status == Running)
  }
}
