/** The tasks table and its repository (internal/store/tasks.go).

    The table is a map from row id to row.  Every SQL statement of the repository is
    one function on that map, so that the same definition serves the methods of
    `TaskRepo` and the interleaved system of module `Lifecycle`. */
module Tasks {
  type Id = int

  /** Milliseconds; 0 is the zero time, stored as NULL. */
  type Time = nat

  datatype Status = Pending | Running | Done | Failed | Skipped | WaitingHuman

  /** One row.  The empty string stands for NULL, as does rank 0. */
  datatype Task = Task(
    source: string,
    externalId: string,
    externalUrl: string,
    title: string,
    body: string,
    notes: string,
    status: Status,
    judgmentReason: string,
    priority: int,
    lockKey: string,
    ws: string,
    resultSummary: string,
    planLabel: string,
    planReason: string,
    planScore: real,
    planRank: nat,
    plannedAt: Time,
    createdAt: Time,
    startedAt: Time,
    completedAt: Time)

  type Rows = map<Id, Task>

  /** `Fault` is any driver error: the statement had no effect. */
  datatype Error =
    | Nil
    | NotFound
    | DuplicateExternalId
    | LockHeld
    | InvalidTransition
    | SourceRequired
    | TitleRequired
    | LockKeyRequired
    | ReasonRequired
    | WsRequired
    | StartedAtRequired
    | CompletedAtRequired
    | PlannedAtRequired
    | NotesNotJson
    | FilterTooLarge
    | Fault

  /** The placeholder `ws` a dispatcher writes while it claims a row. */
  const CLAIM_SENTINEL := "__dispatching__"

  const JUDGMENT_REASON_SEPARATOR := "; "

  const DISPATCHABLE_PLAN_LABEL := "ready"

  /** A session id as an executor hands it out: never empty, never the claim placeholder. */
  predicate RealSession(ws: string) {
    ws != "" && ws != CLAIM_SENTINEL
  }

  /** The statuses in which a row counts as holding its lock key. */
  predicate Active(status: Status) {
    status == Pending || status == Running
  }

  predicate HeldByOther(rows: Rows, id: Id, key: string) {
    exists j | j in rows :: j != id && rows[j].lockKey == key && Active(rows[j].status)
  }

  /** Joins a note onto a judgment reason the way the SQL CASE expressions do. */
  function Joined(reason: string, note: string): string {
    if reason == "" then note else reason + JUDGMENT_REASON_SEPARATOR + note
  }

  // ---- the statements ----

  function AfterAcquireLock(rows: Rows, id: Id, key: string): Rows {
    if id in rows && !HeldByOther(rows, id, key) then rows[id := rows[id].(lockKey := key)] else rows
  }

  function AfterReleaseLock(rows: Rows, id: Id): Rows {
    if id in rows then rows[id := rows[id].(lockKey := "")] else rows
  }

  predicate Claimable(rows: Rows, id: Id) {
    id in rows && rows[id].status == Pending && rows[id].ws == ""
  }

  function AfterClaimWorkspace(rows: Rows, id: Id, ws: string): Rows {
    if Claimable(rows, id) then rows[id := rows[id].(ws := ws)] else rows
  }

  function AfterSetWorkspace(rows: Rows, id: Id, ws: string): Rows {
    if id in rows then rows[id := rows[id].(ws := ws)] else rows
  }

  function AfterSetStartedAt(rows: Rows, id: Id, t: Time): Rows {
    if id in rows then rows[id := rows[id].(startedAt := t)] else rows
  }

  function AfterSetCompletedAt(rows: Rows, id: Id, t: Time): Rows {
    if id in rows then rows[id := rows[id].(completedAt := t)] else rows
  }

  function AfterUpdateStatus(rows: Rows, id: Id, status: Status): Rows {
    if id in rows then rows[id := rows[id].(status := status)] else rows
  }

  function AfterMarkFailed(rows: Rows, id: Id, reason: string): Rows {
    if id in rows then rows[id := rows[id].(status := Failed, judgmentReason := reason)] else rows
  }

  function AfterMarkFailedFromRunning(rows: Rows, id: Id, reason: string): Rows {
    if id in rows && rows[id].status == Running then
      rows[id := rows[id].(status := Failed, judgmentReason := Joined(rows[id].judgmentReason, reason))]
    else rows
  }

  function AfterAppendReason(rows: Rows, id: Id, note: string): Rows {
    if id in rows then rows[id := rows[id].(judgmentReason := Joined(rows[id].judgmentReason, note))] else rows
  }

  function AfterMarkDone(rows: Rows, id: Id, summary: string, t: Time): Rows {
    if id in rows then rows[id := rows[id].(status := Done, resultSummary := summary, completedAt := t)] else rows
  }

  function AfterSetPlan(rows: Rows, id: Id, verdict: string, reason: string, score: real, rank: nat, t: Time): Rows {
    if id in rows then
      rows[id := rows[id].(planLabel := verdict, planReason := reason, planScore := score, planRank := rank,
        plannedAt := t)]
    else rows
  }

  /** The moves the CLI verbs done, fail, promote and reopen may make. */
  predicate AllowedTransition(from: Status, to: Status) {
    match from
    case Pending | Running | WaitingHuman => to == Done || to == Failed
    case Done | Failed | Skipped => to == Pending
  }

  // ---- natural keys ----

  predicate HasKey(task: Task, source: string, externalId: string) {
    task.source == source && task.externalId == externalId
  }

  predicate KeyTaken(rows: Rows, source: string, externalId: string) {
    exists id | id in rows :: HasKey(rows[id], source, externalId)
  }

  /** The partial unique index over (source, external_id). */
  ghost predicate UniqueKeys(rows: Rows) {
    forall i, j | i in rows && j in rows && rows[i].externalId != "" &&
      HasKey(rows[i], rows[j].source, rows[j].externalId) :: i == j
  }

  // ---- listing ----

  /** An empty list, limit 0 and time 0 mean no constraint. */
  datatype ListFilter = ListFilter(
    statuses: seq<Status>,
    limit: nat,
    dispatchableOnly: bool,
    sources: seq<string> := [],
    createdAfter: Time := 0)

  const MAX_FILTER_VALUES := 64

  predicate Matches(f: ListFilter, task: Task) {
    && (f.statuses == [] || task.status in f.statuses)
    && (f.sources == [] || task.source in f.sources)
    && (f.createdAfter != 0 ==> task.createdAt > f.createdAfter)
    && (f.dispatchableOnly ==> task.planLabel == DISPATCHABLE_PLAN_LABEL || task.planLabel == "")
  }

  predicate BeforeByPriority(a: Id, ta: Task, b: Id, tb: Task) {
    || ta.priority > tb.priority
    || (ta.priority == tb.priority && ta.createdAt < tb.createdAt)
    || (ta.priority == tb.priority && ta.createdAt == tb.createdAt && a < b)
  }

  /** ORDER BY: with `dispatchableOnly`, ranked rows by rank and then the unranked ones. */
  predicate Before(f: ListFilter, a: Id, ta: Task, b: Id, tb: Task) {
    if !f.dispatchableOnly || ta.planRank == tb.planRank then BeforeByPriority(a, ta, b, tb)
    else if ta.planRank == 0 then false
    else tb.planRank == 0 || ta.planRank < tb.planRank
  }

  /** `ids` is the answer to the query `f`: matching rows in order, cut off at the limit. */
  ghost predicate IsListing(rows: Rows, f: ListFilter, ids: seq<Id>) {
    && (f.limit > 0 ==> |ids| <= f.limit)
    && (forall i | 0 <= i < |ids| :: ids[i] in rows && Matches(f, rows[ids[i]]))
    && (forall i, j | 0 <= i < j < |ids| :: Before(f, ids[i], rows[ids[i]], ids[j], rows[ids[j]]))
    && (forall id | id in rows && Matches(f, rows[id]) && id !in ids ::
          && f.limit > 0 && |ids| == f.limit
          && forall i | 0 <= i < |ids| :: Before(f, ids[i], rows[ids[i]], id, rows[id]))
  }

  /** The query read column by column: which rows it lists, which it may leave out, and the order,
      `rank` being the planner's. */
  lemma ListingReads(rows: Rows, f: ListFilter, ids: seq<Id>)
    requires IsListing(rows, f, ids)
    ensures forall id | id in ids ::
      && id in rows
      && (f.statuses == [] || rows[id].status in f.statuses) && (f.sources == [] || rows[id].source in f.sources)
      && (f.createdAfter == 0 || rows[id].createdAt > f.createdAfter)
      && (!f.dispatchableOnly || rows[id].planLabel in {"", "ready"})
    ensures forall id | id in rows && id !in ids ::
      || (f.limit > 0 && |ids| == f.limit)
      || (f.statuses != [] && rows[id].status !in f.statuses) || (f.sources != [] && rows[id].source !in f.sources)
      || (f.createdAfter != 0 && rows[id].createdAt <= f.createdAfter)
      || (f.dispatchableOnly && rows[id].planLabel !in {"", "ready"})
    ensures forall i, j | 0 <= i < j < |ids| ::
      var a, b := rows[ids[i]], rows[ids[j]];
      if f.dispatchableOnly && a.planRank != b.planRank then
        a.planRank != 0 && (b.planRank == 0 || a.planRank < b.planRank)
      else
        && a.priority >= b.priority
        && (a.priority == b.priority ==> a.createdAt <= b.createdAt)
        && (a.priority == b.priority && a.createdAt == b.createdAt ==> ids[i] < ids[j])
  {
    forall i, j | 0 <= i < j < |ids| ensures Before(f, ids[i], rows[ids[i]], ids[j], rows[ids[j]]) {}
  }

  /** A listing names each row at most once. */
  lemma ListingDistinct(rows: Rows, f: ListFilter, ids: seq<Id>)
    requires IsListing(rows, f, ids)
    ensures forall i, j | 0 <= i < j < |ids| :: ids[i] != ids[j]
  {
    forall i, j | 0 <= i < j < |ids| ensures ids[i] != ids[j] {
      assert Before(f, ids[i], rows[ids[i]], ids[j], rows[ids[j]]);
    }
  }

  /** In the dispatcher's query every ranked row comes before every unranked one, and
      ranks ascend. */
  lemma RankedFirst(rows: Rows, f: ListFilter, ids: seq<Id>, i: nat, j: nat)
    requires IsListing(rows, f, ids) && f.dispatchableOnly && i < j < |ids|
    ensures rows[ids[j]].planRank != 0 ==> 0 < rows[ids[i]].planRank <= rows[ids[j]].planRank
  {
    assert Before(f, ids[i], rows[ids[i]], ids[j], rows[ids[j]]);
  }

  /** Where two listings agree so far, the next entry of one is the next entry of the other
      or precedes it. */
  lemma NextAgrees(rows: Rows, f: ListFilter, a: seq<Id>, b: seq<Id>, n: nat)
    requires IsListing(rows, f, a) && IsListing(rows, f, b)
    requires n < |a| && n < |b| && a[..n] == b[..n]
    ensures a[n] == b[n] || Before(f, b[n], rows[b[n]], a[n], rows[a[n]])
  {
    ListingDistinct(rows, f, a);
    assert forall i | 0 <= i < n :: b[i] == a[..n][i] != a[n];
    if a[n] !in b {
      assert Before(f, b[n], rows[b[n]], a[n], rows[a[n]]);
    }
  }

  /** A listing goes on past a prefix only with rows the prefix lacks. */
  lemma NextUnlisted(rows: Rows, f: ListFilter, ids: seq<Id>, named: seq<Id>)
    requires IsListing(rows, f, ids) && |named| < |ids| && named == ids[..|named|]
    ensures exists id :: id in rows && Matches(f, rows[id]) && id !in named
  {
    var next := ids[|named|];
    ListingDistinct(rows, f, ids);
    assert next in rows && Matches(f, rows[next]);
  }

  /** The query has one answer: two listings of the same rows are equal. */
  lemma {:induction false} ListingUnique(rows: Rows, f: ListFilter, a: seq<Id>, b: seq<Id>)
    requires IsListing(rows, f, a) && IsListing(rows, f, b) && |a| <= |b|
    ensures a == b
  {
    var n := 0;
    while n < |a|
      invariant n <= |a| && a[..n] == b[..n]
    {
      NextAgrees(rows, f, a, b, n);
      NextAgrees(rows, f, b, a, n);
      assert a[..n + 1] == a[..n] + [a[n]] && b[..n + 1] == b[..n] + [b[n]];
      n := n + 1;
    }
    assert a == b[..|a|];
    if |a| < |b| { NextUnlisted(rows, f, b, a); }
  }

  /** A table that differs from another in one row at most. */
  lemma OneRow(rows: Rows, rows': Rows, id: Id)
    requires rows'.Keys == rows.Keys && forall j | j in rows && j != id :: rows'[j] == rows[j]
    ensures if id in rows then rows' == rows[id := rows'[id]] else rows' == rows
  {
    if id in rows { assert rows[id := rows'[id]].Keys == rows'.Keys; }
  }

  /** A driver error may strike any statement. */
  method DriverFault() returns (fault: bool) {
    fault := *;
  }

  /** The repository.  `faulted` records whether any statement so far failed in the driver. */
  class TaskRepo {
    var rows: Rows
    var nextId: Id
    ghost var faulted: bool
    const jsonValid: string -> bool

    constructor (jsonValid: string -> bool)
      ensures rows == map[] && nextId == 1 && !faulted && this.jsonValid == jsonValid
    {
      rows, nextId, faulted, this.jsonValid := map[], 1, false, jsonValid;
    }

    /** AUTOINCREMENT never reuses an id, and the unique index holds. */
    ghost predicate Valid()
      reads this
    {
      (forall id | id in rows :: id < nextId) && UniqueKeys(rows)
    }

    method Insert(t: Task, now: Time) returns (id: Id, err: Error)
      requires Valid()
      modifies this
      ensures Valid() && faulted == (old(faulted) || err == Fault)
      ensures err != Nil ==> rows == old(rows) && nextId == old(nextId)
      ensures err == Nil ==>
        && id == old(nextId) && nextId == id + 1 && id !in old(rows)
        && rows == old(rows)[id := t.(createdAt := if t.createdAt == 0 then now else t.createdAt, planLabel := "",
                                      planReason := "", planScore := 0.0, planRank := 0, plannedAt := 0)]
        && t.source != "" && t.title != "" && (t.notes == "" || jsonValid(t.notes))
        && (t.externalId == "" || forall j | j in old(rows) ::
              old(rows)[j].source != t.source || old(rows)[j].externalId != t.externalId)
      ensures err == SourceRequired <==> t.source == ""
      ensures err == TitleRequired <==> t.source != "" && t.title == ""
      ensures err == NotesNotJson ==> t.source != "" && t.title != "" && t.notes != "" && !jsonValid(t.notes)
      ensures err == DuplicateExternalId ==>
        && t.source != "" && t.title != "" && (t.notes == "" || jsonValid(t.notes)) && t.externalId != ""
        && exists j :: j in rows && rows[j].source == t.source && rows[j].externalId == t.externalId
      ensures err in {Nil, SourceRequired, TitleRequired, NotesNotJson, DuplicateExternalId, Fault}
    {
      id := 0;
      if t.source == "" { return id, SourceRequired; }
      if t.title == "" { return id, TitleRequired; }
      var row := t.(planLabel := "", planReason := "", planScore := 0.0, planRank := 0, plannedAt := 0);
      if row.createdAt == 0 { row := row.(createdAt := now); }
      var fault := DriverFault();
      if fault { faulted := true; return id, Fault; }
      if row.notes != "" && !jsonValid(row.notes) { return id, NotesNotJson; }
      if row.externalId != "" && KeyTaken(rows, row.source, row.externalId) { return id, DuplicateExternalId; }
      id := nextId;
      rows := rows[id := row];
      nextId := id + 1;
      err := Nil;
    }

    method Get(id: Id) returns (task: Task, err: Error)
      modifies `faulted
      ensures faulted == (old(faulted) || err == Fault)
      ensures err == Nil ==> id in rows && task == rows[id]
      ensures err == NotFound ==> id !in rows
      ensures err in {Nil, NotFound, Fault}
    {
      task := NO_TASK;
      var fault := DriverFault();
      if fault { faulted := true; return task, Fault; }
      if id !in rows { return task, NotFound; }
      return rows[id], Nil;
    }

    method GetBySourceExternalID(source: string, externalId: string) returns (id: Id, task: Task, err: Error)
      requires Valid()
      modifies `faulted
      ensures faulted == (old(faulted) || err == Fault)
      ensures err == Nil ==> id in rows && task == rows[id] && HasKey(task, source, externalId)
      ensures err == NotFound ==> !KeyTaken(rows, source, externalId)
      ensures err in {Nil, NotFound, Fault}
    {
      id, task := 0, NO_TASK;
      var fault := DriverFault();
      if fault { faulted := true; return id, task, Fault; }
      if !KeyTaken(rows, source, externalId) { return id, task, NotFound; }
      var rest := rows.Keys;
      while true
        invariant exists i | i in rest :: i in rows && HasKey(rows[i], source, externalId)
        invariant rest <= rows.Keys
        decreases rest
      {
        var i :| i in rest;
        if HasKey(rows[i], source, externalId) { return i, rows[i], Nil; }
        rest := rest - {i};
      }
    }

    method UpdateStatus(id: Id, status: Status) returns (err: Error)
      modifies this
      ensures nextId == old(nextId) && faulted == (old(faulted) || err == Fault)
      ensures err == Nil ==> id in old(rows) && rows == old(rows)[id := old(rows)[id].(status := status)]
      ensures err != Nil ==> rows == old(rows)
      ensures err != Fault ==> err == if id in rows then Nil else NotFound
    {
      var fault := DriverFault();
      if fault { faulted := true; return Fault; }
      if id !in rows { return NotFound; }
      rows := rows[id := rows[id].(status := status)];
      return Nil;
    }

    method AcquireLock(id: Id, key: string) returns (err: Error)
      modifies this
      ensures nextId == old(nextId) && faulted == (old(faulted) || err == Fault)
      ensures err in {Nil, LockKeyRequired, NotFound, LockHeld, Fault}
      ensures err == LockKeyRequired <==> key == ""
      ensures err == Nil ==> id in old(rows) && rows == old(rows)[id := old(rows)[id].(lockKey := key)]
      ensures err == Nil ==> forall j | j in old(rows) && j != id && old(rows)[j].lockKey == key ::
        old(rows)[j].status != Pending && old(rows)[j].status != Running
      ensures err != Nil ==> rows == old(rows)
      ensures err == NotFound ==> id !in rows
      ensures err == LockHeld ==> id in rows && exists j | j in rows ::
        j != id && rows[j].lockKey == key && (rows[j].status == Pending || rows[j].status == Running)
    {
      if key == "" { return LockKeyRequired; }
      var fault := DriverFault();
      if fault { faulted := true; return Fault; }
      if id in rows && !(exists j | j in rows :: j != id && rows[j].lockKey == key && Active(rows[j].status)) {
        rows := rows[id := rows[id].(lockKey := key)];
        return Nil;
      }
      fault := DriverFault();
      if fault { faulted := true; return Fault; }
      if id !in rows { return NotFound; }
      return LockHeld;
    }

    method ReleaseLock(id: Id) returns (err: Error)
      modifies this
      ensures nextId == old(nextId) && faulted == (old(faulted) || err == Fault)
      ensures err == Nil ==> id in old(rows) && rows == old(rows)[id := old(rows)[id].(lockKey := "")]
      ensures err != Nil ==> rows == old(rows)
      ensures err != Fault ==> err == if id in rows then Nil else NotFound
    {
      var fault := DriverFault();
      if fault { faulted := true; return Fault; }
      if id !in rows { return NotFound; }
      rows := rows[id := rows[id].(lockKey := "")];
      return Nil;
    }

    method ClaimWorkspace(id: Id, ws: string) returns (claimed: bool, err: Error)
      modifies this
      ensures nextId == old(nextId) && faulted == (old(faulted) || err == Fault)
      ensures err in {Nil, WsRequired, NotFound, Fault}
      ensures err == WsRequired <==> ws == ""
      ensures claimed ==>
        && err == Nil && id in old(rows) && old(rows)[id].status == Pending && old(rows)[id].ws == ""
        && rows == old(rows)[id := old(rows)[id].(ws := ws)]
      ensures err == Nil && !claimed ==> id in rows && (rows[id].status != Pending || rows[id].ws != "")
      ensures err == NotFound ==> id !in rows
      ensures !claimed ==> rows == old(rows)
    {
      if ws == "" { return false, WsRequired; }
      var fault := DriverFault();
      if fault { faulted := true; return false, Fault; }
      if id in rows && rows[id].status == Pending && rows[id].ws == "" {
        rows := rows[id := rows[id].(ws := ws)];
        return true, Nil;
      }
      fault := DriverFault();
      if fault { faulted := true; return false, Fault; }
      if id !in rows { return false, NotFound; }
      return false, Nil;
    }

    method SetWorkspace(id: Id, ws: string) returns (err: Error)
      modifies this
      ensures nextId == old(nextId) && faulted == (old(faulted) || err == Fault)
      ensures err == Nil ==> id in old(rows) && rows == old(rows)[id := old(rows)[id].(ws := ws)]
      ensures err != Nil ==> rows == old(rows)
      ensures err != Fault ==> err == if id in rows then Nil else NotFound
    {
      var fault := DriverFault();
      if fault { faulted := true; return Fault; }
      if id !in rows { return NotFound; }
      rows := rows[id := rows[id].(ws := ws)];
      return Nil;
    }

    method SetStartedAt(id: Id, t: Time) returns (err: Error)
      modifies this
      ensures nextId == old(nextId) && faulted == (old(faulted) || err == Fault)
      ensures err == StartedAtRequired <==> t == 0
      ensures err == Nil ==> id in old(rows) && rows == old(rows)[id := old(rows)[id].(startedAt := t)]
      ensures err != Nil ==> rows == old(rows)
      ensures err != Fault && t != 0 ==> err == if id in rows then Nil else NotFound
    {
      if t == 0 { return StartedAtRequired; }
      var fault := DriverFault();
      if fault { faulted := true; return Fault; }
      if id !in rows { return NotFound; }
      rows := rows[id := rows[id].(startedAt := t)];
      return Nil;
    }

    method SetCompletedAt(id: Id, t: Time) returns (err: Error)
      modifies this
      ensures nextId == old(nextId) && faulted == (old(faulted) || err == Fault)
      ensures err == CompletedAtRequired <==> t == 0
      ensures err == Nil ==> id in old(rows) && rows == old(rows)[id := old(rows)[id].(completedAt := t)]
      ensures err != Nil ==> rows == old(rows)
      ensures err != Fault && t != 0 ==> err == if id in rows then Nil else NotFound
    {
      if t == 0 { return CompletedAtRequired; }
      var fault := DriverFault();
      if fault { faulted := true; return Fault; }
      if id !in rows { return NotFound; }
      rows := rows[id := rows[id].(completedAt := t)];
      return Nil;
    }

    method MarkDoneWithSummary(id: Id, summary: string, t: Time) returns (err: Error)
      modifies this
      ensures nextId == old(nextId) && faulted == (old(faulted) || err == Fault)
      ensures err == CompletedAtRequired <==> t == 0
      ensures err == Nil ==>
        && id in old(rows)
        && rows == old(rows)[id := old(rows)[id].(status := Done, resultSummary := summary, completedAt := t)]
      ensures err != Nil ==> rows == old(rows)
      ensures err != Fault && t != 0 ==> err == if id in rows then Nil else NotFound
    {
      if t == 0 { return CompletedAtRequired; }
      var fault := DriverFault();
      if fault { faulted := true; return Fault; }
      if id !in rows { return NotFound; }
      rows := rows[id := rows[id].(status := Done, resultSummary := summary, completedAt := t)];
      return Nil;
    }

    method MarkFailedWithReason(id: Id, reason: string) returns (err: Error)
      modifies this
      ensures nextId == old(nextId) && faulted == (old(faulted) || err == Fault)
      ensures err == ReasonRequired <==> reason == ""
      ensures err == Nil ==>
        id in old(rows) && rows == old(rows)[id := old(rows)[id].(status := Failed, judgmentReason := reason)]
      ensures err != Nil ==> rows == old(rows)
      ensures err != Fault && reason != "" ==> err == if id in rows then Nil else NotFound
    {
      if reason == "" { return ReasonRequired; }
      var fault := DriverFault();
      if fault { faulted := true; return Fault; }
      if id !in rows { return NotFound; }
      rows := rows[id := rows[id].(status := Failed, judgmentReason := reason)];
      return Nil;
    }

    method AppendJudgmentReason(id: Id, note: string) returns (err: Error)
      modifies this
      ensures nextId == old(nextId) && faulted == (old(faulted) || err == Fault)
      ensures err == ReasonRequired <==> note == ""
      ensures err == Nil ==>
        && id in old(rows)
        && var prior := old(rows)[id].judgmentReason;
           rows == old(rows)[id := old(rows)[id].(judgmentReason := if prior == "" then note else prior + "; " + note)]
      ensures err != Nil ==> rows == old(rows)
      ensures err != Fault && note != "" ==> err == if id in rows then Nil else NotFound
    {
      if note == "" { return ReasonRequired; }
      var fault := DriverFault();
      if fault { faulted := true; return Fault; }
      if id !in rows { return NotFound; }
      var prior := rows[id].judgmentReason;
      rows := rows[id := rows[id].(judgmentReason :=
        if prior == "" then note else prior + JUDGMENT_REASON_SEPARATOR + note)];
      return Nil;
    }

    method MarkFailedFromRunningWithReason(id: Id, reason: string) returns (err: Error)
      modifies this
      ensures nextId == old(nextId) && faulted == (old(faulted) || err == Fault)
      ensures err in {Nil, ReasonRequired, NotFound, InvalidTransition, Fault}
      ensures err == ReasonRequired <==> reason == ""
      ensures err == Nil ==>
        && id in old(rows) && old(rows)[id].status == Running
        && var prior := old(rows)[id].judgmentReason;
           rows == old(rows)[id := old(rows)[id].(
             status := Failed, judgmentReason := if prior == "" then reason else prior + "; " + reason)]
      ensures err != Nil ==> rows == old(rows)
      ensures err == InvalidTransition ==> id in rows && rows[id].status != Running
      ensures err == NotFound ==> id !in rows
    {
      if reason == "" { return ReasonRequired; }
      var fault := DriverFault();
      if fault { faulted := true; return Fault; }
      if id in rows && rows[id].status == Running {
        var prior := rows[id].judgmentReason;
        rows := rows[id := rows[id].(status := Failed, judgmentReason :=
          if prior == "" then reason else prior + JUDGMENT_REASON_SEPARATOR + reason)];
        return Nil;
      }
      fault := DriverFault();
      if fault { faulted := true; return Fault; }
      if id !in rows { return NotFound; }
      return InvalidTransition;
    }

    method SetPlan(id: Id, verdict: string, reason: string, score: real, rank: nat, t: Time) returns (err: Error)
      modifies this
      ensures nextId == old(nextId) && faulted == (old(faulted) || err == Fault)
      ensures err == PlannedAtRequired <==> t == 0
      ensures err == Nil ==>
        && id in old(rows)
        && rows == old(rows)[id := old(rows)[id].(planLabel := verdict, planReason := reason, planScore := score,
                                                  planRank := rank, plannedAt := t)]
      ensures err != Nil ==> rows == old(rows)
      ensures err != Fault && t != 0 ==> err == if id in rows then Nil else NotFound
    {
      if t == 0 { return PlannedAtRequired; }
      var fault := DriverFault();
      if fault { faulted := true; return Fault; }
      if id !in rows { return NotFound; }
      rows := rows[id := rows[id].(planLabel := verdict, planReason := reason, planScore := score,
                                   planRank := rank, plannedAt := t)];
      return Nil;
    }

    /** The policy-aware status change behind done, fail, promote and reopen. */
    method TransitionStatus(id: Id, status: Status) returns (err: Error)
      modifies this
      ensures nextId == old(nextId) && faulted == (old(faulted) || err == Fault)
      ensures err in {Nil, NotFound, InvalidTransition, Fault}
      ensures err == Nil ==>
        && id in old(rows) && rows == old(rows)[id := old(rows)[id].(status := status)]
        && if old(rows)[id].status in {Pending, Running, WaitingHuman} then status in {Done, Failed}
           else status == Pending
      ensures err == InvalidTransition ==>
        && id in rows
        && if rows[id].status in {Pending, Running, WaitingHuman} then status !in {Done, Failed}
           else status != Pending
      ensures err != Nil ==> rows == old(rows)
      ensures err == NotFound ==> id !in rows
    {
      var current;
      current, err := Get(id);
      if err != Nil { return err; }
      if !AllowedTransition(current.status, status) { return InvalidTransition; }
      err := UpdateStatus(id, status);
    }

    method List(f: ListFilter) returns (ids: seq<Id>, err: Error)
      modifies `faulted
      ensures faulted == (old(faulted) || err == Fault)
      ensures err in {Nil, FilterTooLarge, Fault}
      ensures err == FilterTooLarge <==> |f.statuses| > MAX_FILTER_VALUES || |f.sources| > MAX_FILTER_VALUES
      ensures err == Nil ==> IsListing(rows, f, ids)
    {
      ids := [];
      if |f.statuses| > MAX_FILTER_VALUES || |f.sources| > MAX_FILTER_VALUES { return ids, FilterTooLarge; }
      var fault := DriverFault();
      if fault { faulted := true; return ids, Fault; }
      var rest := set id | id in rows && Matches(f, rows[id]);
      while rest != {} && (f.limit == 0 || |ids| < f.limit)
        invariant faulted == old(faulted) && Partly(f, ids, rest)
        decreases rest
      {
        var next := First(f, rest);
        PartlyNext(f, ids, rest, next);
        ids, rest := ids + [next], rest - {next};
      }
      err := Nil;
    }

    /** `ids` lists the first of the matching rows, and `rest` are the others. */
    ghost predicate Partly(f: ListFilter, ids: seq<Id>, rest: set<Id>)
      reads this
    {
      && rest <= rows.Keys
      && (f.limit > 0 ==> |ids| <= f.limit)
      && (forall i | 0 <= i < |ids| :: ids[i] in rows && Matches(f, rows[ids[i]]) && ids[i] !in rest)
      && (forall i, j | 0 <= i < j < |ids| :: Before(f, ids[i], rows[ids[i]], ids[j], rows[ids[j]]))
      && (forall id | id in rows && Matches(f, rows[id]) :: id in rest || id in ids)
      && (forall i, id | 0 <= i < |ids| && id in rest :: Before(f, ids[i], rows[ids[i]], id, rows[id]))
      && (forall id | id in rest :: Matches(f, rows[id]))
    }

    lemma PartlyNext(f: ListFilter, ids: seq<Id>, rest: set<Id>, next: Id)
      requires Partly(f, ids, rest) && next in rest && (f.limit == 0 || |ids| < f.limit)
      requires forall id | id in rest && id != next :: Before(f, next, rows[next], id, rows[id])
      ensures Partly(f, ids + [next], rest - {next})
    {
    }

    method First(f: ListFilter, ids: set<Id>) returns (least: Id)
      requires ids <= rows.Keys && ids != {}
      ensures least in ids
      ensures forall id | id in ids && id != least :: Before(f, least, rows[least], id, rows[id])
    {
      assert (forall id :: id !in ids) ==> ids == {};
      least :| least in ids;
      var rest := ids - {least};
      while rest != {}
        invariant least in ids && rest <= ids
        invariant forall id | id in ids && id !in rest && id != least :: Before(f, least, rows[least], id, rows[id])
        decreases rest
      {
        assert (forall i :: i !in rest) ==> rest == {};
        var id :| id in rest;
        if Before(f, id, rows[id], least, rows[least]) { least := id; }
        rest := rest - {id};
      }
    }
  }

  /** The row an insert stores: the plan columns are not among those it writes. */
  function Inserted(t: Task, now: Time): Task {
    t.(createdAt := if t.createdAt == 0 then now else t.createdAt,
       planLabel := "", planReason := "", planScore := 0.0, planRank := 0, plannedAt := 0)
  }

  /** What Insert answers when the driver does not fail. */
  function InsertError(rows: Rows, t: Task, jsonValid: string -> bool): Error {
    if t.source == "" then SourceRequired
    else if t.title == "" then TitleRequired
    else if t.notes != "" && !jsonValid(t.notes) then NotesNotJson
    else if t.externalId != "" && KeyTaken(rows, t.source, t.externalId) then DuplicateExternalId
    else Nil
  }

  const NO_TASK := Task("", "", "", "", "", "", Pending, "", 0, "", "", "", "", "", 0.0, 0, 0, 0, 0, 0)
}
