/** Writing the decisions of a plan to the table (internal/loop/loop.go, persistDecision), as
    functions of the table, and the vocabulary for a whole tick's effect. */
module Persist {
  import opened Tasks
  import opened Planning
  import T = Text

  // ---- one decision ----

  /** `jsonValid` is the table's CHECK on notes, `redact` the log redaction; `now` stamps new rows. */
  datatype Env = Env(jsonValid: string -> bool, redact: string -> string, now: Time, plannedAt: Time)

  datatype Table = Table(rows: Rows, nextId: Id)

  ghost predicate ValidTable(t: Table) {
    (forall id | id in t.rows :: id < t.nextId) && UniqueKeys(t.rows)
  }

  /** Rows the executor or the completion path owns; the planner leaves them alone. */
  predicate ExecutorOwned(status: Status) {
    status == Running || status == Done || status == Failed
  }

  function CandidateTitle(c: Candidate): (title: string)
    ensures title != ""
  {
    var title := T.TrimSpace(c.title);
    if title != "" then title
    else if c.externalId != "" then "(untitled " + c.source + " item " + c.externalId + ")"
    else "(untitled " + c.source + " item)"
  }

  function StatusFor(d: Planned): Status {
    if d.candidate.done then Done else d.status
  }

  function TaskOf(d: Planned): Task {
    NO_TASK.(source := d.candidate.source, externalId := d.candidate.externalId, externalUrl := d.candidate.sourcePath,
             title := CandidateTitle(d.candidate), body := d.candidate.body, notes := d.candidate.notes,
             status := StatusFor(d))
  }

  function WithPlan(task: Task, d: Planned, env: Env): Task {
    if d.candidate.done || env.plannedAt == 0 then task
    else
      task.(planLabel := d.verdict, planReason := env.redact(d.reason), planScore := d.score, planRank := d.rank,
            plannedAt := env.plannedAt)
  }

  function Fresh(d: Planned, env: Env): Task {
    WithPlan(Inserted(TaskOf(d), env.now), d, env)
  }

  /** The table takes the candidate's row at all. */
  predicate Acceptable(c: Candidate, env: Env) {
    c.source != "" && (c.notes == "" || env.jsonValid(c.notes))
  }

  predicate Accepted(d: Planned, env: Env) {
    Acceptable(d.candidate, env)
  }

  predicate Concerns(task: Task, d: Planned) {
    HasKey(task, d.candidate.source, d.candidate.externalId)
  }

  /** What a decision makes of the row that has its key. */
  function Reevaluated(task: Task, d: Planned, env: Env): Task {
    if ExecutorOwned(task.status) || !Accepted(d, env) then task
    else WithPlan(task.(status := StatusFor(d)), d, env)
  }

  /** A new row, column by column. */
  lemma FreshReads(d: Planned, env: Env)
    ensures var row, c := Fresh(d, env), d.candidate;
      && row.source == c.source && row.externalId == c.externalId && row.externalUrl == c.sourcePath
      && row.body == c.body && row.notes == c.notes && row.createdAt == env.now
      && row.title == (if T.TrimSpace(c.title) != "" then T.TrimSpace(c.title)
                       else if c.externalId != "" then "(untitled " + c.source + " item " + c.externalId + ")"
                       else "(untitled " + c.source + " item)")
      && row.status == (if c.done then Done else d.status)
      && row.lockKey == row.ws == row.judgmentReason == row.resultSummary == ""
      && row.priority == 0 && row.startedAt == row.completedAt == 0
    ensures var row := Fresh(d, env);
      if d.candidate.done || env.plannedAt == 0 then
        row.planLabel == row.planReason == "" && row.planScore == 0.0 && row.planRank == row.plannedAt == 0
      else
        && row.planLabel == d.verdict && row.planReason == env.redact(d.reason) && row.planScore == d.score
        && row.planRank == d.rank && row.plannedAt == env.plannedAt
  {
  }

  /** A row that was there, column by column: rows the executor owns stay as they are, of others the
      status and, unless the item is done upstream, the five plan columns are written. */
  lemma ReevaluatedReads(task: Task, d: Planned, env: Env)
    requires d.candidate.source != "" && (d.candidate.notes == "" || env.jsonValid(d.candidate.notes))
    ensures task.status == Running || task.status == Done || task.status == Failed ==> Reevaluated(task, d, env) == task
    ensures task.status == Pending || task.status == Skipped || task.status == WaitingHuman ==>
      Reevaluated(task, d, env) ==
        if d.candidate.done then task.(status := Done)
        else if env.plannedAt == 0 then task.(status := d.status)
        else task.(status := d.status, planLabel := d.verdict, planReason := env.redact(d.reason),
                   planScore := d.score, planRank := d.rank, plannedAt := env.plannedAt)
  {
  }

  ghost predicate Taken(rows: Rows, d: Planned) {
    exists id :: id in rows && Concerns(rows[id], d)
  }

  ghost function IdOf(rows: Rows, d: Planned): Id
    requires Taken(rows, d)
  {
    var id :| id in rows && Concerns(rows[id], d);
    id
  }

  ghost function AfterPersist(t: Table, d: Planned, env: Env): Table {
    if !Accepted(d, env) then t
    else if d.candidate.externalId != "" && Taken(t.rows, d) then
      var id := IdOf(t.rows, d);
      t.(rows := t.rows[id := Reevaluated(t.rows[id], d, env)])
    else Table(t.rows[t.nextId := Fresh(d, env)], t.nextId + 1)
  }

  /** One decision, column by column: nothing for a candidate the table does not take, a new row for a
      new key, and for a known key the row re-evaluated. */
  lemma PersistReads(t: Table, d: Planned, env: Env)
    requires ValidTable(t)
    ensures d.candidate.source == "" || (d.candidate.notes != "" && !env.jsonValid(d.candidate.notes)) ==>
      AfterPersist(t, d, env) == t
    ensures Accepted(d, env) && (d.candidate.externalId == "" || forall j | j in t.rows ::
        t.rows[j].source != d.candidate.source || t.rows[j].externalId != d.candidate.externalId) ==>
      AfterPersist(t, d, env) == Table(t.rows[t.nextId := Fresh(d, env)], t.nextId + 1)
    ensures Accepted(d, env) && d.candidate.externalId != "" ==> forall id | id in t.rows
      && t.rows[id].source == d.candidate.source && t.rows[id].externalId == d.candidate.externalId ::
        AfterPersist(t, d, env) == t.(rows := t.rows[id := Reevaluated(t.rows[id], d, env)])
  {
    forall id | Accepted(d, env) && d.candidate.externalId != "" && id in t.rows
      && t.rows[id].source == d.candidate.source && t.rows[id].externalId == d.candidate.externalId
      ensures AfterPersist(t, d, env) == t.(rows := t.rows[id := Reevaluated(t.rows[id], d, env)])
    {
      assert Concerns(t.rows[id], d);
      var chosen := IdOf(t.rows, d);
      assert HasKey(t.rows[id], t.rows[chosen].source, t.rows[chosen].externalId);
    }
  }

  /** The same in the columns of a new row. */
  lemma NewReads(t: Table, u: Table, d: Planned, env: Env)
    requires ValidTable(t) && u == AfterPersist(t, d, env)
    ensures (d.candidate.source == "" || (d.candidate.notes != "" && !env.jsonValid(d.candidate.notes))) ==>
      u.rows == t.rows
    ensures d.candidate.source != "" && (d.candidate.notes == "" || env.jsonValid(d.candidate.notes)) ==>
      (d.candidate.externalId == "" || forall j | j in t.rows ::
         t.rows[j].source != d.candidate.source || t.rows[j].externalId != d.candidate.externalId) ==>
        && t.nextId in u.rows
        && u.rows == t.rows[t.nextId := u.rows[t.nextId]]
        && var row, c := u.rows[t.nextId], d.candidate;
        && row.source == c.source && row.externalId == c.externalId && row.externalUrl == c.sourcePath
        && row.body == c.body && row.notes == c.notes && row.createdAt == env.now
        && row.title == (if T.TrimSpace(c.title) != "" then T.TrimSpace(c.title)
                         else if c.externalId != "" then "(untitled " + c.source + " item " + c.externalId + ")"
                         else "(untitled " + c.source + " item)")
        && row.status == (if c.done then Done else d.status)
        && row.lockKey == row.ws == row.judgmentReason == row.resultSummary == ""
        && (!c.done && env.plannedAt != 0 ==>
              && row.planLabel == d.verdict && row.planReason == env.redact(d.reason) && row.planScore == d.score
              && row.planRank == d.rank && row.plannedAt == env.plannedAt)
  {
    PersistReads(t, d, env);
    FreshReads(d, env);
  }

  /** And in those of a known one. */
  lemma KnownReads(t: Table, u: Table, d: Planned, env: Env)
    requires ValidTable(t) && u == AfterPersist(t, d, env)
    ensures d.candidate.source != "" && (d.candidate.notes == "" || env.jsonValid(d.candidate.notes)) ==>
      d.candidate.externalId != "" ==>
      forall id | id in t.rows && t.rows[id].source == d.candidate.source &&
        t.rows[id].externalId == d.candidate.externalId ::
          && id in u.rows
          && u.rows[id] ==
               if t.rows[id].status in {Running, Done, Failed} then t.rows[id]
               else if d.candidate.done then t.rows[id].(status := Done)
               else if env.plannedAt == 0 then t.rows[id].(status := d.status)
               else t.rows[id].(
                 status := d.status, planLabel := d.verdict, planReason := env.redact(d.reason), planScore := d.score,
                 planRank := d.rank, plannedAt := env.plannedAt)
  {
    PersistReads(t, d, env);
    forall id | id in t.rows && Concerns(t.rows[id], d) && Accepted(d, env) {
      ReevaluatedReads(t.rows[id], d, env);
    }
  }

  /** Rows under another key, and rows the executor owns, are as they were. */
  ghost predicate LeavesOthers(rows: Rows, rows': Rows, d: Planned) {
    && rows.Keys <= rows'.Keys
    && forall id | id in rows && (ExecutorOwned(rows[id].status) || !Concerns(rows[id], d)) :: rows'[id] == rows[id]
  }

  ghost function TableOf(repo: TaskRepo): Table
    reads repo
  {
    Table(repo.rows, repo.nextId)
  }

  // ---- all decisions ----

  ghost function AfterAll(t: Table, ds: seq<Planned>, n: nat, env: Env): Table
    requires n <= |ds|
  {
    if n == 0 then t else AfterPersist(AfterAll(t, ds, n - 1, env), ds[n - 1], env)
  }

  /** No two candidates share a key, and none is without one. */
  ghost predicate DistinctKeys(ds: seq<Planned>) {
    && (forall i | 0 <= i < |ds| :: ds[i].candidate.externalId != "")
    && forall i, j | 0 <= i < j < |ds| ::
         !(ds[i].candidate.source == ds[j].candidate.source && ds[i].candidate.externalId == ds[j].candidate.externalId)
  }

  /** What the first n decisions make of a row there was. */
  function Turned(task: Task, ds: seq<Planned>, n: nat, env: Env): Task
    requires n <= |ds|
  {
    if n == 0 then task
    else
      var before := Turned(task, ds, n - 1, env);
      if Concerns(before, ds[n - 1]) then Reevaluated(before, ds[n - 1], env) else before
  }

  /** A new row is an accepted decision's whose key was free. */
  ghost predicate IsNewRow(task: Task, rows: Rows, ds: seq<Planned>, n: nat, env: Env)
    requires n <= |ds|
  {
    n > 0
    && (IsNewRow(task, rows, ds, n - 1, env)
        || (Accepted(ds[n - 1], env) && !Taken(rows, ds[n - 1]) && task == Fresh(ds[n - 1], env)))
  }

  predicate SameKey(d: Planned, e: Planned) {
    d.candidate.source == e.candidate.source && d.candidate.externalId == e.candidate.externalId
  }

  lemma KeysPersist(task: Task, d: Planned, e: Planned, env: Env)
    ensures Concerns(Reevaluated(task, d, env), e) <==> Concerns(task, e)
    ensures Concerns(Fresh(d, env), e) <==> SameKey(d, e)
  {
  }

  /** One of the first n decisions has e's key and is accepted. */
  predicate AnyTakes(ds: seq<Planned>, n: nat, env: Env, e: Planned)
    requires n <= |ds|
  {
    n > 0 && (AnyTakes(ds, n - 1, env, e) || (SameKey(ds[n - 1], e) && Accepted(ds[n - 1], env)))
  }
}
