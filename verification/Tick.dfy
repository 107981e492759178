/** A planning tick as it runs (internal/loop/loop.go, planAll and persistDecision): it computes
    `Persist.AfterAll` of the plan. */
module Tick {
  import opened Tasks
  import opened Planning
  import opened Scoring
  import opened Planner
  import opened Persist
  import PlanRun
  import T = Text

  method PersistDecision(repo: TaskRepo, d: Planned, env: Env)
    requires repo.Valid() && repo.jsonValid == env.jsonValid
    modifies repo
    ensures repo.Valid() && (old(repo.faulted) ==> repo.faulted)
    ensures !repo.faulted ==> TableOf(repo) == AfterPersist(old(TableOf(repo)), d, env)
    ensures LeavesOthers(old(repo.rows), repo.rows, d)
    // a candidate the table does not take
    ensures !repo.faulted ==>
      d.candidate.source == "" || (d.candidate.notes != "" && !env.jsonValid(d.candidate.notes)) ==>
        repo.rows == old(repo.rows)
    // a new one
    ensures !repo.faulted ==>
      d.candidate.source != "" && (d.candidate.notes == "" || env.jsonValid(d.candidate.notes)) ==>
      (d.candidate.externalId == "" || forall j | j in old(repo.rows) ::
         old(repo.rows)[j].source != d.candidate.source || old(repo.rows)[j].externalId != d.candidate.externalId) ==>
        && old(repo.nextId) in repo.rows
        && repo.rows == old(repo.rows)[old(repo.nextId) := repo.rows[old(repo.nextId)]]
        && var row, c := repo.rows[old(repo.nextId)], d.candidate;
        && row.source == c.source && row.externalId == c.externalId && row.externalUrl == c.sourcePath
        && row.body == c.body && row.notes == c.notes && row.createdAt == env.now
        && row.title == (if T.TrimSpace(c.title) != "" then T.TrimSpace(c.title)
                         else if c.externalId != "" then "(untitled " + c.source + " item " + c.externalId + ")"
                         else "(untitled " + c.source + " item)")
        && row.status == (if c.done then Done else d.status)
        && row.lockKey == row.ws == row.judgmentReason == row.resultSummary == ""
        && (!c.done && env.plannedAt != 0 ==>
              && row.planLabel == d.verdict && row.planReason == env.redact(d.reason) && row.planScore == d.score
              && row.planRank == d.rank && row.plannedAt == env.plannedAt)
    // one that has a row
    ensures !repo.faulted ==>
      d.candidate.source != "" && (d.candidate.notes == "" || env.jsonValid(d.candidate.notes)) ==>
      d.candidate.externalId != "" ==>
      forall id | id in old(repo.rows) && old(repo.rows)[id].source == d.candidate.source &&
        old(repo.rows)[id].externalId == d.candidate.externalId ::
          && id in repo.rows
          && repo.rows[id] ==
               if old(repo.rows)[id].status in {Running, Done, Failed} then old(repo.rows)[id]
               else if d.candidate.done then old(repo.rows)[id].(status := Done)
               else if env.plannedAt == 0 then old(repo.rows)[id].(status := d.status)
               else old(repo.rows)[id].(
                 status := d.status, planLabel := d.verdict, planReason := env.redact(d.reason), planScore := d.score,
                 planRank := d.rank, plannedAt := env.plannedAt)
  {
    ghost var was := TableOf(repo);
    WriteDecision(repo, d, env);
    if !repo.faulted {
      NewReads(was, TableOf(repo), d, env);
      KnownReads(was, TableOf(repo), d, env);
    }
  }

  method WriteDecision(repo: TaskRepo, d: Planned, env: Env)
    requires repo.Valid() && repo.jsonValid == env.jsonValid
    modifies repo
    ensures repo.Valid() && (old(repo.faulted) ==> repo.faulted)
    ensures !repo.faulted ==> TableOf(repo) == AfterPersist(old(TableOf(repo)), d, env)
    ensures LeavesOthers(old(repo.rows), repo.rows, d)
  {
    var c := d.candidate;
    var status := d.status;
    if c.done { status := Done; }
    var err := InsertNew(repo, d, env);
    if err == DuplicateExternalId { UpdateExisting(repo, d, env, status); }
  }

  /** The half of a decision that meets no row with its key. */
  method InsertNew(repo: TaskRepo, d: Planned, env: Env) returns (err: Error)
    requires repo.Valid() && repo.jsonValid == env.jsonValid
    modifies repo
    ensures repo.Valid() && (old(repo.faulted) ==> repo.faulted)
    ensures err == DuplicateExternalId ==>
      TableOf(repo) == old(TableOf(repo)) && d.candidate.externalId != "" && Taken(repo.rows, d) && Accepted(d, env)
    ensures err != DuplicateExternalId && !repo.faulted ==> TableOf(repo) == AfterPersist(old(TableOf(repo)), d, env)
    ensures LeavesOthers(old(repo.rows), repo.rows, d)
  {
    ghost var was := TableOf(repo);
    var id;
    id, err := InsertRow(repo, d, env);
    if err == Nil {
      LabelNew(repo, d, env, id);
      Overwritten(was.rows, id, Inserted(TaskOf(d), env.now), Fresh(d, env));
    }
  }

  lemma Overwritten(rows: Rows, id: Id, first: Task, second: Task)
    ensures rows[id := first][id := second] == rows[id := second]
  {
  }

  /** The insert that starts every decision, and where it leaves the table. */
  method InsertRow(repo: TaskRepo, d: Planned, env: Env) returns (id: Id, err: Error)
    requires repo.Valid() && repo.jsonValid == env.jsonValid
    modifies repo
    ensures repo.Valid() && (old(repo.faulted) ==> repo.faulted)
    ensures err != Nil ==> repo.rows == old(repo.rows) && repo.nextId == old(repo.nextId)
    ensures err == DuplicateExternalId ==> d.candidate.externalId != "" && Taken(repo.rows, d) && Accepted(d, env)
    ensures err !in {Nil, DuplicateExternalId} && !repo.faulted ==> !Accepted(d, env)
    ensures err == Nil ==>
      && id == old(repo.nextId) && id !in old(repo.rows) && repo.nextId == id + 1
      && repo.rows == old(repo.rows)[id := Inserted(TaskOf(d), env.now)]
      && AfterPersist(old(TableOf(repo)), d, env) == Table(old(repo.rows)[id := Fresh(d, env)], id + 1)
  {
    InsertAnswer(repo.rows, d, env);
    id, err := repo.Insert(TaskOf(d), env.now);
  }

  lemma InsertAnswer(rows: Rows, d: Planned, env: Env)
    ensures var err := InsertError(rows, TaskOf(d), env.jsonValid);
      && (Accepted(d, env) <==> err in {Nil, DuplicateExternalId})
      && (err == DuplicateExternalId ==> d.candidate.externalId != "" && Taken(rows, d))
      && (err == Nil ==> d.candidate.externalId == "" || !Taken(rows, d))
  {
    assert Taken(rows, d) <==> KeyTaken(rows, d.candidate.source, d.candidate.externalId);
  }

  /** Labels the row just inserted, unless its item is done upstream. */
  method LabelNew(repo: TaskRepo, d: Planned, env: Env, id: Id)
    requires repo.Valid()
    requires id in repo.rows && repo.rows[id] == Inserted(TaskOf(d), env.now)
    modifies repo
    ensures repo.Valid() && (old(repo.faulted) ==> repo.faulted) && repo.nextId == old(repo.nextId)
    ensures repo.rows.Keys == old(repo.rows).Keys
    ensures forall j | j in repo.rows && j != id :: repo.rows[j] == old(repo.rows)[j]
    ensures !repo.faulted ==> repo.rows == old(repo.rows)[id := Fresh(d, env)]
  {
    ghost var rows := repo.rows;
    if d.candidate.done {
      assert rows == rows[id := Fresh(d, env)];
      return;
    }
    var _ := repo.SetPlan(id, d.verdict, env.redact(d.reason), d.score, d.rank, env.plannedAt);
    SameKeys(rows, repo.rows);
  }

  method UpdateExisting(repo: TaskRepo, d: Planned, env: Env, status: Status)
    requires repo.Valid() && status == StatusFor(d)
    requires d.candidate.externalId != "" && Taken(repo.rows, d) && Accepted(d, env)
    modifies repo
    ensures repo.Valid() && (old(repo.faulted) ==> repo.faulted)
    ensures !repo.faulted ==> TableOf(repo) == AfterPersist(old(TableOf(repo)), d, env)
    ensures LeavesOthers(old(repo.rows), repo.rows, d)
  {
    var id, existing, err := repo.GetBySourceExternalID(d.candidate.source, d.candidate.externalId);
    if err != Nil { return; }
    assert id == IdOf(repo.rows, d);
    if ExecutorOwned(existing.status) { return; }
    if status != existing.status {
      err := repo.UpdateStatus(id, status);
      if err != Nil { return; }
    }
    if d.candidate.done { return; }
    var _ := repo.SetPlan(id, d.verdict, env.redact(d.reason), d.score, d.rank, env.plannedAt);
  }

  lemma SameKeys(rows: Rows, rows': Rows)
    requires rows.Keys == rows'.Keys && UniqueKeys(rows)
    requires forall id | id in rows ::
      rows[id].source == rows'[id].source && rows[id].externalId == rows'[id].externalId
    ensures UniqueKeys(rows')
  {
    forall i, j | i in rows' && j in rows' && rows'[i].externalId != "" &&
      HasKey(rows'[i], rows'[j].source, rows'[j].externalId)
      ensures i == j
    {
      assert HasKey(rows[i], rows[j].source, rows[j].externalId);
    }
  }

  /** One tick from the candidates on: plan, then write every decision. */
  method PlanAll(repo: TaskRepo, env: Env, p: Config, pass: Pass, key: CacheKey, cache: MemoryScoreCache?,
                 cands: seq<Candidate>)
    requires repo.Valid() && repo.jsonValid == env.jsonValid
    modifies repo, cache
    ensures repo.Valid() && (old(repo.faulted) ==> repo.faulted)
    ensures !repo.faulted ==>
      TableOf(repo) ==
        AfterAll(old(TableOf(repo)), PlanOf(p, pass, key, old(Held(cache)), cands, old(repo.rows)), |cands|, env)
    ensures old(repo.rows).Keys <= repo.rows.Keys
    ensures forall id | id in old(repo.rows) && ExecutorOwned(old(repo.rows)[id].status) ::
      repo.rows[id] == old(repo.rows)[id]
  {
    ghost var was := TableOf(repo);
    var ready, decisions, err := PlanRun.Plan(repo, p, pass, key, cache, cands);
    if err != Nil { return; }
    for i := 0 to |decisions|
      invariant repo.Valid() && (old(repo.faulted) ==> repo.faulted)
      invariant !repo.faulted ==> TableOf(repo) == AfterAll(was, decisions, i, env)
      invariant was.rows.Keys <= repo.rows.Keys
      invariant forall id | id in was.rows && ExecutorOwned(was.rows[id].status) :: repo.rows[id] == was.rows[id]
    {
      PersistDecision(repo, decisions[i], env);
    }
  }
}
