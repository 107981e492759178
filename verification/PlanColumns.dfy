/** The plan read column by column (internal/manage/plan.go, rules.go, scoring.go): what every
    decision says in terms of the candidate, the configuration and the rows of the table. */
module PlanColumns {
  import opened Tasks
  import opened Planning
  import opened Scoring
  import opened Planner
  import T = Text

  lemma PlannedAt(p: Config, pass: Pass, key: CacheKey, m: Cache, cands: seq<Candidate>, rows: Rows, i: nat)
    requires i < |cands|
    ensures var ds := Scored(p, pass, key, m, DecidedAll(p, cands, rows));
      && |ds| == |cands|
      && PlanOf(p, pass, key, m, cands, rows)[i] == ds[i].(rank := Rank(p, ds, i))
      && ds[i] == ScoredAt(p, pass, key, m, DecidedAll(p, cands, rows), i)
  {
  }

  /** Status and rank: the registry's entry for the verdict, or that for needs-human, gives the
      status, and the row is ranked exactly if that entry is dispatchable. */
  lemma PolicyReads(p: Config, pass: Pass, key: CacheKey, m: Cache, cands: seq<Candidate>, rows: Rows, i: nat)
    requires i < |cands|
    ensures var d := PlanOf(p, pass, key, m, cands, rows)[i];
      var policy := p.registry[if d.verdict in p.registry then d.verdict else "needs-human"];
      d.candidate == cands[i] && d.status == policy.status && (d.rank > 0 <==> policy.dispatchable)
  {
    OnlyReadyDefers(p, pass, key, m, cands, rows, i);
  }

  /** Ranks: rows whose lock is free come before rows whose lock is taken, then the higher score
      comes first, and equal scores keep the input order. */
  lemma RankReads(p: Config, pass: Pass, key: CacheKey, m: Cache, cands: seq<Candidate>, rows: Rows, i: nat, j: nat)
    requires i < |cands| && j < |cands| && i != j
    requires PlanOf(p, pass, key, m, cands, rows)[i].rank > 0 && PlanOf(p, pass, key, m, cands, rows)[j].rank > 0
    ensures var d, e := PlanOf(p, pass, key, m, cands, rows)[i], PlanOf(p, pass, key, m, cands, rows)[j];
      && d.rank != e.rank
      && (!d.serialized && e.serialized ==> d.rank < e.rank)
      && (d.serialized == e.serialized && d.score > e.score ==> d.rank < e.rank)
      && (d.serialized == e.serialized && d.score == e.score && i < j ==> d.rank < e.rank)
  {
    var ds := Scored(p, pass, key, m, DecidedAll(p, cands, rows));
    PlannedAt(p, pass, key, m, cands, rows, i);
    PlannedAt(p, pass, key, m, cands, rows, j);
    RankOrder(p, ds, i, j);
    RankOrder(p, ds, j, i);
  }

  predicate SameItem(task: Task, c: Candidate) {
    task.source + "\0" + task.externalId == c.source + "\0" + c.externalId
  }

  /** A finished row has the candidate's source and external id. */
  ghost predicate FinishedBefore(rows: Rows, c: Candidate) {
    exists id | id in rows && rows[id].externalId != "" && SameItem(rows[id], c) ::
      rows[id].status == Done || rows[id].status == Skipped
  }

  lemma DuplicateReads(rows: Rows, c: Candidate)
    ensures Duplicate(c, WorldOf(rows)) <==> c.externalId != "" && FinishedBefore(rows, c)
  {
    if FinishedBefore(rows, c) {
      var id :| id in rows && rows[id].externalId != "" && SameItem(rows[id], c) && rows[id].status in {Done, Skipped};
      assert DupKey(rows[id].source, rows[id].externalId) in WorldOf(rows).finished;
    }
  }

  /** Verdict: an upstream verdict stands; otherwise the first of the four rules that applies decides,
      and a candidate none applies to is ready.  Only the model can move a dispatchable verdict, and
      only to defer. */
  lemma VerdictReads(p: Config, pass: Pass, key: CacheKey, m: Cache, cands: seq<Candidate>, rows: Rows, i: nat,
                     ruled: string)
    requires i < |cands|
    requires ruled ==
      if cands[i].verdict != "" then cands[i].verdict
      else if p.rules.dropIfCwdViolation && !p.cwdAllowed(
        if p.parseNotes(cands[i].notes).cwd == "" then p.defaultCwd else p.parseNotes(cands[i].notes).cwd) then "drop"
      else if cands[i].externalId != "" && FinishedBefore(rows, cands[i]) then "drop"
      else if p.rules.escalateIfBodyEmpty && T.TrimSpace(cands[i].title) == "" then "needs-human"
      else if p.rules.blockIfDepsIncomplete && (exists id | id in p.parseNotes(cands[i].notes).dependsOn ::
        id !in rows || rows[id].status != Done) then "hold"
      else "ready"
    ensures var d := PlanOf(p, pass, key, m, cands, rows)[i];
      if pass.Stub? || !p.registry[if ruled in p.registry then ruled else "needs-human"].dispatchable then
        d.verdict == ruled
      else d.verdict in {ruled, "defer"}
  {
    DuplicateReads(rows, cands[i]);
    OnlyReadyDefers(p, pass, key, m, cands, rows, i);
  }

  /** Lock conflict: a ranked row is put behind the others exactly if a running row holds its key. */
  lemma SerializedReads(p: Config, pass: Pass, key: CacheKey, m: Cache, cands: seq<Candidate>, rows: Rows, i: nat)
    requires i < |cands| && PlanOf(p, pass, key, m, cands, rows)[i].rank > 0
    requires PlanOf(p, pass, key, m, cands, rows)[i].verdict != "defer"
    ensures PlanOf(p, pass, key, m, cands, rows)[i].serialized <==>
              && p.resolveLock(cands[i].notes) != ""
              && exists id | id in rows ::
                rows[id].status == Running && rows[id].lockKey == p.resolveLock(cands[i].notes)
  {
    PlannedAt(p, pass, key, m, cands, rows, i);
    OnlyReadyDefers(p, pass, key, m, cands, rows, i);
    assert DecidedAll(p, cands, rows)[i] == Decided(p, cands[i], rows);
    LocksRead(rows, p.resolveLock(cands[i].notes));
  }

  lemma LocksRead(rows: Rows, lock: string)
    ensures lock in WorldOf(rows).locks <==>
      lock != "" && exists id | id in rows :: rows[id].status == Running && rows[id].lockKey == lock
  {
  }

  /** Score without a model: the candidate's priority, and a thousand on top when it is due within
      the configured time or overdue. */
  lemma StubScoreReads(p: Config, key: CacheKey, m: Cache, cands: seq<Candidate>, rows: Rows, i: nat)
    requires i < |cands| && PlanOf(p, Stub, key, m, cands, rows)[i].rank > 0
    ensures var n := p.parseNotes(cands[i].notes);
      PlanOf(p, Stub, key, m, cands, rows)[i].score ==
        p.parsePriority(cands[i].priority) +
        if p.rules.boostIfDueWithin > 0 && n.due != "" && p.parseDue(n.due).Some?
           && p.parseDue(n.due).value <= p.now + p.rules.boostIfDueWithin
        then 1000.0 else 0.0
  {
    PlannedAt(p, Stub, key, m, cands, rows, i);
    assert DecidedAll(p, cands, rows)[i] == Decided(p, cands[i], rows);
  }

  /** A decision under a model's answer: deferred, with score 0; or the model's own number; and the
      reason is the model's rationale when it gave one. */
  lemma AnswerReads(p: Config, d: Planned, r: ScoreResult)
    ensures var e := ScoredBy(p, d, T.Some(r));
      if r.deferred then
        && e.verdict == "defer" && e.score == 0.0 && !e.serialized && e.candidate == d.candidate
        && e.reason == if T.TrimSpace(r.reason) == "" then "llm scorer: deferred (not now)"
                       else "llm scorer: " + T.TrimSpace(r.reason)
      else
        && e.verdict == d.verdict && e.status == d.status && e.serialized == d.serialized && e.candidate == d.candidate
        && (r.score.Finite? ==> e.score == r.score.value)
        && e.reason == if T.TrimSpace(r.reason) == "" then d.reason else "llm scorer: " + T.TrimSpace(r.reason)
  {
  }

  /** Each candidate that goes to the model is decided by the model's answer for that very candidate,
      whatever the chunks and the cache: deferred, or with the model's number, or with the stub score
      when the number is not finite. */
  lemma JudgmentReads(p: Config, pass: Pass, key: CacheKey, m: Cache, cands: seq<Candidate>, rows: Rows, i: nat,
                      f: Candidate -> ScoreResult)
    requires Pointwise(pass, f) && Sound(key, f, m) && Covers(pass, |cands|)
    requires i < |cands| && ToDispatch(p, Decided(p, cands[i], rows))
    ensures var d, r := PlanOf(p, pass, key, m, cands, rows)[i], f(cands[i]);
      if r.deferred then d.verdict == "defer" && d.score == 0.0
      else
        && d.verdict == Decided(p, cands[i], rows).verdict
        && d.score == if r.score.Finite? then r.score.value else StubScore(p, cands[i])
  {
    var ds := DecidedAll(p, cands, rows);
    assert ds[i] == Decided(p, cands[i], rows);
    PlannedAt(p, pass, key, m, cands, rows, i);
    ReadyCandidate(p, ds, i);
    ReadySize(p, ds, |ds|);
    PointwiseSlot(pass, key, m, CandidatesAt(ds, ReadyUpTo(p, ds, |ds|)), |ReadyUpTo(p, ds, i)|, f);
  }
}
