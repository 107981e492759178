/** The whole plan as a function of the candidates and the table (internal/manage/plan.go,
    rules.go, scoring.go), and its properties.  Module `PlanRun` computes it. */
module Planner {
  import opened Tasks
  import opened Planning
  import opened Scoring
  import T = Text

  // ---- the plan as a function ----

  function DecidedAll(p: Config, cands: seq<Candidate>, rows: Rows): seq<Planned> {
    seq(|cands|, i requires 0 <= i < |cands| => Decided(p, cands[i], rows))
  }

  /** The indices below n that go to the scoring pass. */
  function ReadyUpTo(p: Config, ds: seq<Planned>, n: nat): (ready: seq<nat>)
    requires n <= |ds|
    ensures Indices(ready, n)
  {
    if n == 0 then []
    else ReadyUpTo(p, ds, n - 1) + if ToDispatch(p, ds[n - 1]) then [n - 1] else []
  }

  function CandidatesAt(ds: seq<Planned>, idx: seq<nat>): (cands: seq<Candidate>)
    requires Indices(idx, |ds|)
  {
    seq(|idx|, j requires 0 <= j < |idx| => ds[idx[j]].candidate)
  }

  lemma {:induction false} ReadyPlace(p: Config, ds: seq<Planned>, i: nat, n: nat)
    requires i < n <= |ds| && ToDispatch(p, ds[i])
    ensures var j := |ReadyUpTo(p, ds, i)|; j < |ReadyUpTo(p, ds, n)| && ReadyUpTo(p, ds, n)[j] == i
  {
    if i < n - 1 { ReadyPlace(p, ds, i, n - 1); }
  }

  lemma {:induction false} PlaceOfReady(p: Config, ds: seq<Planned>, j: nat, n: nat)
    requires n <= |ds| && j < |ReadyUpTo(p, ds, n)|
    ensures var i := ReadyUpTo(p, ds, n)[j]; ToDispatch(p, ds[i]) && |ReadyUpTo(p, ds, i)| == j
  {
    if j < |ReadyUpTo(p, ds, n - 1)| { PlaceOfReady(p, ds, j, n - 1); }
  }

  const DEFERRED := "llm scorer: deferred (not now)"

  /** The model's rationale as a reason, or `otherwise` when it gave none. */
  function ModelReason(reason: string, otherwise: string): string {
    if T.TrimSpace(reason) != "" then "llm scorer: " + T.TrimSpace(reason) else otherwise
  }

  function Demoted(p: Config, d: Planned, reason: string): Planned {
    d.(verdict := DEFER, status := PolicyFor(p.registry, DEFER).status, score := 0.0, serialized := false,
       reason := ModelReason(reason, DEFERRED))
  }

  /** A ready decision under its slot; an empty slot means the stub. */
  function ScoredBy(p: Config, d: Planned, slot: Slot): Planned {
    match slot
    case None => d.(score := StubScore(p, d.candidate))
    case Some(r) =>
      if r.deferred then Demoted(p, d, r.reason)
      else
        d.(score := if r.score.Finite? then r.score.value else 0.0,
           reason := ModelReason(r.reason, d.reason))
  }

  /** The slot of the i-th decision: that of its place among the ready ones. */
  function SlotFor(p: Config, pass: Pass, key: CacheKey, m: Cache, ds: seq<Planned>, i: nat): Slot
    requires i < |ds| && ToDispatch(p, ds[i])
  {
    ReadyPlace(p, ds, i, |ds|);
    SlotOf(pass, key, m, CandidatesAt(ds, ReadyUpTo(p, ds, |ds|)), |ReadyUpTo(p, ds, i)|)
  }

  function ScoredAt(p: Config, pass: Pass, key: CacheKey, m: Cache, ds: seq<Planned>, i: nat): Planned
    requires i < |ds|
  {
    if ToDispatch(p, ds[i]) then ScoredBy(p, ds[i], SlotFor(p, pass, key, m, ds, i)) else ds[i]
  }

  function Scored(p: Config, pass: Pass, key: CacheKey, m: Cache, ds: seq<Planned>): seq<Planned> {
    seq(|ds|, i requires 0 <= i < |ds| => ScoredAt(p, pass, key, m, ds, i))
  }

  /** The decisions of a run, one per candidate in input order. */
  function PlanOf(p: Config, pass: Pass, key: CacheKey, m: Cache, cands: seq<Candidate>, rows: Rows): seq<Planned> {
    Ranked(p, Scored(p, pass, key, m, DecidedAll(p, cands, rows)))
  }

  // ---- properties of the plan ----

  /** The scoring pass keeps every verdict, except that a ready row may become deferred. */
  lemma OnlyReadyDefers(p: Config, pass: Pass, key: CacheKey, m: Cache, cands: seq<Candidate>, rows: Rows, i: nat)
    requires i < |cands|
    ensures var before, after := Decided(p, cands[i], rows), PlanOf(p, pass, key, m, cands, rows)[i];
      && after.candidate == cands[i]
      && after.status == PolicyFor(p.registry, after.verdict).status
      && (after.verdict == before.verdict || (ToDispatch(p, before) && after.verdict == DEFER))
      && (!ToDispatch(p, before) ==> after == before)
  {
    var ds := DecidedAll(p, cands, rows);
    assert ds[i] == Decided(p, cands[i], rows);
    if ToDispatch(p, ds[i]) { ScoredByKeeps(p, ds[i], SlotFor(p, pass, key, m, ds, i)); }
  }

  lemma ScoredByKeeps(p: Config, d: Planned, slot: Slot)
    ensures var e := ScoredBy(p, d, slot);
      && e.candidate == d.candidate
      && ((e.verdict == d.verdict && e.status == d.status)
          || (e.verdict == DEFER && e.status == PolicyFor(p.registry, DEFER).status))
  {
  }

  ghost predicate AlwaysFails(pass: Pass) {
    pass.Llm? && forall k, items :: pass.scorer(k, items) == T.None
  }

  lemma FailingSlot(pass: Pass, key: CacheKey, m: Cache, cands: seq<Candidate>, i: nat)
    requires AlwaysFails(pass) && i < |cands| && key(cands[i]) !in m
    ensures SlotOf(pass, key, m, cands, i) == T.None
  {
    MissPlace(key, m, cands, i, |cands|);
    FailingAnswer(pass, cands, Uncached(key, m, cands), |Misses(key, m, cands, i)|);
  }

  lemma FailingAnswer(pass: Pass, cands: seq<Candidate>, pending: seq<nat>, q: nat)
    requires AlwaysFails(pass) && q < |pending| && Indices(pending, |cands|)
    ensures Answer(pass, cands, pending, q) == T.None
  {
    InChunk(pending, BatchSize(pass, |pending|), q / BatchSize(pass, |pending|), q);
  }

  lemma ReadyCandidate(p: Config, ds: seq<Planned>, i: nat)
    requires i < |ds| && ToDispatch(p, ds[i])
    ensures var cands, j := CandidatesAt(ds, ReadyUpTo(p, ds, |ds|)), |ReadyUpTo(p, ds, i)|;
      j < |cands| && cands[j] == ds[i].candidate
  {
    ReadyPlace(p, ds, i, |ds|);
  }

  /** A model that fails on every call leaves exactly the plan of having none, as long as the
      cache answers no candidate. */
  lemma FailingScorer(p: Config, pass: Pass, key: CacheKey, m: Cache, cands: seq<Candidate>, rows: Rows)
    requires AlwaysFails(pass)
    requires forall c | c in cands :: key(c) !in m
    ensures PlanOf(p, pass, key, m, cands, rows) == PlanOf(p, Stub, key, m, cands, rows)
  {
    var ds := DecidedAll(p, cands, rows);
    forall i: nat | i < |ds| ensures ScoredAt(p, pass, key, m, ds, i) == ScoredAt(p, Stub, key, m, ds, i) {
      if ToDispatch(p, ds[i]) {
        ReadyCandidate(p, ds, i);
        FailingSlot(pass, key, m, CandidatesAt(ds, ReadyUpTo(p, ds, |ds|)), |ReadyUpTo(p, ds, i)|);
      }
    }
    assert Scored(p, pass, key, m, ds) == Scored(p, Stub, key, m, ds);
  }

  /** The model judges each candidate by itself. */
  ghost predicate Pointwise(pass: Pass, f: Candidate -> ScoreResult) {
    pass.Llm? && forall k, items :: pass.scorer(k, items) == T.Some(Mapped(f, items))
  }

  function Mapped(f: Candidate -> ScoreResult, items: seq<Candidate>): seq<ScoreResult> {
    seq(|items|, j requires 0 <= j < |items| => f(items[j]))
  }

  /** Candidates that share a key share their judgment. */
  ghost predicate KeyDetermines(key: CacheKey, f: Candidate -> ScoreResult) {
    forall c, d :: key(c) == key(d) ==> f(c) == f(d)
  }

  /** Every entry is what the model would say. */
  ghost predicate Sound(key: CacheKey, f: Candidate -> ScoreResult, m: Cache) {
    forall c: Candidate :: key(c) in m ==> m[key(c)] == f(c) && ValidScore(f(c))
  }

  /** The budget covers n candidates. */
  predicate Covers(pass: Pass, n: nat)
    requires pass.Llm?
  {
    pass.batchSize <= 0 || n <= pass.batchSize * MaxCalls(pass)
  }

  lemma WithinBudget(pass: Pass, n: nat, pending: nat, q: nat)
    requires pass.Llm? && Covers(pass, n) && q < pending <= n
    ensures q / BatchSize(pass, pending) < MaxCalls(pass)
  {
    var batch, calls := BatchSize(pass, pending), MaxCalls(pass);
    if pass.batchSize <= 0 {
      Divides(q, batch, 0);
    } else {
      StartIs(batch, calls);
      BudgetReached(batch, calls, q);
    }
  }

  lemma BudgetReached(batch: nat, calls: nat, q: nat)
    requires batch > 0 && q < Start(batch, calls)
    ensures q / batch < calls
  {
    Divides(q, batch, q / batch);
    if q / batch >= calls { StartGrows(batch, calls, q / batch); }
  }

  function JudgedSlot(f: Candidate -> ScoreResult, c: Candidate): Slot {
    if ValidScore(f(c)) then T.Some(f(c)) else T.None
  }

  lemma AnswerIsJudgment(pass: Pass, cands: seq<Candidate>, pending: seq<nat>, q: nat, f: Candidate -> ScoreResult)
    requires Pointwise(pass, f) && Indices(pending, |cands|) && q < |pending|
    ensures Answer(pass, cands, pending, q) ==
      if q / BatchSize(pass, |pending|) < MaxCalls(pass) then JudgedSlot(f, cands[pending[q]]) else T.None
  {
    var batch := BatchSize(pass, |pending|);
    InChunk(pending, batch, q / batch, q);
  }

  lemma PointwiseSlot(pass: Pass, key: CacheKey, m: Cache, cands: seq<Candidate>, i: nat, f: Candidate -> ScoreResult)
    requires Pointwise(pass, f) && Sound(key, f, m) && Covers(pass, |cands|) && i < |cands|
    ensures SlotOf(pass, key, m, cands, i) == JudgedSlot(f, cands[i])
  {
    if key(cands[i]) !in m {
      var pending := Uncached(key, m, cands);
      var q := |Misses(key, m, cands, i)|;
      MissPlace(key, m, cands, i, |cands|);
      AnswerIsJudgment(pass, cands, pending, q, f);
      WithinBudget(pass, |cands|, |pending|, q);
    }
  }

  /** Cache transparency: with a sound cache the plan is the plan without one. */
  lemma CacheTransparent(p: Config, pass: Pass, key: CacheKey, m: Cache, cands: seq<Candidate>, rows: Rows,
                         f: Candidate -> ScoreResult)
    requires Pointwise(pass, f) && Sound(key, f, m) && Covers(pass, |cands|)
    ensures PlanOf(p, pass, key, m, cands, rows) == PlanOf(p, pass, key, map[], cands, rows)
  {
    var ds := DecidedAll(p, cands, rows);
    var ready := ReadyUpTo(p, ds, |ds|);
    ReadySize(p, ds, |ds|);
    var items := CandidatesAt(ds, ready);
    assert Covers(pass, |items|);
    forall i | 0 <= i < |ds| ensures ScoredAt(p, pass, key, m, ds, i) == ScoredAt(p, pass, key, map[], ds, i) {
      if ToDispatch(p, ds[i]) {
        ReadyPlace(p, ds, i, |ds|);
        PointwiseSlot(pass, key, m, items, |ReadyUpTo(p, ds, i)|, f);
        PointwiseSlot(pass, key, map[], items, |ReadyUpTo(p, ds, i)|, f);
      }
    }
    assert Scored(p, pass, key, m, ds) == Scored(p, pass, key, map[], ds);
  }

  lemma {:induction false} ReadySize(p: Config, ds: seq<Planned>, n: nat)
    requires n <= |ds|
    ensures |ReadyUpTo(p, ds, n)| <= n
  {
    if n > 0 { ReadySize(p, ds, n - 1); }
  }

  /** A run keeps the cache sound when a key determines the judgment. */
  lemma {:induction false} CacheStaysSound(pass: Pass, key: CacheKey, m: Cache, cands: seq<Candidate>,
                                           pending: seq<nat>, n: nat, f: Candidate -> ScoreResult)
    requires Pointwise(pass, f) && KeyDetermines(key, f) && Sound(key, f, m)
    requires Indices(pending, |cands|) && n <= |pending|
    ensures Sound(key, f, Stored(pass, key, m, cands, pending, n))
  {
    if n > 0 {
      CacheStaysSound(pass, key, m, cands, pending, n - 1, f);
      AnswerIsJudgment(pass, cands, pending, n - 1, f);
    }
  }
}
