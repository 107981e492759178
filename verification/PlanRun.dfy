/** `Plan` step by step (internal/manage/plan.go, rules.go, scoring.go): it computes
    `Planner.PlanOf`. */
module PlanRun {
  import opened Collections
  import opened Tasks
  import opened Planning
  import opened Scoring
  import opened Planner
  import PlanColumns
  import T = Text

  // ---- the rules ----

  method SnapshotWorld(repo: TaskRepo) returns (w: World, err: Error)
    modifies repo`faulted
    ensures repo.faulted == (old(repo.faulted) || err == Fault) && err in {Nil, Fault}
    ensures err == Nil ==> w == WorldOf(repo.rows)
  {
    w := World({}, {});
    var finished, running;
    var f := ListFilter([Done, Skipped], 0, false);
    finished, err := repo.List(f);
    if err != Nil { return; }
    var keys := {};
    for i := 0 to |finished|
      invariant repo.faulted == old(repo.faulted)
      invariant keys == FinishedKeys(repo.rows, finished[..i])
    {
      var t := repo.rows[finished[i]];
      assert finished[..i + 1] == finished[..i] + [finished[i]];
      FinishedKeysNext(repo.rows, finished[..i], finished[i]);
      if t.externalId != "" { keys := keys + {DupKey(t.source, t.externalId)}; }
    }
    assert finished[..|finished|] == finished;
    ListsAll(repo.rows, f, finished);
    var g := ListFilter([Running], 0, false);
    running, err := repo.List(g);
    if err != Nil { return; }
    var locks := {};
    for i := 0 to |running|
      invariant repo.faulted == old(repo.faulted)
      invariant locks == LocksHeld(repo.rows, running[..i])
    {
      var t := repo.rows[running[i]];
      assert running[..i + 1] == running[..i] + [running[i]];
      LocksHeldNext(repo.rows, running[..i], running[i]);
      if t.lockKey != "" { locks := locks + {t.lockKey}; }
    }
    assert running[..|running|] == running;
    ListsAll(repo.rows, g, running);
    SnapshotIsWorld(repo.rows, finished, running);
    w := World(keys, locks);
  }

  ghost function FinishedKeys(rows: Rows, ids: seq<Id>): set<string> {
    set id | id in ids && id in rows && rows[id].externalId != "" :: DupKey(rows[id].source, rows[id].externalId)
  }

  ghost function LocksHeld(rows: Rows, ids: seq<Id>): set<string> {
    set id | id in ids && id in rows && rows[id].lockKey != "" :: rows[id].lockKey
  }

  lemma FinishedKeysNext(rows: Rows, ids: seq<Id>, next: Id)
    requires next in rows
    ensures FinishedKeys(rows, ids + [next]) == FinishedKeys(rows, ids) +
      if rows[next].externalId != "" then {DupKey(rows[next].source, rows[next].externalId)} else {}
  {
    forall k | k in FinishedKeys(rows, ids) ensures k in FinishedKeys(rows, ids + [next]) {
      var id :| id in ids && id in rows && rows[id].externalId != "" &&
        DupKey(rows[id].source, rows[id].externalId) == k;
      assert id in ids + [next];
    }
    assert next in ids + [next];
  }

  lemma LocksHeldNext(rows: Rows, ids: seq<Id>, next: Id)
    requires next in rows
    ensures LocksHeld(rows, ids + [next]) == LocksHeld(rows, ids) +
      if rows[next].lockKey != "" then {rows[next].lockKey} else {}
  {
    forall k | k in LocksHeld(rows, ids) ensures k in LocksHeld(rows, ids + [next]) {
      var id :| id in ids && id in rows && rows[id].lockKey != "" && rows[id].lockKey == k;
      assert id in ids + [next];
    }
    assert next in ids + [next];
  }

  lemma SnapshotIsWorld(rows: Rows, finished: seq<Id>, running: seq<Id>)
    requires forall id :: id in finished <==> id in rows && rows[id].status in {Done, Skipped}
    requires forall id :: id in running <==> id in rows && rows[id].status == Running
    ensures World(FinishedKeys(rows, finished), LocksHeld(rows, running)) == WorldOf(rows)
  {
    assert FinishedKeys(rows, finished) == WorldOf(rows).finished;
    assert LocksHeld(rows, running) == WorldOf(rows).locks;
  }

  lemma ListsAll(rows: Rows, f: ListFilter, ids: seq<Id>)
    requires IsListing(rows, f, ids) && f.limit == 0
    ensures forall id :: id in ids <==> id in rows && Matches(f, rows[id])
  {
  }

  method DepsIncomplete(repo: TaskRepo, deps: seq<Id>) returns (incomplete: bool, err: Error)
    modifies repo`faulted
    ensures repo.faulted == (old(repo.faulted) || err == Fault) && err in {Nil, Fault}
    ensures err == Nil ==> (incomplete <==> exists id | id in deps :: !IsDone(repo.rows, id))
  {
    for i := 0 to |deps|
      invariant repo.faulted == old(repo.faulted)
      invariant forall j | 0 <= j < i :: IsDone(repo.rows, deps[j])
    {
      var t;
      t, err := repo.Get(deps[i]);
      assert deps[i] in deps;
      if err == NotFound { return true, Nil; }
      if err != Nil { return false, err; }
      if t.status != Done { return true, Nil; }
    }
    return false, Nil;
  }

  method CutOff(repo: TaskRepo, p: Config, c: Candidate, n: Notes, w: World) returns (cut: (string, string), err: Error)
    modifies repo`faulted
    ensures repo.faulted == (old(repo.faulted) || err == Fault) && err in {Nil, Fault}
    ensures err == Nil ==> cut == Cutoff(p, c, n, w, repo.rows)
  {
    if p.rules.dropIfCwdViolation {
      var cwd := n.cwd;
      if cwd == "" { cwd := p.defaultCwd; }
      if !p.cwdAllowed(cwd) {
        return (DROP, CWD_VIOLATION), Nil;
      }
    }
    if c.externalId != "" && DupKey(c.source, c.externalId) in w.finished {
      return (DROP, DUPLICATE), Nil;
    }
    if p.rules.escalateIfBodyEmpty && T.TrimSpace(c.title) == "" {
      return (NEEDS_HUMAN, NO_TITLE), Nil;
    }
    if p.rules.blockIfDepsIncomplete && |n.dependsOn| > 0 {
      var incomplete;
      incomplete, err := DepsIncomplete(repo, n.dependsOn);
      if err != Nil { return ("", ""), err; }
      if incomplete {
        return (HOLD, DEPS_INCOMPLETE), Nil;
      }
    }
    return ("", ""), Nil;
  }

  /** The verdict and policy of one candidate, before scoring. */
  method Decide(repo: TaskRepo, p: Config, c: Candidate, w: World) returns (d: Planned, err: Error)
    requires w == WorldOf(repo.rows)
    modifies repo`faulted
    ensures repo.faulted == (old(repo.faulted) || err == Fault) && err in {Nil, Fault}
    ensures err == Nil ==> d == Decided(p, c, repo.rows)
  {
    var verdict, reason := c.verdict, c.reason;
    if verdict == "" {
      var cut;
      cut, err := CutOff(repo, p, c, p.parseNotes(c.notes), w);
      if err != Nil { return Planned(c, "", Pending, "", 0.0, 0, false), err; }
      if cut.0 != "" {
        verdict, reason := cut.0, cut.1;
      } else {
        verdict, reason := READY, CLEARED;
      }
    }
    var policy := PolicyFor(p.registry, verdict);
    d := Planned(c, verdict, policy.status, reason, 0.0, 0, false);
    if policy.dispatchable { d := d.(serialized := LockConflict(p, c, w)); }
    err := Nil;
  }

  // ---- scoring in place ----

  /** The ready rows before place j are scored, all others are as they were. */
  ghost predicate ScoredSoFar(p: Config, pass: Pass, key: CacheKey, m: Cache, was: seq<Planned>, now: seq<Planned>,
                              j: nat)
  {
    && |now| == |was|
    && forall i: nat | i < |was| ::
      now[i] ==
        if ToDispatch(p, was[i]) && |ReadyUpTo(p, was, i)| < j then ScoredAt(p, pass, key, m, was, i) else was[i]
  }

  method ScoreReady(p: Config, pass: Pass, key: CacheKey, cache: MemoryScoreCache?, decisions: array<Planned>,
                    readyIdx: seq<nat>)
    requires readyIdx == ReadyUpTo(p, decisions[..], decisions.Length)
    modifies decisions, cache
    ensures decisions[..] == Scored(p, pass, key, old(Held(cache)), old(decisions[..]))
    ensures cache != null ==> cache.m == CacheLeft(p, pass, key, old(Held(cache)), old(decisions[..]))
  {
    ghost var was, m := decisions[..], Held(cache);
    if pass.Stub? {
      for j := 0 to |readyIdx|
        invariant ScoredSoFar(p, pass, key, m, was, decisions[..], j)
        invariant cache != null ==> cache.m == m
      {
        ScoreOne(p, pass, key, m, was, decisions, readyIdx, j, T.None);
      }
      AllScored(p, pass, key, m, was, decisions[..]);
    } else {
      var cands := CandidatesAt(decisions[..], readyIdx);
      var results, asked := LlmScore(pass, key, cache, cands);
      TakeResults(p, pass, key, m, decisions, readyIdx, results[..]);
    }
  }

  /** What the pass leaves in a cache. */
  ghost function CacheLeft(p: Config, pass: Pass, key: CacheKey, m: Cache, ds: seq<Planned>): Cache {
    if pass.Stub? then m else CacheAfter(pass, key, m, CandidatesAt(ds, ReadyUpTo(p, ds, |ds|)))
  }

  /** So from an empty cache on, every run of `Plan` meets the condition of cache transparency. */
  lemma PlanKeepsCacheSound(p: Config, pass: Pass, key: CacheKey, m: Cache, ds: seq<Planned>,
                            f: Candidate -> ScoreResult)
    requires Pointwise(pass, f) && KeyDetermines(key, f) && Sound(key, f, m)
    ensures Sound(key, f, CacheLeft(p, pass, key, m, ds)) && Sound(key, f, map[])
  {
    var cands := CandidatesAt(ds, ReadyUpTo(p, ds, |ds|));
    CacheStaysSound(pass, key, m, cands, Uncached(key, m, cands), |Uncached(key, m, cands)|, f);
  }

  method TakeResults(p: Config, pass: Pass, ghost key: CacheKey, ghost m: Cache, decisions: array<Planned>,
                     readyIdx: seq<nat>, results: seq<Slot>)
    requires pass.Llm? && readyIdx == ReadyUpTo(p, decisions[..], decisions.Length) && |results| == |readyIdx|
    requires forall j: nat | j < |results| ::
      results[j] == SlotOf(pass, key, m, CandidatesAt(decisions[..], readyIdx), j)
    modifies decisions
    ensures decisions[..] == Scored(p, pass, key, m, old(decisions[..]))
  {
    ghost var was := decisions[..];
    for j := 0 to |readyIdx|
      invariant ScoredSoFar(p, pass, key, m, was, decisions[..], j)
    {
      ScoreOne(p, pass, key, m, was, decisions, readyIdx, j, results[j]);
    }
    AllScored(p, pass, key, m, was, decisions[..]);
  }

  lemma AllScored(p: Config, pass: Pass, key: CacheKey, m: Cache, was: seq<Planned>, now: seq<Planned>)
    requires ScoredSoFar(p, pass, key, m, was, now, |ReadyUpTo(p, was, |was|)|)
    ensures now == Scored(p, pass, key, m, was)
  {
    forall i: nat | i < |was| ensures now[i] == ScoredAt(p, pass, key, m, was, i) {
      if ToDispatch(p, was[i]) { ReadyPlace(p, was, i, |was|); }
    }
  }

  method ScoreOne(p: Config, ghost pass: Pass, ghost key: CacheKey, ghost m: Cache, ghost was: seq<Planned>,
                  decisions: array<Planned>, readyIdx: seq<nat>, j: nat, r: Slot)
    requires readyIdx == ReadyUpTo(p, was, |was|) && j < |readyIdx|
    requires ScoredSoFar(p, pass, key, m, was, decisions[..], j)
    requires r == SlotOf(pass, key, m, CandidatesAt(was, readyIdx), j)
    modifies decisions
    ensures ScoredSoFar(p, pass, key, m, was, decisions[..], j + 1)
  {
    var i := readyIdx[j];
    PlaceOfReady(p, was, j, |was|);
    ghost var before := decisions[..];
    var d := decisions[i];
    if r.None? {
      d := d.(score := StubScore(p, d.candidate));
    } else if r.value.deferred {
      d := Demoted(p, d, r.value.reason);
    } else {
      d := d.(score := if r.value.score.Finite? then r.value.score.value else 0.0);
      d := d.(reason := ModelReason(r.value.reason, d.reason));
    }
    decisions[i] := d;
    assert d == ScoredAt(p, pass, key, m, was, i);
    ScoredNext(p, pass, key, m, was, before, decisions[..], j);
  }

  lemma ScoredNext(p: Config, pass: Pass, key: CacheKey, m: Cache, was: seq<Planned>, before: seq<Planned>,
                   now: seq<Planned>, j: nat)
    requires j < |ReadyUpTo(p, was, |was|)|
    requires ScoredSoFar(p, pass, key, m, was, before, j)
    requires var i := ReadyUpTo(p, was, |was|)[j]; now == before[i := ScoredAt(p, pass, key, m, was, i)]
    ensures ScoredSoFar(p, pass, key, m, was, now, j + 1)
  {
    PlaceOfReady(p, was, j, |was|);
    forall i: nat | i < |was| && ToDispatch(p, was[i]) && |ReadyUpTo(p, was, i)| == j
      ensures i == ReadyUpTo(p, was, |was|)[j]
    {
      ReadyPlace(p, was, i, |was|);
    }
  }

  // ---- ranking in place ----

  /** The comparison handed to the sort. */
  predicate Less(a: Planned, b: Planned) {
    if a.serialized != b.serialized then !a.serialized else a.score > b.score
  }

  predicate SortedPart(ds: seq<Planned>, idx: seq<nat>)
    requires Indices(idx, |ds|)
  {
    forall a, b | 0 <= a < b < |idx| :: GoesBefore(ds, idx[a], idx[b])
  }

  predicate Ascending(idx: seq<nat>) {
    forall a, b | 0 <= a < b < |idx| :: idx[a] < idx[b]
  }

  /** While the entry at place j sinks: everything else up to i is sorted, the entry goes before
      all it has passed, and came after all of them in input order; what follows i is untouched. */
  ghost predicate Sinking(ds: seq<Planned>, idx: seq<nat>, j: int, i: nat) {
    && 0 <= j <= i < |idx| && Indices(idx, |ds|)
    && (forall a, b | 0 <= a < b <= i && a != j && b != j :: GoesBefore(ds, idx[a], idx[b]))
    && (forall b | j < b <= i :: GoesBefore(ds, idx[j], idx[b]))
    && (forall a | 0 <= a < j :: idx[a] < idx[j])
    && (forall a, b | 0 <= a < b < |idx| && i < b :: idx[a] < idx[b])
  }

  function Swapped(idx: seq<nat>, j: int): seq<nat>
    requires 0 < j < |idx|
  {
    idx[j := idx[j - 1]][j - 1 := idx[j]]
  }

  lemma SinkOne(ds: seq<Planned>, idx: seq<nat>, j: int, i: nat)
    requires 0 < j && Sinking(ds, idx, j, i) && Less(ds[idx[j]], ds[idx[j - 1]])
    ensures Sinking(ds, Swapped(idx, j), j - 1, i)
    ensures multiset(Swapped(idx, j)) == multiset(idx)
  {
  }

  lemma Sunk(ds: seq<Planned>, idx: seq<nat>, j: int, i: nat)
    requires Sinking(ds, idx, j, i)
    requires j > 0 ==> !Less(ds[idx[j]], ds[idx[j - 1]])
    ensures PartlySorted(ds, idx, i + 1)
  {
    if j > 0 {
      assert GoesBefore(ds, idx[j - 1], idx[j]);
      forall a | 0 <= a < j ensures GoesBefore(ds, idx[a], idx[j]) {
        if a < j - 1 { assert GoesBefore(ds, idx[a], idx[j - 1]); }
      }
    }
  }

  /** The part before i is sorted, and what follows is as it was: ascending and larger. */
  ghost predicate PartlySorted(ds: seq<Planned>, idx: seq<nat>, i: nat) {
    && i <= |idx| && Indices(idx, |ds|) && SortedPart(ds, idx[..i])
    && forall a, b | 0 <= a < b < |idx| && i <= b :: idx[a] < idx[b]
  }

  lemma SinkStart(ds: seq<Planned>, idx: seq<nat>, i: nat)
    requires PartlySorted(ds, idx, i) && i < |idx|
    ensures Sinking(ds, idx, i, i)
  {
    forall a, b | 0 <= a < b < i ensures GoesBefore(ds, idx[a], idx[b]) {
      assert GoesBefore(ds, idx[..i][a], idx[..i][b]);
    }
  }

  method Sink(ds: seq<Planned>, idx: array<nat>, i: nat)
    requires PartlySorted(ds, idx[..], i) && i < idx.Length
    modifies idx
    ensures multiset(idx[..]) == multiset(old(idx[..]))
    ensures PartlySorted(ds, idx[..], i + 1)
  {
    var j: int := i;
    SinkStart(ds, idx[..], i);
    while j > 0 && Less(ds[idx[j]], ds[idx[j - 1]])
      invariant multiset(idx[..]) == multiset(old(idx[..]))
      invariant Sinking(ds, idx[..], j, i)
    {
      SinkOne(ds, idx[..], j, i);
      ghost var next := Swapped(idx[..], j);
      idx[j], idx[j - 1] := idx[j - 1], idx[j];
      assert idx[..] == next;
      j := j - 1;
    }
    Sunk(ds, idx[..], j, i);
  }

  /** sort.SliceStable: afterwards the same indices stand in the order of the plan. */
  method SortStable(ds: seq<Planned>, idx: array<nat>)
    requires Indices(idx[..], |ds|) && Ascending(idx[..])
    modifies idx
    ensures multiset(idx[..]) == multiset(old(idx[..]))
    ensures Indices(idx[..], |ds|) && SortedPart(ds, idx[..])
  {
    for i := 0 to idx.Length
      invariant multiset(idx[..]) == multiset(old(idx[..]))
      invariant PartlySorted(ds, idx[..], i)
    {
      Sink(ds, idx, i);
    }
    assert idx[..idx.Length] == idx[..];
  }

  lemma {:induction false} ReadyAscends(p: Config, ds: seq<Planned>, n: nat)
    requires n <= |ds|
    ensures Ascending(ReadyUpTo(p, ds, n))
  {
    if n > 0 { ReadyAscends(p, ds, n - 1); }
  }

  lemma SortedIsOrder(p: Config, ds: seq<Planned>, order: seq<nat>)
    requires multiset(order) == multiset(ReadyUpTo(p, ds, |ds|))
    requires Indices(order, |ds|) && SortedPart(ds, order)
    ensures IsOrder(p, ds, order)
  {
    var ready := ReadyUpTo(p, ds, |ds|);
    assert forall i :: i in order <==> i in multiset(order);
    assert forall i :: i in ready <==> i in multiset(ready);
    forall i: nat | i in ready ensures i in Ready(p, ds) {
      var j :| 0 <= j < |ready| && ready[j] == i;
      PlaceOfReady(p, ds, j, |ds|);
    }
    forall i | i in Ready(p, ds) ensures i in ready {
      ReadyPlace(p, ds, i, |ds|);
    }
    forall k | 0 <= k < |order| ensures order[k] in Ready(p, ds) {
      assert order[k] in order;
    }
  }

  /** The ranks of the first n rows of the order are stamped. */
  ghost predicate Stamped(ds: seq<Planned>, now: seq<Planned>, order: seq<nat>, n: nat) {
    && |now| == |ds| && Indices(order, |ds|) && n <= |order|
    && (forall i: nat | i < |ds| && i !in order[..n] :: now[i] == ds[i])
    && (forall k | 0 <= k < n :: now[order[k]] == ds[order[k]].(rank := k + 1))
  }

  lemma StampNext(ds: seq<Planned>, now: seq<Planned>, order: seq<nat>, k: nat)
    requires Stamped(ds, now, order, k) && k < |order|
    requires forall a, b | 0 <= a < b < |order| :: order[a] != order[b]
    ensures now[order[k]] == ds[order[k]]
    ensures Stamped(ds, now[order[k] := ds[order[k]].(rank := k + 1)], order, k + 1)
  {
    assert order[..k + 1] == order[..k] + [order[k]];
    assert order[k] !in order[..k];
  }

  method Stamp(decisions: array<Planned>, order: seq<nat>)
    requires Indices(order, decisions.Length) && forall a, b | 0 <= a < b < |order| :: order[a] != order[b]
    modifies decisions
    ensures Stamped(old(decisions[..]), decisions[..], order, |order|)
  {
    for k := 0 to |order|
      invariant Stamped(old(decisions[..]), decisions[..], order, k)
    {
      StampNext(old(decisions[..]), decisions[..], order, k);
      decisions[order[k]] := decisions[order[k]].(rank := k + 1);
    }
  }

  method RankReady(p: Config, decisions: array<Planned>, readyIdx: array<nat>)
    requires readyIdx[..] == ReadyUpTo(p, decisions[..], decisions.Length)
    requires forall i | 0 <= i < decisions.Length :: decisions[i].rank == 0
    modifies decisions, readyIdx
    ensures decisions[..] == Ranked(p, old(decisions[..]))
    ensures IsOrder(p, old(decisions[..]), readyIdx[..])
  {
    ghost var ds := decisions[..];
    ReadyAscends(p, ds, |ds|);
    SortStable(decisions[..], readyIdx);
    SortedIsOrder(p, ds, readyIdx[..]);
    OrderDistinct(p, ds, readyIdx[..]);
    Stamp(decisions, readyIdx[..]);
    StampedIsRanked(p, ds, decisions[..], readyIdx[..]);
  }

  lemma OrderDistinct(p: Config, ds: seq<Planned>, order: seq<nat>)
    requires IsOrder(p, ds, order)
    ensures forall a, b | 0 <= a < b < |order| :: order[a] != order[b]
  {
    forall a, b | 0 <= a < b < |order| ensures order[a] != order[b] {
      assert GoesBefore(ds, order[a], order[b]);
    }
  }

  lemma StampedIsRanked(p: Config, ds: seq<Planned>, now: seq<Planned>, order: seq<nat>)
    requires IsOrder(p, ds, order) && Stamped(ds, now, order, |order|)
    requires forall i | 0 <= i < |ds| :: ds[i].rank == 0
    ensures now == Ranked(p, ds)
  {
    assert order[..|order|] == order;
    forall i: nat | i < |ds| ensures now[i] == ds[i].(rank := Rank(p, ds, i)) {
      if ToDispatch(p, ds[i]) {
        assert i in Ready(p, ds);
        var k :| 0 <= k < |order| && order[k] == i;
        SortedRank(p, ds, order, k);
      } else {
        assert i !in Ready(p, ds);
      }
    }
  }

  // ---- the whole run ----

  method DecideAll(repo: TaskRepo, p: Config, cands: seq<Candidate>)
    returns (decisions: seq<Planned>, readyIdx: seq<nat>, err: Error)
    modifies repo`faulted
    ensures repo.faulted == (old(repo.faulted) || err == Fault) && err in {Nil, Fault}
    ensures err == Nil ==>
      decisions == DecidedAll(p, cands, repo.rows) && readyIdx == ReadyUpTo(p, decisions, |decisions|)
  {
    decisions, readyIdx := [], [];
    var w;
    w, err := SnapshotWorld(repo);
    if err != Nil { return; }
    for i := 0 to |cands|
      invariant repo.faulted == old(repo.faulted)
      invariant DecidedSoFar(p, cands, repo.rows, decisions, readyIdx, i)
    {
      var d;
      d, err := Decide(repo, p, cands[i], w);
      if err != Nil { return; }
      DecidedNext(p, cands, repo.rows, decisions, readyIdx, i);
      if PolicyFor(p.registry, d.verdict).dispatchable { readyIdx := readyIdx + [i]; }
      decisions := decisions + [d];
    }
    err := Nil;
  }

  ghost predicate DecidedSoFar(p: Config, cands: seq<Candidate>, rows: Rows, decisions: seq<Planned>,
                               readyIdx: seq<nat>, n: nat)
  {
    && n <= |cands| && |decisions| == n
    && (forall h | 0 <= h < n :: decisions[h] == Decided(p, cands[h], rows))
    && readyIdx == ReadyUpTo(p, decisions, n)
  }

  lemma DecidedNext(p: Config, cands: seq<Candidate>, rows: Rows, decisions: seq<Planned>, readyIdx: seq<nat>, n: nat)
    requires n < |cands| && DecidedSoFar(p, cands, rows, decisions, readyIdx, n)
    ensures var d := Decided(p, cands[n], rows);
      DecidedSoFar(p, cands, rows, decisions + [d], if ToDispatch(p, d) then readyIdx + [n] else readyIdx, n + 1)
  {
    ReadyPrefix(p, decisions, [Decided(p, cands[n], rows)], n);
  }

  lemma {:induction false} ReadyPrefix(p: Config, ds: seq<Planned>, more: seq<Planned>, n: nat)
    requires n <= |ds|
    ensures ReadyUpTo(p, ds + more, n) == ReadyUpTo(p, ds, n)
  {
    if n > 0 { ReadyPrefix(p, ds, more, n - 1); }
  }

  /** The ready rows left after scoring. */
  method StillReady(p: Config, ghost was: seq<Planned>, decisions: seq<Planned>, readyIdx: seq<nat>)
    returns (final: seq<nat>)
    requires |decisions| == |was| && readyIdx == ReadyUpTo(p, was, |was|)
    requires forall i | 0 <= i < |was| :: !ToDispatch(p, was[i]) ==> decisions[i] == was[i]
    ensures final == ReadyUpTo(p, decisions, |decisions|)
  {
    final := [];
    for j := 0 to |readyIdx|
      invariant final == Kept(p, decisions, readyIdx[..j])
    {
      assert readyIdx[..j + 1] == readyIdx[..j] + [readyIdx[j]];
      if PolicyFor(p.registry, decisions[readyIdx[j]].verdict).dispatchable { final := final + [readyIdx[j]]; }
    }
    assert readyIdx[..|readyIdx|] == readyIdx;
    KeptIsReady(p, was, decisions, |was|);
  }

  ghost function Kept(p: Config, ds: seq<Planned>, idx: seq<nat>): seq<nat>
    requires Indices(idx, |ds|)
  {
    if idx == [] then []
    else
      var last := idx[|idx| - 1];
      Kept(p, ds, idx[..|idx| - 1]) + if ToDispatch(p, ds[last]) then [last] else []
  }

  lemma {:induction false} KeptIsReady(p: Config, was: seq<Planned>, ds: seq<Planned>, n: nat)
    requires |ds| == |was| && n <= |was|
    requires forall i | 0 <= i < |was| :: !ToDispatch(p, was[i]) ==> ds[i] == was[i]
    ensures Kept(p, ds, ReadyUpTo(p, was, n)) == ReadyUpTo(p, ds, n)
  {
    if n > 0 {
      KeptIsReady(p, was, ds, n - 1);
      var ready := ReadyUpTo(p, was, n);
      if ToDispatch(p, was[n - 1]) {
        assert ready[..|ready| - 1] == ReadyUpTo(p, was, n - 1);
      } else {
        assert ready == ReadyUpTo(p, was, n - 1);
      }
    }
  }

  /** The ready rows of a finished plan, best first. */
  ghost predicate IsReadyList(p: Config, ds: seq<Planned>, ready: seq<Planned>) {
    && |ready| == |Ready(p, ds)|
    && forall k | 0 <= k < |ready| :: ready[k] in ds && ToDispatch(p, ready[k]) && ready[k].rank == k + 1
  }

  method Plan(repo: TaskRepo, p: Config, pass: Pass, key: CacheKey, cache: MemoryScoreCache?, cands: seq<Candidate>)
    returns (ready: seq<Planned>, decisions: seq<Planned>, err: Error)
    modifies repo`faulted, cache
    ensures repo.faulted == (old(repo.faulted) || err == Fault) && err in {Nil, Fault}
    ensures err == Nil ==> decisions == PlanOf(p, pass, key, old(Held(cache)), cands, repo.rows)
    ensures err == Nil ==> |ready| == |Ready(p, decisions)|
    ensures err == Nil ==> forall k | 0 <= k < |ready| :: ready[k] in decisions && ready[k].rank == k + 1
    ensures err == Nil ==> forall i | 0 <= i < |decisions| && decisions[i].rank > 0 :: decisions[i] in ready
    ensures err == Nil ==> |decisions| == |cands| && forall i | 0 <= i < |cands| :: decisions[i].candidate == cands[i]
    ensures err == Nil ==> forall i, j | 0 <= i < |decisions| && 0 <= j < |decisions| && i != j &&
      decisions[i].rank > 0 && decisions[j].rank > 0 ::
        && decisions[i].rank != decisions[j].rank
        && (!decisions[i].serialized && decisions[j].serialized ==> decisions[i].rank < decisions[j].rank)
        && (decisions[i].serialized == decisions[j].serialized && decisions[i].score > decisions[j].score ==>
              decisions[i].rank < decisions[j].rank)
        && (decisions[i].serialized == decisions[j].serialized && decisions[i].score == decisions[j].score && i < j ==>
              decisions[i].rank < decisions[j].rank)
    ensures cache != null && err != Nil ==> cache.m == old(cache.m)
    ensures cache != null && err == Nil ==>
      cache.m == CacheLeft(p, pass, key, old(cache.m), DecidedAll(p, cands, repo.rows))
  {
    ready := [];
    var readyIdx;
    decisions, readyIdx, err := DecideAll(repo, p, cands);
    if err != Nil { return; }
    ready, decisions := ScoreAndRank(p, pass, key, cache, decisions, readyIdx);
    PlanReads(p, pass, key, old(Held(cache)), cands, repo.rows, decisions);
    AllInReady(p, Scored(p, pass, key, old(Held(cache)), DecidedAll(p, cands, repo.rows)), ready);
  }

  lemma AllInReady(p: Config, ds: seq<Planned>, ready: seq<Planned>)
    requires IsReadyList(p, Ranked(p, ds), ready)
    ensures forall i | 0 <= i < |ds| && Ranked(p, ds)[i].rank > 0 :: Ranked(p, ds)[i] in ready
  {
    assert Ready(p, Ranked(p, ds)) == Ready(p, ds);
    forall i: nat | i < |ds| && Ranked(p, ds)[i].rank > 0 ensures Ranked(p, ds)[i] in ready {
      var d := Ranked(p, ds)[i];
      assert i in Ready(p, ds);
      SubsetSmaller(Ahead(p, ds, i), Ready(p, ds), i);
      var j :| 0 <= j < |ds| && Ranked(p, ds)[j] == ready[d.rank - 1];
      assert j in Ready(p, ds);
      if i != j { RankOrder(p, ds, i, j); }
    }
  }

  lemma PlanReads(p: Config, pass: Pass, key: CacheKey, m: Cache, cands: seq<Candidate>, rows: Rows,
                  ds: seq<Planned>)
    requires ds == PlanOf(p, pass, key, m, cands, rows)
    ensures |ds| == |cands| && forall i | 0 <= i < |cands| :: ds[i].candidate == cands[i]
    ensures forall i, j | 0 <= i < |ds| && 0 <= j < |ds| && i != j && ds[i].rank > 0 && ds[j].rank > 0 ::
      && ds[i].rank != ds[j].rank
      && (!ds[i].serialized && ds[j].serialized ==> ds[i].rank < ds[j].rank)
      && (ds[i].serialized == ds[j].serialized && ds[i].score > ds[j].score ==> ds[i].rank < ds[j].rank)
      && (ds[i].serialized == ds[j].serialized && ds[i].score == ds[j].score && i < j ==> ds[i].rank < ds[j].rank)
  {
    forall i: nat | i < |cands| ensures ds[i].candidate == cands[i] {
      OnlyReadyDefers(p, pass, key, m, cands, rows, i);
    }
    forall i: nat, j: nat | i < |ds| && j < |ds| && i != j && ds[i].rank > 0 && ds[j].rank > 0
      ensures ds[i].rank != ds[j].rank
      ensures !ds[i].serialized && ds[j].serialized ==> ds[i].rank < ds[j].rank
      ensures ds[i].serialized == ds[j].serialized && ds[i].score > ds[j].score ==> ds[i].rank < ds[j].rank
      ensures ds[i].serialized == ds[j].serialized && ds[i].score == ds[j].score && i < j ==> ds[i].rank < ds[j].rank
    {
      PlanColumns.RankReads(p, pass, key, m, cands, rows, i, j);
    }
  }

  method ScoreAndRank(p: Config, pass: Pass, key: CacheKey, cache: MemoryScoreCache?, was: seq<Planned>,
                      readyIdx: seq<nat>)
    returns (ready: seq<Planned>, decisions: seq<Planned>)
    requires readyIdx == ReadyUpTo(p, was, |was|)
    requires forall i | 0 <= i < |was| :: was[i].rank == 0
    modifies cache
    ensures decisions == Ranked(p, Scored(p, pass, key, old(Held(cache)), was))
    ensures IsReadyList(p, decisions, ready)
    ensures cache != null ==> cache.m == CacheLeft(p, pass, key, old(Held(cache)), was)
  {
    var slice := new Planned[|was|](i requires 0 <= i < |was| => was[i]);
    assert slice[..] == was;
    ScoreReady(p, pass, key, cache, slice, readyIdx);
    var final := StillReady(p, was, slice[..], readyIdx);
    ready, decisions := RankAll(p, slice, final);
  }

  method RankAll(p: Config, slice: array<Planned>, final: seq<nat>)
    returns (ready: seq<Planned>, decisions: seq<Planned>)
    requires final == ReadyUpTo(p, slice[..], slice.Length)
    requires forall i | 0 <= i < slice.Length :: slice[i].rank == 0
    modifies slice
    ensures decisions == Ranked(p, old(slice[..])) && IsReadyList(p, decisions, ready)
  {
    ghost var ds := slice[..];
    var order := new nat[|final|](i requires 0 <= i < |final| => final[i]);
    assert order[..] == final;
    RankReady(p, slice, order);
    decisions := slice[..];
    ready := PickReady(decisions, order[..]);
    ReadyListed(p, ds, order[..]);
  }

  method PickReady(decisions: seq<Planned>, order: seq<nat>) returns (ready: seq<Planned>)
    requires Indices(order, |decisions|)
    ensures ready == Picked(decisions, order)
  {
    ready := [];
    for k := 0 to |order|
      invariant ready == Picked(decisions, order[..k])
    {
      assert order[..k + 1] == order[..k] + [order[k]];
      ready := ready + [decisions[order[k]]];
    }
    assert order[..|order|] == order;
  }

  function Picked(ds: seq<Planned>, order: seq<nat>): seq<Planned>
    requires Indices(order, |ds|)
  {
    seq(|order|, k requires 0 <= k < |order| => ds[order[k]])
  }

  lemma ReadyListed(p: Config, ds: seq<Planned>, order: seq<nat>)
    requires IsOrder(p, ds, order) && Indices(order, |ds|)
    ensures IsReadyList(p, Ranked(p, ds), Picked(Ranked(p, ds), order))
  {
    var ranked := Ranked(p, ds);
    var ready := Picked(ranked, order);
    forall k: nat | k < |ready| ensures ready[k] in ranked && ToDispatch(p, ready[k]) && ready[k].rank == k + 1 {
      SortedRank(p, ds, order, k);
      assert order[k] in Ready(p, ds);
      assert ready[k] == ranked[order[k]];
    }
    OrderDistinct(p, ds, order);
    DistinctSize<int>(order);
    assert (set i | i in order) == Ready(p, ds) == Ready(p, ranked);
  }
}
