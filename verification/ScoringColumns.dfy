/** The scoring pass read slot by slot (internal/manage/scoring.go, llmScore): which call of the model
    carries a candidate, at which place, and what becomes of the answer. */
module ScoringColumns {
  import opened Collections
  import opened Planning
  import opened Scoring
  import T = Text

  /** The candidates before the i-th that the cache does not answer. */
  function UncachedBefore(key: CacheKey, m: Cache, cands: seq<Candidate>, i: nat): set<int>
    requires i <= |cands|
  {
    set h | 0 <= h < i && key(cands[h]) !in m
  }

  lemma {:induction false} MissesCount(key: CacheKey, m: Cache, cands: seq<Candidate>, i: nat)
    requires i <= |cands|
    ensures |Misses(key, m, cands, i)| == |UncachedBefore(key, m, cands, i)|
  {
    if i > 0 {
      MissesCount(key, m, cands, i - 1);
      assert UncachedBefore(key, m, cands, i) ==
        UncachedBefore(key, m, cands, i - 1) + if key(cands[i - 1]) in m then {} else {i - 1};
    } else {
      assert UncachedBefore(key, m, cands, 0) == {};
    }
  }

  lemma PlaceInChunk(q: nat, batch: nat)
    requires batch > 0
    ensures q - Start(batch, q / batch) == q % batch
  {
    StartIs(batch, q / batch);
  }

  /** An uncached candidate, the q-th of them, goes to call q / b of the model, if the budget has that
      many calls, at place q % b, in the company of uncached candidates only; b is the batch size, or
      the number of all uncached ones.  Its slot is the answer at that place, if the call answered one
      for one and this answer is deferred or finite; otherwise it is empty. */
  lemma MissReads(pass: Pass, key: CacheKey, m: Cache, cands: seq<Candidate>, i: nat, q: nat, b: nat)
    returns (items: seq<Candidate>)
    requires pass.Llm? && i < |cands| && key(cands[i]) !in m
    requires q == |UncachedBefore(key, m, cands, i)|
    requires b == if pass.batchSize > 0 then pass.batchSize else |UncachedBefore(key, m, cands, |cands|)|
    ensures b > 0 && q % b < |items| <= b && items[q % b] == cands[i]
    ensures forall c | c in items :: c in cands && key(c) !in m
    ensures SlotOf(pass, key, m, cands, i) ==
      if q / b >= (if pass.maxCalls <= 0 then 1 else pass.maxCalls) then T.None
      else
        var results := pass.scorer(q / b, items);
        if results.Some? && |results.value| == |items|
           && (results.value[q % b].deferred || results.value[q % b].score.Finite?)
        then T.Some(results.value[q % b])
        else T.None
  {
    MissesCount(key, m, cands, i);
    MissesCount(key, m, cands, |cands|);
    MissPlace(key, m, cands, i, |cands|);
    items := CallOf(pass, key, m, cands, i, q, b);
    PlaceInChunk(q, b);
  }

  lemma CallOf(pass: Pass, key: CacheKey, m: Cache, cands: seq<Candidate>, i: nat, q: nat, b: nat)
    returns (items: seq<Candidate>)
    requires pass.Llm? && i < |cands| && key(cands[i]) !in m
    requires q == |Misses(key, m, cands, i)| && b == BatchSize(pass, |Uncached(key, m, cands)|) && b > 0
    ensures Start(b, q / b) <= q < Start(b, q / b) + |items| && |items| <= b && items[q - Start(b, q / b)] == cands[i]
    ensures forall c | c in items :: c in cands && key(c) !in m
    ensures SlotOf(pass, key, m, cands, i) ==
      if q / b >= MaxCalls(pass) then T.None
      else Reply(pass.scorer(q / b, items), |items|, q - Start(b, q / b))
  {
    var pending := Uncached(key, m, cands);
    var k, j := OneChunk(pass, key, m, cands, i);
    NoOtherChunk(key, m, cands, i, b, k, j);
    items := Items(cands, Chunk(pending, b, k));
    ItemsUncached(key, m, cands, b, k);
  }

  lemma ItemsUncached(key: CacheKey, m: Cache, cands: seq<Candidate>, b: nat, k: nat)
    requires b > 0
    ensures Indices(Chunk(Uncached(key, m, cands), b, k), |cands|)
    ensures forall c | c in Items(cands, Chunk(Uncached(key, m, cands), b, k)) :: c in cands && key(c) !in m
  {
    var chunk := Chunk(Uncached(key, m, cands), b, k);
    forall x: nat | x < |chunk| ensures key(cands[chunk[x]]) !in m {
      ChunkEntry(Uncached(key, m, cands), b, k, x);
      PendingOnce(key, m, cands, Start(b, k) + x, Start(b, k) + x);
    }
  }

  /** An entry of the cache afterwards: one it had, or the answer to some candidate. */
  ghost predicate Entry(pass: Pass, key: CacheKey, m: Cache, cands: seq<Candidate>, s: string, r: ScoreResult) {
    if s in m then r == m[s]
    else exists i | 0 <= i < |cands| :: key(cands[i]) == s && SlotOf(pass, key, m, cands, i) == T.Some(r)
  }

  lemma AnswerIsEntry(pass: Pass, key: CacheKey, m: Cache, cands: seq<Candidate>, q: nat)
    requires pass.Llm? && q < |Uncached(key, m, cands)| && Answer(pass, cands, Uncached(key, m, cands), q).Some?
    ensures Entry(pass, key, m, cands, key(cands[Uncached(key, m, cands)[q]]),
                  Answer(pass, cands, Uncached(key, m, cands), q).value)
  {
    var i := Uncached(key, m, cands)[q];
    PendingOnce(key, m, cands, q, q);
    PlaceOfMiss(key, m, cands, q, |cands|);
    assert SlotOf(pass, key, m, cands, i) == Answer(pass, cands, Uncached(key, m, cands), q);
  }

  lemma StoredLast(pass: Pass, key: CacheKey, m: Cache, cands: seq<Candidate>, n: nat, s: string)
    requires pass.Llm? && 0 < n <= |Uncached(key, m, cands)|
    requires s in Stored(pass, key, m, cands, Uncached(key, m, cands), n)
    ensures var pending := Uncached(key, m, cands);
      var before, after := Stored(pass, key, m, cands, pending, n - 1), Stored(pass, key, m, cands, pending, n);
      var answer := Answer(pass, cands, pending, n - 1);
      if answer.Some? && s == key(cands[pending[n - 1]]) then after[s] == answer.value
      else s in before && after[s] == before[s]
  {
  }

  lemma {:induction false} StoredReads(pass: Pass, key: CacheKey, m: Cache, cands: seq<Candidate>, n: nat, s: string)
    requires pass.Llm? && n <= |Uncached(key, m, cands)|
    requires s in Stored(pass, key, m, cands, Uncached(key, m, cands), n)
    ensures Entry(pass, key, m, cands, s, Stored(pass, key, m, cands, Uncached(key, m, cands), n)[s])
  {
    if n > 0 {
      var pending := Uncached(key, m, cands);
      StoredLast(pass, key, m, cands, n, s);
      if Answer(pass, cands, pending, n - 1).Some? && s == key(cands[pending[n - 1]]) {
        AnswerIsEntry(pass, key, m, cands, n - 1);
      } else {
        StoredReads(pass, key, m, cands, n - 1, s);
      }
    }
  }

  lemma {:induction false} StoredKeeps(pass: Pass, key: CacheKey, m: Cache, cands: seq<Candidate>, n: nat)
    requires pass.Llm? && n <= |Uncached(key, m, cands)|
    ensures m.Keys <= Stored(pass, key, m, cands, Uncached(key, m, cands), n).Keys
  {
    if n > 0 { StoredKeeps(pass, key, m, cands, n - 1); }
  }

  lemma {:induction false} StoredGrows(pass: Pass, key: CacheKey, m: Cache, cands: seq<Candidate>, n: nat, q: nat)
    requires pass.Llm? && q < n <= |Uncached(key, m, cands)|
    requires Answer(pass, cands, Uncached(key, m, cands), q).Some?
    ensures key(cands[Uncached(key, m, cands)[q]]) in Stored(pass, key, m, cands, Uncached(key, m, cands), n)
  {
    if q < n - 1 { StoredGrows(pass, key, m, cands, n - 1, q); }
  }

  /** The cache answers the candidates it knows, and afterwards it holds what it held, and the answers
      to uncached candidates under their keys. */
  lemma CacheReads(pass: Pass, key: CacheKey, m: Cache, cands: seq<Candidate>)
    requires pass.Llm?
    ensures var after := CacheAfter(pass, key, m, cands);
      && m.Keys <= after.Keys
      && (forall i: nat | i < |cands| && key(cands[i]) in m ::
            SlotOf(pass, key, m, cands, i) == T.Some(m[key(cands[i])]))
      && (forall s | s in after :: if s in m then after[s] == m[s]
            else exists i | 0 <= i < |cands| ::
              key(cands[i]) == s && SlotOf(pass, key, m, cands, i) == T.Some(after[s]))
      && (forall i: nat | i < |cands| && SlotOf(pass, key, m, cands, i).Some? && key(cands[i]) !in m ::
            key(cands[i]) in after)
  {
    var pending := Uncached(key, m, cands);
    StoredKeeps(pass, key, m, cands, |pending|);
    forall s | s in CacheAfter(pass, key, m, cands)
      ensures Entry(pass, key, m, cands, s, CacheAfter(pass, key, m, cands)[s])
    {
      StoredReads(pass, key, m, cands, |pending|, s);
    }
    forall i: nat | i < |cands| && SlotOf(pass, key, m, cands, i).Some? && key(cands[i]) !in m
      ensures key(cands[i]) in CacheAfter(pass, key, m, cands)
    {
      MissPlace(key, m, cands, i, |cands|);
      StoredGrows(pass, key, m, cands, |pending|, |Misses(key, m, cands, i)|);
    }
  }
}
