/** The scoring pass (internal/manage/scoring.go): ready candidates go to a language model in
    chunks, under a call budget, behind a cache, with the stub score as the fallback. */
module Scoring {
  import opened Tasks
  import opened Planning
  import T = Text

  datatype Num = Finite(value: real) | NotFinite

  datatype ScoreResult = ScoreResult(score: Num, deferred: bool, reason: string)

  predicate ValidScore(r: ScoreResult) {
    r.deferred || r.score.Finite?
  }

  type Slot = T.Option<ScoreResult>

  /** What the model answers to the k-th call of a run; `None` is an error.  Nothing is assumed of it. */
  type Scorer = (nat, seq<Candidate>) -> T.Option<seq<ScoreResult>>

  type CacheKey = Candidate -> string

  datatype Pass = Stub | Llm(scorer: Scorer, batchSize: int, maxCalls: int)

  type Cache = map<string, ScoreResult>

  // ---- the pass as a function ----

  function MaxCalls(pass: Pass): nat
    requires pass.Llm?
  {
    if pass.maxCalls <= 0 then 1 else pass.maxCalls
  }

  function BatchSize(pass: Pass, pending: nat): nat
    requires pass.Llm?
  {
    if pass.batchSize <= 0 then pending else pass.batchSize
  }

  /** The indices below n that the cache does not answer. */
  function Misses(key: CacheKey, m: Cache, cands: seq<Candidate>, n: nat): (misses: seq<nat>)
    requires n <= |cands|
    ensures forall q | 0 <= q < |misses| :: misses[q] < n
    ensures |misses| <= n
  {
    if n == 0 then []
    else Misses(key, m, cands, n - 1) + if key(cands[n - 1]) in m then [] else [n - 1]
  }

  predicate Indices(pending: seq<nat>, n: nat) {
    forall q | 0 <= q < |pending| :: pending[q] < n
  }

  /** The k-th chunk of the pending indices. */
  function Chunk(pending: seq<nat>, batch: nat, k: nat): (chunk: seq<nat>)
    ensures |chunk| <= batch
  {
    var start := Start(batch, k);
    if start > |pending| then []
    else if start + batch <= |pending| then pending[start..start + batch] else pending[start..]
  }

  function Items(cands: seq<Candidate>, chunk: seq<nat>): (items: seq<Candidate>)
    requires Indices(chunk, |cands|)
  {
    seq(|chunk|, j requires 0 <= j < |chunk| => cands[chunk[j]])
  }

  function Reply(results: T.Option<seq<ScoreResult>>, items: nat, j: nat): Slot
    requires j < items
  {
    if results.Some? && |results.value| == items && ValidScore(results.value[j]) then
      T.Some(results.value[j])
    else T.None
  }

  /** What the run makes of the q-th pending index. */
  function Answer(pass: Pass, cands: seq<Candidate>, pending: seq<nat>, q: nat): Slot
    requires pass.Llm? && q < |pending| && Indices(pending, |cands|)
  {
    var batch := BatchSize(pass, |pending|);
    var k := q / batch;
    InChunk(pending, batch, k, q);
    if k >= MaxCalls(pass) then T.None
    else
      var items := Items(cands, Chunk(pending, batch, k));
      Reply(pass.scorer(k, items), |items|, q - Start(batch, k))
  }

  /** Where the k-th chunk starts. */
  function Start(batch: nat, k: nat): nat {
    if k == 0 then 0 else Start(batch, k - 1) + batch
  }

  lemma {:induction false} StartIs(batch: nat, k: nat)
    ensures Start(batch, k) == k * batch
  {
    if k > 0 {
      StartIs(batch, k - 1);
      assert (k - 1) * batch + batch == k * batch;
    }
  }

  lemma {:induction false} StartGrows(batch: nat, k: nat, l: nat)
    requires k <= l
    ensures Start(batch, k) <= Start(batch, l)
    decreases l
  {
    if k < l { StartGrows(batch, k, l - 1); }
  }

  lemma Divided(q: nat, batch: nat)
    requires batch > 0
    ensures q / batch >= 0
    ensures Start(batch, q / batch) <= q < Start(batch, q / batch) + batch
  {
    StartIs(batch, q / batch);
  }

  lemma Divides(q: nat, batch: nat, k: nat)
    requires batch > 0
    ensures q / batch == k <==> Start(batch, k) <= q < Start(batch, k) + batch
    ensures q / batch >= 0
  {
    var d := q / batch;
    Divided(q, batch);
    if d < k { StartGrows(batch, d + 1, k); }
    if k < d { StartGrows(batch, k + 1, d); }
  }

  /** The chunk of number q / batch holds the pending entry q, at place q % batch. */
  lemma InChunk(pending: seq<nat>, batch: nat, k: nat, q: nat)
    requires batch > 0 && k == q / batch && q < |pending|
    ensures Start(batch, k) <= q < Start(batch, k) + |Chunk(pending, batch, k)|
    ensures Chunk(pending, batch, k)[q - Start(batch, k)] == pending[q]
  {
    Divides(q, batch, k);
  }

  /** A chunk's entries are the pending entries from the chunk's start on. */
  lemma ChunkEntry(pending: seq<nat>, batch: nat, k: nat, j: nat)
    requires batch > 0 && j < |Chunk(pending, batch, k)|
    ensures Start(batch, k) + j < |pending| && Chunk(pending, batch, k)[j] == pending[Start(batch, k) + j]
    ensures (Start(batch, k) + j) / batch == k
  {
    Divides(0, batch, k);
    Divides(Start(batch, k) + j, batch, k);
  }

  function Uncached(key: CacheKey, m: Cache, cands: seq<Candidate>): seq<nat> {
    Misses(key, m, cands, |cands|)
  }

  /** A miss stands in the pending list behind the misses before it. */
  lemma {:induction false} MissPlace(key: CacheKey, m: Cache, cands: seq<Candidate>, i: nat, n: nat)
    requires i < n <= |cands| && key(cands[i]) !in m
    ensures var q := |Misses(key, m, cands, i)|; q < |Misses(key, m, cands, n)| && Misses(key, m, cands, n)[q] == i
  {
    if i < n - 1 { MissPlace(key, m, cands, i, n - 1); }
  }

  /** And every entry of the pending list is such a miss. */
  lemma {:induction false} PlaceOfMiss(key: CacheKey, m: Cache, cands: seq<Candidate>, q: nat, n: nat)
    requires n <= |cands| && q < |Misses(key, m, cands, n)|
    ensures var i := Misses(key, m, cands, n)[q]; key(cands[i]) !in m && |Misses(key, m, cands, i)| == q
  {
    if q < |Misses(key, m, cands, n - 1)| { PlaceOfMiss(key, m, cands, q, n - 1); }
  }

  /** The slot of one candidate: the cache's answer, or the model's. */
  function SlotOf(pass: Pass, key: CacheKey, m: Cache, cands: seq<Candidate>, i: nat): Slot
    requires i < |cands|
  {
    if pass.Stub? then T.None
    else if key(cands[i]) in m then T.Some(m[key(cands[i])])
    else
      MissPlace(key, m, cands, i, |cands|);
      Answer(pass, cands, Uncached(key, m, cands), |Misses(key, m, cands, i)|)
  }

  /** The cache after the answers to the first n pending indices have been put. */
  function Stored(pass: Pass, key: CacheKey, m: Cache, cands: seq<Candidate>, pending: seq<nat>, n: nat): Cache
    requires pass.Llm? && n <= |pending| && Indices(pending, |cands|)
  {
    if n == 0 then m
    else
      var before := Stored(pass, key, m, cands, pending, n - 1);
      match Answer(pass, cands, pending, n - 1)
      case None => before
      case Some(r) => before[key(cands[pending[n - 1]]) := r]
  }

  // ---- chunks ----

  lemma PlaceIs(key: CacheKey, m: Cache, cands: seq<Candidate>, i: nat, q: nat)
    requires i < |cands| && q < |Uncached(key, m, cands)| && Uncached(key, m, cands)[q] == i
    ensures q == |Misses(key, m, cands, i)|
  {
    PlaceOfMiss(key, m, cands, q, |cands|);
  }

  /** An uncached candidate is in no other chunk than its own, and there only once. */
  lemma NoOtherChunk(key: CacheKey, m: Cache, cands: seq<Candidate>, i: nat, batch: nat, k: nat, j: nat)
    requires i < |cands| && batch > 0
    requires j < |Chunk(Uncached(key, m, cands), batch, k)| && Chunk(Uncached(key, m, cands), batch, k)[j] == i
    ensures Start(batch, k) + j == |Misses(key, m, cands, i)|
    ensures k == |Misses(key, m, cands, i)| / batch
  {
    var q := Start(batch, k) + j;
    ChunkEntry(Uncached(key, m, cands), batch, k, j);
    PlaceIs(key, m, cands, i, q);
  }

  lemma UniqueChunk(key: CacheKey, m: Cache, cands: seq<Candidate>, i: nat, batch: nat) returns (k: nat, j: nat)
    requires i < |cands| && batch > 0 && key(cands[i]) !in m
    ensures k == |Misses(key, m, cands, i)| / batch && j == |Misses(key, m, cands, i)| - Start(batch, k)
    ensures var chunk := Chunk(Uncached(key, m, cands), batch, k);
      && j < |chunk| && chunk[j] == i
      && (forall j' | 0 <= j' < |chunk| && chunk[j'] == i :: j' == j)
    ensures forall k': nat | i in Chunk(Uncached(key, m, cands), batch, k') :: k' == k
  {
    var q := |Misses(key, m, cands, i)|;
    MissPlace(key, m, cands, i, |cands|);
    k := q / batch;
    InChunk(Uncached(key, m, cands), batch, k, q);
    j := q - Start(batch, k);
    forall k': nat, j': nat | j' < |Chunk(Uncached(key, m, cands), batch, k')| &&
      Chunk(Uncached(key, m, cands), batch, k')[j'] == i
      ensures k' == k && Start(batch, k') + j' == q
    {
      NoOtherChunk(key, m, cands, i, batch, k', j');
    }
  }

  /** Every uncached candidate falls into exactly one chunk, once; within the budget its slot holds
      the model's answer at that candidate's own place in the call that carried it, or nothing. */
  lemma OneChunk(pass: Pass, key: CacheKey, m: Cache, cands: seq<Candidate>, i: nat) returns (k: nat, j: nat)
    requires pass.Llm? && i < |cands| && key(cands[i]) !in m
    ensures var pending := Uncached(key, m, cands);
      var batch := BatchSize(pass, |pending|);
      var chunk := Chunk(pending, batch, k);
      && j < |chunk| <= batch && chunk[j] == i
      && (forall j' | 0 <= j' < |chunk| && chunk[j'] == i :: j' == j)
      && (forall k': nat | i in Chunk(pending, batch, k') :: k' == k)
      && SlotOf(pass, key, m, cands, i) ==
           if k >= MaxCalls(pass) then T.None
           else Reply(pass.scorer(k, Items(cands, chunk)), |chunk|, j)
  {
    var pending := Uncached(key, m, cands);
    MissPlace(key, m, cands, i, |cands|);
    k, j := UniqueChunk(key, m, cands, i, BatchSize(pass, |pending|));
    AnswerAt(pass, cands, pending, k, j);
  }

  // ---- the pass as it runs ----

  class MemoryScoreCache {
    var m: Cache

    constructor ()
      ensures m == map[]
    {
      m := map[];
    }

    method Get(key: string) returns (r: Slot)
      ensures r == if key in m then T.Some(m[key]) else T.None
    {
      if key in m { r := T.Some(m[key]); } else { r := T.None; }
    }

    method Put(key: string, r: ScoreResult)
      modifies this
      ensures m == old(m)[key := r]
    {
      m := m[key := r];
    }
  }

  /** What the cache holds; without one, nothing. */
  ghost function Held(cache: MemoryScoreCache?): Cache
    reads cache
  {
    if cache == null then map[] else cache.m
  }

  /** The slots after the cache and the first n pending indices. */
  ghost function SlotsAfter(pass: Pass, key: CacheKey, m: Cache, cands: seq<Candidate>, n: nat): (slots: seq<Slot>)
    requires pass.Llm? && n <= |Uncached(key, m, cands)|
    ensures |slots| == |cands|
  {
    if n == 0 then Hits(key, m, cands)
    else
      var pending := Uncached(key, m, cands);
      SlotsAfter(pass, key, m, cands, n - 1)[pending[n - 1] := Answer(pass, cands, pending, n - 1)]
  }

  function Hits(key: CacheKey, m: Cache, cands: seq<Candidate>): seq<Slot> {
    seq(|cands|, i requires 0 <= i < |cands| => if key(cands[i]) in m then T.Some(m[key(cands[i])]) else T.None)
  }

  /** The pending list names candidates the cache does not answer, each once. */
  lemma PendingOnce(key: CacheKey, m: Cache, cands: seq<Candidate>, q: nat, r: nat)
    requires q < |Uncached(key, m, cands)| && r < |Uncached(key, m, cands)|
    ensures key(cands[Uncached(key, m, cands)[q]]) !in m
    ensures Uncached(key, m, cands)[q] == Uncached(key, m, cands)[r] ==> q == r
  {
    PlaceOfMiss(key, m, cands, q, |cands|);
    PlaceOfMiss(key, m, cands, r, |cands|);
  }

  lemma {:induction false} SlotOfPending(pass: Pass, key: CacheKey, m: Cache, cands: seq<Candidate>, n: nat, q: nat)
    requires pass.Llm? && n <= |Uncached(key, m, cands)| && q < |Uncached(key, m, cands)|
    ensures var pending := Uncached(key, m, cands);
      SlotsAfter(pass, key, m, cands, n)[pending[q]] == if q < n then Answer(pass, cands, pending, q) else T.None
  {
    PendingOnce(key, m, cands, q, q);
    if n > 0 {
      SlotOfPending(pass, key, m, cands, n - 1, q);
      PendingOnce(key, m, cands, q, n - 1);
    }
  }

  lemma {:induction false} SlotOfHit(pass: Pass, key: CacheKey, m: Cache, cands: seq<Candidate>, n: nat, i: nat)
    requires pass.Llm? && n <= |Uncached(key, m, cands)| && i < |cands| && key(cands[i]) in m
    ensures SlotsAfter(pass, key, m, cands, n)[i] == T.Some(m[key(cands[i])])
  {
    if n > 0 {
      SlotOfHit(pass, key, m, cands, n - 1, i);
      PendingOnce(key, m, cands, n - 1, n - 1);
    }
  }

  lemma FinalSlots(pass: Pass, key: CacheKey, m: Cache, cands: seq<Candidate>, i: nat)
    requires pass.Llm? && i < |cands|
    ensures SlotsAfter(pass, key, m, cands, |Uncached(key, m, cands)|)[i] == SlotOf(pass, key, m, cands, i)
  {
    var n := |Uncached(key, m, cands)|;
    if key(cands[i]) in m {
      SlotOfHit(pass, key, m, cands, n, i);
    } else {
      MissPlace(key, m, cands, i, |cands|);
      SlotOfPending(pass, key, m, cands, n, |Misses(key, m, cands, i)|);
    }
  }

  lemma AnswerAt(pass: Pass, cands: seq<Candidate>, pending: seq<nat>, k: nat, j: nat)
    requires pass.Llm? && Indices(pending, |cands|)
    requires j < |Chunk(pending, BatchSize(pass, |pending|), k)|
    ensures var batch := BatchSize(pass, |pending|);
      && Start(batch, k) + j < |pending|
      && Answer(pass, cands, pending, Start(batch, k) + j) ==
           if k >= MaxCalls(pass) then T.None
           else Reply(pass.scorer(k, Items(cands, Chunk(pending, batch, k))), |Chunk(pending, batch, k)|, j)
  {
    ChunkEntry(pending, BatchSize(pass, |pending|), k, j);
  }

  method ResolveHits(key: CacheKey, cache: MemoryScoreCache?, cands: seq<Candidate>, out: array<Slot>)
    returns (pending: seq<nat>)
    requires out.Length == |cands| && forall i | 0 <= i < out.Length :: out[i] == T.None
    modifies out
    ensures pending == Uncached(key, Held(cache), cands)
    ensures forall i | 0 <= i < |cands| ::
      out[i] == if key(cands[i]) in Held(cache) then T.Some(Held(cache)[key(cands[i])]) else T.None
  {
    pending := [];
    for i := 0 to |cands|
      invariant pending == Misses(key, Held(cache), cands, i)
      invariant forall h | 0 <= h < |cands| ::
        out[h] == if h < i && key(cands[h]) in Held(cache) then T.Some(Held(cache)[key(cands[h])]) else T.None
    {
      var hit := T.None;
      if cache != null { hit := cache.Get(key(cands[i])); }
      if hit.Some? {
        out[i] := hit;
      } else {
        pending := pending + [i];
      }
    }
  }

  /** So far the run has settled the first n pending indices, in the slots and in the cache. */
  ghost predicate Progress(pass: Pass, key: CacheKey, m: Cache, cands: seq<Candidate>, out: seq<Slot>,
                           cache: MemoryScoreCache?, n: nat)
    requires pass.Llm?
    reads cache
  {
    && n <= |Uncached(key, m, cands)|
    && out == SlotsAfter(pass, key, m, cands, n)
    && (cache != null ==> cache.m == Stored(pass, key, m, cands, Uncached(key, m, cands), n))
  }

  /** Where nothing is answered nothing is filled in and nothing is put. */
  lemma {:induction false} SkipProgress(pass: Pass, key: CacheKey, m: Cache, cands: seq<Candidate>,
                                        out: seq<Slot>, cache: MemoryScoreCache?, first: nat, last: nat)
    requires pass.Llm? && Progress(pass, key, m, cands, out, cache, first) && first <= last <= |Uncached(key, m, cands)|
    requires forall q | first <= q < last :: Answer(pass, cands, Uncached(key, m, cands), q) == T.None
    ensures Progress(pass, key, m, cands, out, cache, last)
    decreases last
  {
    if first < last {
      SkipProgress(pass, key, m, cands, out, cache, first, last - 1);
      SlotOfPending(pass, key, m, cands, last - 1, last - 1);
    }
  }

  method FillSlot(pass: Pass, key: CacheKey, cache: MemoryScoreCache?, ghost m: Cache, cands: seq<Candidate>,
                  out: array<Slot>, ghost q: nat, idx: nat, r: ScoreResult)
    requires pass.Llm? && Progress(pass, key, m, cands, out[..], cache, q)
    requires q < |Uncached(key, m, cands)| && idx == Uncached(key, m, cands)[q]
    requires Answer(pass, cands, Uncached(key, m, cands), q) == if ValidScore(r) then T.Some(r) else T.None
    modifies out, cache
    ensures Progress(pass, key, m, cands, out[..], cache, q + 1)
  {
    SlotOfPending(pass, key, m, cands, q, q);
    if ValidScore(r) {
      out[idx] := T.Some(r);
      if cache != null { cache.Put(key(cands[idx]), r); }
    }
  }

  method FillChunk(pass: Pass, key: CacheKey, cache: MemoryScoreCache?, ghost m: Cache, cands: seq<Candidate>,
                   out: array<Slot>, ghost start: nat, chunk: seq<nat>, results: seq<ScoreResult>)
    requires pass.Llm? && Progress(pass, key, m, cands, out[..], cache, start)
    requires |results| == |chunk| && start + |chunk| <= |Uncached(key, m, cands)|
    requires chunk == Uncached(key, m, cands)[start..start + |chunk|]
    requires forall q | start <= q < start + |chunk| ::
      Answer(pass, cands, Uncached(key, m, cands), q) ==
        if ValidScore(results[q - start]) then T.Some(results[q - start]) else T.None
    modifies out, cache
    ensures Progress(pass, key, m, cands, out[..], cache, start + |chunk|)
  {
    for j := 0 to |chunk|
      invariant Progress(pass, key, m, cands, out[..], cache, start + j)
    {
      FillSlot(pass, key, cache, m, cands, out, start + j, chunk[j], results[j]);
    }
  }

  /** One call of the model: fills its chunk's slots, or leaves them to the stub. */
  method Call(pass: Pass, key: CacheKey, cache: MemoryScoreCache?, ghost m: Cache, cands: seq<Candidate>,
              out: array<Slot>, k: nat, ghost start: nat, chunk: seq<nat>)
    requires pass.Llm? && Progress(pass, key, m, cands, out[..], cache, start) && k < MaxCalls(pass)
    requires var pending := Uncached(key, m, cands);
      && chunk == Chunk(pending, BatchSize(pass, |pending|), k)
      && start == Start(BatchSize(pass, |pending|), k)
      && start + |chunk| <= |pending| && chunk == pending[start..start + |chunk|]
    modifies out, cache
    ensures Progress(pass, key, m, cands, out[..], cache, start + |chunk|)
  {
    var items := Items(cands, chunk);
    var results := pass.scorer(k, items);
    ChunkAnswers(pass, cands, Uncached(key, m, cands), k, start, chunk, results);
    if results.None? || |results.value| != |items| {
      SkipProgress(pass, key, m, cands, out[..], cache, start, start + |chunk|);
    } else {
      FillChunk(pass, key, cache, m, cands, out, start, chunk, results.value);
    }
  }

  lemma ChunkAnswers(pass: Pass, cands: seq<Candidate>, pending: seq<nat>, k: nat, start: nat, chunk: seq<nat>,
                     results: T.Option<seq<ScoreResult>>)
    requires pass.Llm? && Indices(pending, |cands|) && k < MaxCalls(pass)
    requires chunk == Chunk(pending, BatchSize(pass, |pending|), k)
    requires start == Start(BatchSize(pass, |pending|), k) && start + |chunk| <= |pending|
    requires Indices(chunk, |cands|) && results == pass.scorer(k, Items(cands, chunk))
    ensures if results.None? || |results.value| != |chunk| then
        forall q | start <= q < start + |chunk| :: Answer(pass, cands, pending, q) == T.None
      else
        forall q | start <= q < start + |chunk| ::
          Answer(pass, cands, pending, q) ==
            if ValidScore(results.value[q - start]) then T.Some(results.value[q - start]) else T.None
  {
    forall q | start <= q < start + |chunk|
      ensures Answer(pass, cands, pending, q) == Reply(results, |chunk|, q - start)
    {
      AnswerAt(pass, cands, pending, k, q - start);
    }
  }

  /** One slot per candidate, in order.  `asked` records the chunks that went to the model. */
  method LlmScore(pass: Pass, key: CacheKey, cache: MemoryScoreCache?, cands: seq<Candidate>)
    returns (out: array<Slot>, ghost asked: seq<seq<nat>>)
    requires pass.Llm?
    modifies cache
    ensures fresh(out) && out.Length == |cands|
    ensures forall i | 0 <= i < |cands| :: out[i] == SlotOf(pass, key, old(Held(cache)), cands, i)
    ensures cache != null ==> cache.m == CacheAfter(pass, key, old(Held(cache)), cands)
    ensures Asked(pass, Uncached(key, old(Held(cache)), cands), asked)
  {
    ghost var m := Held(cache);
    out := new Slot[|cands|](i => T.None);
    var pending := ResolveHits(key, cache, cands, out);
    assert out[..] == Hits(key, m, cands);
    asked := CallAll(pass, key, cache, m, cands, pending, out);
    forall i: nat | i < |cands| ensures out[i] == SlotOf(pass, key, m, cands, i) {
      FinalSlots(pass, key, m, cands, i);
      assert out[..][i] == out[i];
    }
  }

  /** The chunks asked are the first ones, at most as many as the budget allows. */
  ghost predicate Asked(pass: Pass, pending: seq<nat>, asked: seq<seq<nat>>)
    requires pass.Llm?
  {
    && |asked| <= MaxCalls(pass)
    && forall k | 0 <= k < |asked| :: asked[k] == Chunk(pending, BatchSize(pass, |pending|), k)
  }

  ghost function CacheAfter(pass: Pass, key: CacheKey, m: Cache, cands: seq<Candidate>): Cache
    requires pass.Llm?
  {
    Stored(pass, key, m, cands, Uncached(key, m, cands), |Uncached(key, m, cands)|)
  }

  /** Where the run of calls stands. */
  ghost predicate Called(pass: Pass, key: CacheKey, m: Cache, cands: seq<Candidate>,
                         out: seq<Slot>, cache: MemoryScoreCache?, start: nat, asked: seq<seq<nat>>)
    requires pass.Llm?
    reads cache
  {
    var pending := Uncached(key, m, cands);
    && start == Start(BatchSize(pass, |pending|), |asked|)
    && Asked(pass, pending, asked)
    && Progress(pass, key, m, cands, out, cache, Upto(start, |pending|))
  }

  lemma AllCalled(pass: Pass, key: CacheKey, m: Cache, cands: seq<Candidate>,
                  out: seq<Slot>, cache: MemoryScoreCache?, start: nat, asked: seq<seq<nat>>)
    requires pass.Llm? && Called(pass, key, m, cands, out, cache, start, asked)
    requires start >= |Uncached(key, m, cands)| || |asked| == MaxCalls(pass)
    ensures Progress(pass, key, m, cands, out, cache, |Uncached(key, m, cands)|)
  {
    var pending := Uncached(key, m, cands);
    if start < |pending| {
      OverBudget(pass, cands, pending, start);
      SkipProgress(pass, key, m, cands, out, cache, start, |pending|);
    }
  }

  method CallAll(pass: Pass, key: CacheKey, cache: MemoryScoreCache?, ghost m: Cache, cands: seq<Candidate>,
                 pending: seq<nat>, out: array<Slot>)
    returns (ghost asked: seq<seq<nat>>)
    requires pass.Llm? && pending == Uncached(key, m, cands) && Progress(pass, key, m, cands, out[..], cache, 0)
    modifies out, cache
    ensures Progress(pass, key, m, cands, out[..], cache, |pending|)
    ensures Asked(pass, pending, asked)
  {
    asked := [];
    var batch := if pass.batchSize <= 0 then |pending| else pass.batchSize;
    var maxCalls := if pass.maxCalls <= 0 then 1 else pass.maxCalls;
    var start, calls := 0, 0;
    while start < |pending| && calls < maxCalls
      invariant 0 <= start && calls == |asked|
      invariant Called(pass, key, m, cands, out[..], cache, start, asked)
      decreases maxCalls - calls
    {
      asked := CallNext(pass, key, cache, m, cands, pending, out, calls, start, batch, asked);
      calls, start := calls + 1, start + batch;
    }
    AllCalled(pass, key, m, cands, out[..], cache, start, asked);
  }

  method CallNext(pass: Pass, key: CacheKey, cache: MemoryScoreCache?, ghost m: Cache, cands: seq<Candidate>,
                  pending: seq<nat>,
                  out: array<Slot>, k: nat, start: nat, batch: nat, ghost asked: seq<seq<nat>>)
    returns (ghost asked': seq<seq<nat>>)
    requires pass.Llm? && pending == Uncached(key, m, cands)
    requires Called(pass, key, m, cands, out[..], cache, start, asked)
    requires batch == BatchSize(pass, |pending|) && start < |pending| && k == |asked| < MaxCalls(pass)
    modifies out, cache
    ensures Called(pass, key, m, cands, out[..], cache, start + batch, asked')
    ensures |asked'| == k + 1
  {
    var chunk := pending[start..Upto(start + batch, |pending|)];
    NextChunk(pending, batch, k, start);
    AskedNext(pass, pending, asked, chunk);
    Call(pass, key, cache, m, cands, out, k, start, chunk);
    asked' := asked + [chunk];
  }

  lemma AskedNext(pass: Pass, pending: seq<nat>, asked: seq<seq<nat>>, chunk: seq<nat>)
    requires pass.Llm? && Asked(pass, pending, asked) && |asked| < MaxCalls(pass)
    requires chunk == Chunk(pending, BatchSize(pass, |pending|), |asked|)
    ensures Asked(pass, pending, asked + [chunk])
  {
  }

  lemma NextChunk(pending: seq<nat>, batch: nat, k: nat, start: nat)
    requires batch > 0 && start == Start(batch, k) < |pending|
    ensures Chunk(pending, batch, k) == pending[start..Upto(start + batch, |pending|)]
    ensures start + batch == Start(batch, k + 1)
    ensures |Chunk(pending, batch, k)| == Upto(start + batch, |pending|) - start > 0
  {
  }

  function Upto(i: nat, n: nat): nat {
    if i > n then n else i
  }

  lemma OverBudget(pass: Pass, cands: seq<Candidate>, pending: seq<nat>, start: nat)
    requires pass.Llm? && Indices(pending, |cands|) && start <= |pending|
    requires start == Start(BatchSize(pass, |pending|), MaxCalls(pass))
    ensures forall q | start <= q < |pending| :: Answer(pass, cands, pending, q) == T.None
  {
    var batch := BatchSize(pass, |pending|);
    forall k: nat | k < MaxCalls(pass) ensures Start(batch, k) + batch <= start {
      StartGrows(batch, k + 1, MaxCalls(pass));
    }
    forall q | start <= q < |pending| ensures Answer(pass, cands, pending, q) == T.None {
      Divides(q, batch, q / batch);
    }
  }
}
