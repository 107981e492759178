/** The lock around a loop's tick (internal/loop/loop.go, RunOnce, acquireLock, releaseLock). */
module LoopLock {
  import opened KVState

  const LOCK_KEY_PREFIX := "loop.lock."

  /** One loop process: its lock key and the random token it drew when it was built. */
  class Loop {
    const kv: KVStateRepo
    const lockKey: string
    const ownerToken: string

    constructor (kv: KVStateRepo, lockKey: string, ownerToken: string)
      ensures this.kv == kv && this.lockKey == lockKey && this.ownerToken == ownerToken
    {
      this.kv, this.lockKey, this.ownerToken := kv, lockKey, ownerToken;
    }

    method AcquireLock() returns (acquired: bool, failed: bool)
      modifies kv
      ensures old(kv.faulted) ==> kv.faulted
      ensures acquired ==> !failed && ownerToken != "" && "loop.lock." + lockKey !in old(kv.pairs)
      ensures kv.pairs == if acquired then old(kv.pairs)["loop.lock." + lockKey := ownerToken] else old(kv.pairs)
      ensures !acquired && !failed ==> "loop.lock." + lockKey in kv.pairs
      ensures failed ==> kv.faulted || ownerToken == ""
    {
      var inserted, err := kv.InsertIfAbsent(LOCK_KEY_PREFIX + lockKey, ownerToken);
      return inserted, err != Nil;
    }

    /** Drops the row if it is still this loop's; a failure leaves it. */
    method ReleaseLock()
      modifies kv
      ensures old(kv.faulted) ==> kv.faulted
      ensures kv.pairs in {old(kv.pairs), old(kv.pairs) - {"loop.lock." + lockKey}}
      ensures !("loop.lock." + lockKey in old(kv.pairs) && old(kv.pairs)["loop.lock." + lockKey] == ownerToken) ==>
        kv.pairs == old(kv.pairs)
      ensures !kv.faulted && ownerToken != "" ==>
        "loop.lock." + lockKey in old(kv.pairs) && old(kv.pairs)["loop.lock." + lockKey] == ownerToken ==>
          kv.pairs == old(kv.pairs) - {"loop.lock." + lockKey}
    {
      var deleted, err := kv.DeleteIfValue(LOCK_KEY_PREFIX + lockKey, ownerToken);
    }
  }

  // ---- any number of loops ----

  type LoopId = int

  /** `keyOf` and `tokenOf` give each loop its lock row and its token. */
  datatype Loops = Loops(keyOf: LoopId -> string, tokenOf: LoopId -> string)

  ghost predicate DistinctTokens(ls: Loops) {
    forall l, m :: ls.tokenOf(l) == ls.tokenOf(m) ==> l == m
  }

  /** `inside` are the loops between a successful acquire and their release. */
  datatype State = State(kv: Pairs, inside: set<LoopId>)

  datatype Action =
    | Acquire(l: LoopId)
    | Release(l: LoopId, broken: bool)
    | Crash(l: LoopId)
    | Evict(key: string)

  predicate Enabled(s: State, a: Action) {
    match a
    case Acquire(l) => l !in s.inside
    case Release(l, _) => l in s.inside
    case Crash(l) => l in s.inside
    case Evict(key) => key in s.kv
  }

  function Apply(ls: Loops, s: State, a: Action): State {
    match a
    case Acquire(l) =>
      if ls.keyOf(l) in s.kv then s
      else State(AfterInsertIfAbsent(s.kv, ls.keyOf(l), ls.tokenOf(l)), s.inside + {l})
    case Release(l, broken) =>
      State(if broken then s.kv else AfterDeleteIfValue(s.kv, ls.keyOf(l), ls.tokenOf(l)), s.inside - {l})
    case Crash(l) => s.(inside := s.inside - {l})
    case Evict(key) => s.(kv := s.kv - {key})
  }

  ghost predicate Steps(ls: Loops, s: State, acts: seq<Action>, t: State)
    decreases |acts|
  {
    if acts == [] then s == t
    else Enabled(s, acts[0]) && Steps(ls, Apply(ls, s, acts[0]), acts[1..], t)
  }

  function Inside(ls: Loops, s: State, key: string): set<LoopId> {
    set l | l in s.inside && ls.keyOf(l) == key
  }

  function Evictions(acts: seq<Action>, key: string): nat {
    if acts == [] then 0
    else (if acts[0] == Evict(key) then 1 else 0) + Evictions(acts[1..], key)
  }

  function Held(s: State, key: string): nat {
    if key in s.kv then 1 else 0
  }

  lemma StepBound(ls: Loops, s: State, a: Action, key: string)
    requires Enabled(s, a)
    ensures var t := Apply(ls, s, a);
      |Inside(ls, t, key)| + Held(s, key) <= |Inside(ls, s, key)| + Held(t, key) + (if a == Evict(key) then 1 else 0)
  {
    var before := Inside(ls, s, key);
    if a.Acquire? {
      AcquireBound(ls, s, a.l, key);
    } else if a.Evict? {
      assert Inside(ls, Apply(ls, s, a), key) == before;
    } else {
      assert Inside(ls, Apply(ls, s, a), key) == before - {a.l};
      assert a.l in s.inside && (ls.keyOf(a.l) == key ==> |before - {a.l}| == |before| - 1);
    }
  }

  lemma AcquireBound(ls: Loops, s: State, l: LoopId, key: string)
    requires Enabled(s, Acquire(l))
    ensures var t := Apply(ls, s, Acquire(l));
      |Inside(ls, t, key)| + Held(s, key) <= |Inside(ls, s, key)| + Held(t, key)
  {
    var t, before := Apply(ls, s, Acquire(l)), Inside(ls, s, key);
    if ls.keyOf(l) !in s.kv {
      assert Inside(ls, t, key) == if ls.keyOf(l) == key then before + {l} else before;
    }
  }

  /** Loops inside under a key are at most one more than the evictions of its row. */
  lemma {:induction false} InsideBounded(ls: Loops, s: State, acts: seq<Action>, t: State, key: string)
    requires Steps(ls, s, acts, t)
    ensures |Inside(ls, t, key)| + Held(s, key) <= |Inside(ls, s, key)| + Held(t, key) + Evictions(acts, key)
    decreases |acts|
  {
    if acts != [] {
      StepBound(ls, s, acts[0], key);
      InsideBounded(ls, Apply(ls, s, acts[0]), acts[1..], t, key);
    }
  }

  const START := State(map[], {})

  /** Without an eviction no two loops are inside under one key, whatever crashes and whatever
      release fails. */
  lemma LoopsExcludeEachOther(ls: Loops, acts: seq<Action>, s: State, l: LoopId, m: LoopId)
    requires Steps(ls, START, acts, s)
    requires l in s.inside && m in s.inside && ls.keyOf(l) == ls.keyOf(m)
    requires Evict(ls.keyOf(l)) !in acts
    ensures l == m
  {
    var key := ls.keyOf(l);
    InsideBounded(ls, START, acts, s, key);
    NoEvictions(acts, key);
    assert Inside(ls, START, key) == {};
    if l != m {
      assert {l, m} <= Inside(ls, s, key);
      AtLeastTwo(Inside(ls, s, key), l, m);
    }
  }

  lemma AtLeastTwo(ids: set<LoopId>, l: LoopId, m: LoopId)
    requires l in ids && m in ids && l != m
    ensures |ids| >= 2
  {
    assert |ids| == |ids - {l, m}| + |{l, m}|;
  }

  lemma {:induction false} NoEvictions(acts: seq<Action>, key: string)
    requires Evict(key) !in acts
    ensures Evictions(acts, key) == 0
  {
    if acts != [] {
      NoEvictions(acts[1..], key);
    }
  }

  /** The row of loop `m` outlives every action except `m`'s own release and an eviction: a stale
      holder's release, in particular, leaves it alone. */
  lemma {:induction false} OwnerKeepsRow(ls: Loops, s: State, acts: seq<Action>, t: State, m: LoopId)
    requires DistinctTokens(ls) && Steps(ls, s, acts, t)
    requires ls.keyOf(m) in s.kv && s.kv[ls.keyOf(m)] == ls.tokenOf(m)
    requires Evict(ls.keyOf(m)) !in acts && Release(m, false) !in acts
    ensures ls.keyOf(m) in t.kv && t.kv[ls.keyOf(m)] == ls.tokenOf(m)
    decreases |acts|
  {
    if acts != [] {
      assert acts[0] in acts;
      OwnerKeepsRow(ls, Apply(ls, s, acts[0]), acts[1..], t, m);
    }
  }
}
