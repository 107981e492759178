/** Aligning the language model's answer to the items it was asked about
    (internal/manage/claudescorer.go). */
module ScoreParser {
  import opened Collections
  import opened Planning
  import opened Scoring

  datatype RawScore = RawScore(index: int, score: Num, deferred: bool, reason: string)

  /** What the output's outermost bracket span decodes to. */
  datatype Decoded = NoArray | BadJson | Entries(raw: seq<RawScore>)

  datatype Parsed =
    | Aligned(results: seq<ScoreResult>)
    | ArrayMissing
    | Undecodable
    | OutOfRange(index: int)
    | Duplicate(index: int)
    | Missing(index: int)

  function ResultOf(r: RawScore): ScoreResult {
    ScoreResult(r.score, r.deferred, r.reason)
  }

  function IndicesOf(raw: seq<RawScore>): seq<int> {
    seq(|raw|, k requires 0 <= k < |raw| => raw[k].index)
  }

  /** n numbers among which each of 0..n-1 occurs. */
  ghost predicate PermutesRange(s: seq<int>, n: nat) {
    |s| == n && forall i | 0 <= i < n :: i in s
  }

  predicate Distinct(s: seq<int>) {
    forall a, b | 0 <= a < b < |s| :: s[a] != s[b]
  }

  function RangeSet(n: nat): (s: set<int>)
    ensures forall i :: i in s <==> 0 <= i < n
  {
    if n == 0 then {} else RangeSet(n - 1) + {n - 1}
  }

  lemma {:induction false} RangeSize(n: nat)
    ensures |RangeSet(n)| == n
  {
    if n > 0 {
      RangeSize(n - 1);
    }
  }

  lemma {:induction false} ElementsFew(s: seq<int>)
    ensures |set i | i in s| <= |s|
  {
    if s != [] {
      ElementsFew(s[1..]);
      assert (set i | i in s) == {s[0]} + set i | i in s[1..];
    }
  }

  /** The pigeonhole, one way: if every number of the range occurs among n numbers, none is out of
      range and none occurs twice. */
  lemma PermutationIsDistinct(s: seq<int>, n: nat)
    requires PermutesRange(s, n)
    ensures Distinct(s) && forall k | 0 <= k < |s| :: 0 <= s[k] < n
  {
    var elems := set i | i in s;
    ElementsFew(s);
    RangeSize(n);
    SameSize(RangeSet(n), elems);
    forall k | 0 <= k < |s| ensures 0 <= s[k] < n {
      assert s[k] in elems;
    }
    forall a, b | 0 <= a < b < |s| ensures s[a] != s[b] {
      var rest := s[..b] + s[b + 1..];
      ElementsFew(rest);
      if s[a] == s[b] { OneDropped(s, rest, a, b); }
    }
  }

  lemma OneDropped(s: seq<int>, rest: seq<int>, a: nat, b: nat)
    requires a < b < |s| && s[a] == s[b] && rest == s[..b] + s[b + 1..]
    ensures (set i | i in rest) == set i | i in s
  {
    forall k | 0 <= k < |s| ensures s[k] in rest {
      assert rest[if k < b then k else if k == b then a else k - 1] == s[k];
    }
  }

  /** And the other way: distinct numbers in range that cover it are n in number. */
  lemma DistinctIsPermutation(s: seq<int>, n: nat)
    requires Distinct(s) && (forall k | 0 <= k < |s| :: 0 <= s[k] < n)
    requires forall i | 0 <= i < n :: i in s
    ensures PermutesRange(s, n)
  {
    assert (set i | i in s) == RangeSet(n);
    RangeSize(n);
    DistinctSize(s);
  }

  /** Every entry's result is in the slot its index names. */
  ghost predicate InPlace(raw: seq<RawScore>, n: nat, results: seq<ScoreResult>) {
    && |results| == n
    && forall k | 0 <= k < |raw| :: 0 <= raw[k].index < n && results[raw[k].index] == ResultOf(raw[k])
  }

  /** Accepts exactly the permutations, and puts every entry where its index says. */
  method ParseScoreResults(out: Decoded, n: nat) returns (p: Parsed)
    ensures p.Aligned? <==> out.Entries? && PermutesRange(IndicesOf(out.raw), n)
    ensures p.Aligned? ==> |p.results| == n && forall k | 0 <= k < |out.raw| ::
      && 0 <= out.raw[k].index < n
      && p.results[out.raw[k].index].score == out.raw[k].score
      && p.results[out.raw[k].index].deferred == out.raw[k].deferred
      && p.results[out.raw[k].index].reason == out.raw[k].reason
    ensures p.ArrayMissing? <==> out.NoArray?
    ensures p.Undecodable? <==> out.BadJson?
    ensures p.OutOfRange? || p.Duplicate? || p.Missing? ==> out.Entries?
    ensures p.OutOfRange? ==> p.index in IndicesOf(out.raw) && !(0 <= p.index < n)
    ensures p.Duplicate? ==>
      exists a, b :: 0 <= a < b < |out.raw| && out.raw[a].index == p.index == out.raw[b].index
    ensures p.Missing? ==> 0 <= p.index < n && p.index !in IndicesOf(out.raw)
  {
    if out.NoArray? { return ArrayMissing; }
    if out.BadJson? { return Undecodable; }
    p := Align(out.raw, n);
  }

  /** The first k entries are in range, distinct, in place and marked; nothing else is marked. */
  ghost predicate Placed(raw: seq<RawScore>, n: nat, k: nat, results: seq<ScoreResult>, seen: seq<bool>) {
    && k <= |raw| && |results| == |seen| == n
    && (forall j | 0 <= j < k ::
          0 <= raw[j].index < n && seen[raw[j].index] && results[raw[j].index] == ResultOf(raw[j]))
    && (forall a, b | 0 <= a < b < k :: raw[a].index != raw[b].index)
    && (forall i | 0 <= i < n && seen[i] :: exists j :: 0 <= j < k && raw[j].index == i)
  }

  method Align(raw: seq<RawScore>, n: nat) returns (p: Parsed)
    ensures p.Aligned? || p.OutOfRange? || p.Duplicate? || p.Missing?
    ensures p.Aligned? <==> PermutesRange(IndicesOf(raw), n)
    ensures p.Aligned? ==> InPlace(raw, n, p.results)
    ensures p.OutOfRange? ==> p.index in IndicesOf(raw) && !(0 <= p.index < n)
    ensures p.Duplicate? ==> exists a, b :: 0 <= a < b < |raw| && raw[a].index == p.index == raw[b].index
    ensures p.Missing? ==> 0 <= p.index < n && p.index !in IndicesOf(raw)
  {
    var results := new ScoreResult[n](i => ScoreResult(Finite(0.0), false, ""));
    var seen := new bool[n](i => false);
    for k := 0 to |raw|
      invariant Placed(raw, n, k, results[..], seen[..])
    {
      p := PlaceOne(raw, n, k, results, seen);
      if !p.Aligned? { return; }
    }
    var i := FirstUnseen(seen);
    if i < n {
      NotCovered(raw, n, i, results[..], seen[..]);
      return Missing(i);
    }
    AllPlaced(raw, n, results[..], seen[..]);
    p := Aligned(results[..]);
  }

  method FirstUnseen(seen: array<bool>) returns (i: nat)
    ensures i <= seen.Length && (i < seen.Length ==> !seen[i])
    ensures forall j | 0 <= j < i :: seen[j]
  {
    i := 0;
    while i < seen.Length && seen[i]
      invariant i <= seen.Length && forall j | 0 <= j < i :: seen[j]
    {
      i := i + 1;
    }
  }

  /** One entry: into its slot, or the reason why not. */
  method PlaceOne(raw: seq<RawScore>, n: nat, k: nat, results: array<ScoreResult>, seen: array<bool>)
    returns (bad: Parsed)
    requires k < |raw| && Placed(raw, n, k, results[..], seen[..])
    modifies results, seen
    ensures bad.Aligned? || bad.OutOfRange? || bad.Duplicate?
    ensures bad.Aligned? ==> Placed(raw, n, k + 1, results[..], seen[..])
    ensures !bad.Aligned? ==> !PermutesRange(IndicesOf(raw), n)
    ensures bad.OutOfRange? ==> bad.index in IndicesOf(raw) && !(0 <= bad.index < n)
    ensures bad.Duplicate? ==> exists a, b :: 0 <= a < b < |raw| && raw[a].index == bad.index == raw[b].index
  {
    var r := raw[k];
    if r.index < 0 || r.index >= n {
      NotInRange(raw, n, k);
      return OutOfRange(r.index);
    }
    if seen[r.index] {
      var j :| 0 <= j < k && raw[j].index == r.index;
      NotDistinct(raw, n, j, k);
      return Duplicate(r.index);
    }
    PlacedNext(raw, n, k, results[..], seen[..]);
    seen[r.index] := true;
    results[r.index] := ScoreResult(r.score, r.deferred, r.reason);
    bad := Aligned([]);
  }

  lemma PlacedNext(raw: seq<RawScore>, n: nat, k: nat, results: seq<ScoreResult>, seen: seq<bool>)
    requires k < |raw| && Placed(raw, n, k, results, seen)
    requires 0 <= raw[k].index < n && !seen[raw[k].index]
    ensures Placed(raw, n, k + 1, results[raw[k].index := ResultOf(raw[k])], seen[raw[k].index := true])
  {
    var seen' := seen[raw[k].index := true];
    forall i | 0 <= i < n && seen'[i] ensures exists j :: 0 <= j < k + 1 && raw[j].index == i {
      if seen[i] {
        var j :| 0 <= j < k && raw[j].index == i;
      } else {
        assert raw[k].index == i;
      }
    }
  }

  lemma NotInRange(raw: seq<RawScore>, n: nat, k: nat)
    requires k < |raw| && !(0 <= raw[k].index < n)
    ensures !PermutesRange(IndicesOf(raw), n) && raw[k].index in IndicesOf(raw)
  {
    assert IndicesOf(raw)[k] == raw[k].index;
    if PermutesRange(IndicesOf(raw), n) { PermutationIsDistinct(IndicesOf(raw), n); }
  }

  lemma NotDistinct(raw: seq<RawScore>, n: nat, j: nat, k: nat)
    requires j < k < |raw| && raw[j].index == raw[k].index
    ensures !PermutesRange(IndicesOf(raw), n)
  {
    assert IndicesOf(raw)[j] == IndicesOf(raw)[k];
    if PermutesRange(IndicesOf(raw), n) { PermutationIsDistinct(IndicesOf(raw), n); }
  }

  lemma NotCovered(raw: seq<RawScore>, n: nat, i: nat, results: seq<ScoreResult>, seen: seq<bool>)
    requires Placed(raw, n, |raw|, results, seen) && i < n && !seen[i]
    ensures i !in IndicesOf(raw)
  {
    forall k | 0 <= k < |raw| ensures IndicesOf(raw)[k] != i {
      assert seen[raw[k].index];
    }
  }

  lemma AllPlaced(raw: seq<RawScore>, n: nat, results: seq<ScoreResult>, seen: seq<bool>)
    requires Placed(raw, n, |raw|, results, seen) && forall i | 0 <= i < n :: seen[i]
    ensures PermutesRange(IndicesOf(raw), n) && InPlace(raw, n, results)
  {
    forall i | 0 <= i < n ensures i in IndicesOf(raw) {
      assert seen[i];
      var j :| 0 <= j < |raw| && raw[j].index == i;
      assert IndicesOf(raw)[j] == i;
    }
    DistinctIsPermutation(IndicesOf(raw), n);
  }

  /** The order of the entries does not matter: a reordering is accepted too, with the same results. */
  lemma ReorderingAgrees(raw: seq<RawScore>, raw': seq<RawScore>, n: nat, results: seq<ScoreResult>,
                         results': seq<ScoreResult>)
    requires multiset(raw) == multiset(raw') && PermutesRange(IndicesOf(raw), n)
    ensures PermutesRange(IndicesOf(raw'), n)
    ensures InPlace(raw, n, results) && InPlace(raw', n, results') ==> results == results'
  {
    assert |raw| == |multiset(raw)| == |raw'|;
    forall i | 0 <= i < n
      ensures i in IndicesOf(raw')
      ensures InPlace(raw, n, results) && InPlace(raw', n, results') ==> results[i] == results'[i]
    {
      assert i in IndicesOf(raw);
      var k :| 0 <= k < |raw| && IndicesOf(raw)[k] == i;
      assert raw[k] in multiset(raw) && raw[k] in multiset(raw');
      var k' :| 0 <= k' < |raw'| && raw'[k'] == raw[k];
      assert IndicesOf(raw')[k'] == i;
    }
  }
}
