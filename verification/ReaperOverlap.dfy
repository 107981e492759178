/** Sweeps that overlap (internal/reaper/reaper.go, Run): a sweep decides on the reason it has listed
    and writes later, so the warning may be written more than once. */
module ReaperOverlap {
  import opened Tasks
  import opened Reaper
  import Collections

  /** On one stuck row: a sweep reads its reason, the sweep writes if it found no token, or some other
      note is appended. */
  datatype Beat = Look(who: int) | Write(who: int) | Elsewhere(note: string)

  /** The sweeps that have looked and found no token. */
  function Due(due: set<int>, reason: string, token: string, b: Beat): set<int> {
    match b
    case Look(p) => if HasToken(reason, token) then due - {p} else due + {p}
    case Write(p) => due - {p}
    case Elsewhere(_) => due
  }

  predicate Writes(due: set<int>, b: Beat) {
    b.Write? && b.who in due
  }

  function ReasonAfter(due: set<int>, reason: string, token: string, b: Beat): string {
    if b.Elsewhere? then Joined(reason, b.note) else if Writes(due, b) then Joined(reason, token) else reason
  }

  /** How often the warning is written. */
  function Written(due: set<int>, reason: string, token: string, beats: seq<Beat>): nat
    decreases |beats|
  {
    if beats == [] then 0
    else
      var b := beats[0];
      (if Writes(due, b) then 1 else 0)
        + Written(Due(due, reason, token, b), ReasonAfter(due, reason, token, b), token, beats[1..])
  }

  /** At no time are more than k sweeps between their look and their write; `open` are those that are. */
  predicate AtMost(open: set<int>, beats: seq<Beat>, k: nat)
    decreases |beats|
  {
    && |open| <= k
    && (beats != [] ==> AtMost(match beats[0] case Look(p) => open + {p} case Write(p) => open - {p}
                                              case Elsewhere(_) => open, beats[1..], k))
  }

  /** The warning is written at most once for each sweep that is open at one time; and once it is
      there, only by the sweeps that had looked before. */
  lemma {:induction false} OverlapBound(due: set<int>, open: set<int>, reason: string, token: string,
                                        beats: seq<Beat>, k: nat)
    requires token != "" && Segments(token) == [token] && due <= open && AtMost(open, beats, k)
    ensures Written(due, reason, token, beats) <= k
    ensures HasToken(reason, token) ==> Written(due, reason, token, beats) <= |due|
    decreases |beats|
  {
    Collections.SubsetSize(due, open);
    if beats != [] {
      var b := beats[0];
      var due', reason' := Due(due, reason, token, b), ReasonAfter(due, reason, token, b);
      var open' := match b case Look(p) => open + {p} case Write(p) => open - {p} case Elsewhere(_) => open;
      OverlapBound(due', open', reason', token, beats[1..], k);
      if b.Elsewhere? { JoinedTokens(reason, b.note, token); } else { JoinedTokens(reason, token, token); }
      Collections.SubsetSize(due - {if b.Elsewhere? then 0 else b.who}, due);
    }
  }

  function Looks(k: nat): seq<Beat> {
    if k == 0 then [] else [Look(k)] + Looks(k - 1)
  }

  function AllWrite(k: nat): seq<Beat> {
    if k == 0 then [] else [Write(k)] + AllWrite(k - 1)
  }

  function UpTo(k: nat): (s: set<int>)
    ensures forall i :: i in s <==> 1 <= i <= k
  {
    if k == 0 then {} else UpTo(k - 1) + {k}
  }

  lemma {:induction false} WritesCount(k: nat, reason: string, token: string)
    ensures Written(UpTo(k), reason, token, AllWrite(k)) == k
  {
    if k > 0 {
      assert AllWrite(k)[1..] == AllWrite(k - 1);
      assert UpTo(k) - {k as int} == UpTo(k - 1);
      WritesCount(k - 1, Joined(reason, token), token);
    }
  }

  lemma {:induction false} LooksFirst(k: nat, n: nat, due: set<int>, reason: string, token: string)
    requires k <= n && !HasToken(reason, token) && due == UpTo(n) - UpTo(k)
    ensures Written(due, reason, token, Looks(k) + AllWrite(n)) == n
  {
    var beats := Looks(k) + AllWrite(n);
    if k == 0 {
      assert beats == AllWrite(n) && due == UpTo(n);
      WritesCount(n, reason, token);
    } else {
      assert beats[0] == Look(k) && beats[1..] == Looks(k - 1) + AllWrite(n);
      assert due + {k as int} == UpTo(n) - UpTo(k - 1);
      LooksFirst(k - 1, n, due + {k as int}, reason, token);
    }
  }

  /** The bound is reached: k sweeps that all look before any of them writes each write the warning. */
  lemma OverlapReached(k: nat, reason: string, token: string)
    requires !HasToken(reason, token)
    ensures Written({}, reason, token, Looks(k) + AllWrite(k)) == k
  {
    assert UpTo(k) - UpTo(k) == {};
    LooksFirst(k, k, {}, reason, token);
  }
}
