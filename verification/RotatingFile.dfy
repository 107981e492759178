/** The rotating daemon log (internal/logging/rotate.go). */
module RotatingFile {
  /** Rotated files by time stamp; their names sort in that order. */
  type Backups = map<nat, string>

  // ---- what is on disk, in order ----

  lemma {:induction false} LeastOf(s: set<nat>) returns (least: nat)
    requires s != {}
    ensures least in s && forall j | j in s :: least <= j
  {
    assert (forall k :: k !in s) ==> s == {};
    least :| least in s;
    var rest := s - {least};
    assert s == rest + {least};
    if rest != {} {
      var l := LeastOf(rest);
      if l < least { least := l; }
    }
  }

  lemma LeastExists(s: set<nat>)
    requires s != {}
    ensures exists k :: k in s && forall j | j in s :: k <= j
  {
    var least := LeastOf(s);
  }

  ghost function Oldest(b: Backups): (k: nat)
    requires b != map[]
    ensures k in b && forall j | j in b :: k <= j
  {
    assert b.Keys != {};
    LeastExists(b.Keys);
    var k :| k in b.Keys && forall j | j in b.Keys :: k <= j;
    k
  }

  ghost function Without(b: Backups, k: nat): Backups {
    b - {k}
  }

  /** The backups' contents, oldest first. */
  ghost function Joined(b: Backups): string
    decreases |b|
  {
    if b == map[] then ""
    else
      Shrinks(b, Oldest(b));
      b[Oldest(b)] + Joined(Without(b, Oldest(b)))
  }

  lemma Shrinks(b: Backups, k: nat)
    requires k in b
    ensures |Without(b, k)| == |b| - 1
  {
    assert Without(b, k).Keys == b.Keys - {k};
  }

  /** A backup younger than all others comes last. */
  lemma {:induction false} JoinedNewest(b: Backups, now: nat, text: string)
    requires forall k | k in b :: k < now
    ensures Joined(b[now := text]) == Joined(b) + text
    decreases |b|
  {
    var c := b[now := text];
    if b == map[] {
      assert Oldest(c) == now;
      assert Without(c, now) == map[];
    } else {
      var k := Oldest(b);
      assert k in c && Oldest(c) in c;
      assert Oldest(c) == k;
      Shrinks(b, k);
      assert Without(c, k) == Without(b, k)[now := text];
      JoinedNewest(Without(b, k), now, text);
    }
  }

  predicate Suffix(s: string, whole: string) {
    |s| <= |whole| && whole[|whole| - |s|..] == s
  }

  lemma SuffixGrows(s: string, whole: string, more: string)
    requires Suffix(s, whole)
    ensures Suffix(s + more, whole + more)
  {
  }

  /** The i oldest backups removed. */
  ghost function Dropped(b: Backups, i: nat): Backups {
    if i == 0 || b == map[] then b else Dropped(Without(b, Oldest(b)), i - 1)
  }

  lemma {:induction false} DroppedIsSuffix(b: Backups, i: nat)
    ensures Suffix(Joined(Dropped(b, i)), Joined(b))
  {
    if i > 0 && b != map[] {
      DroppedIsSuffix(Without(b, Oldest(b)), i - 1);
      var rest := Joined(Dropped(Without(b, Oldest(b)), i - 1));
      assert Joined(b) == b[Oldest(b)] + Joined(Without(b, Oldest(b)));
    }
  }

  lemma {:induction false} DroppedIsPart(b: Backups, i: nat)
    requires i <= |b|
    ensures |Dropped(b, i)| == |b| - i
    ensures forall k | k in Dropped(b, i) :: k in b && Dropped(b, i)[k] == b[k]
  {
    if i > 0 {
      Shrinks(b, Oldest(b));
      DroppedIsPart(Without(b, Oldest(b)), i - 1);
    }
  }

  /** Dropping removes the oldest: none that goes is younger than one that stays. */
  lemma {:induction false} DroppedAreOlder(b: Backups, i: nat, j: nat, k: nat)
    requires i <= |b| && j in b && j !in Dropped(b, i) && k in Dropped(b, i)
    ensures j < k
  {
    DroppedIsPart(b, i);
    if i > 0 {
      var rest := Without(b, Oldest(b));
      Shrinks(b, Oldest(b));
      DroppedIsPart(rest, i - 1);
      if j != Oldest(b) { DroppedAreOlder(rest, i - 1, j, k); }
    }
  }

  // ---- the writer ----

  datatype Error = Nil | Closed | IO

  method Breaks() returns (b: bool) {
    b := *;
  }

  /** `open`, `size` are the handle's; `active` and `backups` are on disk.  `written` is every byte
      ever stored, `writes` the number of non-empty writes the active file holds, and `faulted`
      records whether any operation on a file has failed. */
  class Log {
    const maxBytes: int
    const maxBackups: int
    var open: bool
    var size: nat
    var active: string
    var backups: Backups
    ghost var written: string
    ghost var writes: nat
    ghost var faulted: bool

    ghost predicate Valid()
      reads this
    {
      && (open ==> size == |active|)
      && Suffix(Joined(backups) + active, written)
      && (|active| > maxBytes && |active| > 0 ==> writes == 1)
    }

    /** Opens a file that may have been there before; what it holds counts as one write. */
    constructor (active: string, backups: Backups, maxBytes: int, maxBackups: int)
      ensures Valid() && open && this.active == active && this.backups == backups
      ensures this.maxBytes == maxBytes && this.maxBackups == maxBackups
    {
      this.maxBytes, this.maxBackups := maxBytes, maxBackups;
      this.active, this.backups, open, size := active, backups, true, |active|;
      written, writes, faulted := Joined(backups) + active, 1, false;
    }

    /** What pruning without I/O errors leaves of the backups. */
    ghost function Pruned(all: Backups): Backups {
      if maxBackups <= 0 || |all| <= maxBackups then all else Dropped(all, |all| - maxBackups)
    }

    /** What pruning keeps: without a limit everything, otherwise the youngest backups, as many as the
        limit allows and no fewer, unchanged. */
    lemma PrunedReads(all: Backups)
      ensures maxBackups <= 0 ==> Pruned(all) == all
      ensures maxBackups > 0 ==> |Pruned(all)| == if |all| < maxBackups then |all| else maxBackups
      ensures forall k | k in Pruned(all) :: k in all && Pruned(all)[k] == all[k]
      ensures forall j, k | j in all && j !in Pruned(all) && k in Pruned(all) :: j < k
    {
      if |all| > maxBackups > 0 {
        DroppedIsPart(all, |all| - maxBackups);
        forall j, k | j in all && j !in Pruned(all) && k in Pruned(all) ensures j < k {
          DroppedAreOlder(all, |all| - maxBackups, j, k);
        }
      }
    }

    /** Appends p, rotating first if a non-empty file would pass the limit. */
    method Write(p: string, now: nat) returns (n: nat, err: Error)
      requires Valid() && forall k | k in backups :: k < now
      modifies this
      ensures Valid()
      ensures old(open) <==> err != Closed
      ensures (old(faulted) ==> faulted) && (err == IO ==> faulted)
      ensures err == Closed ==> n == 0 && active == old(active) && backups == old(backups) && written == old(written)
      ensures n <= |p| && (err == Nil ==> n == |p| && open)
      ensures written == old(written) + p[..n]
      ensures err == Nil && !(old(size) > 0 && old(size) + |p| > maxBytes) ==>
        active == old(active) + p && backups == old(backups)
      ensures err == Nil && old(size) > 0 && old(size) + |p| > maxBytes ==>
        && active == p
        && (maxBackups <= 0 ==> backups == old(backups)[now := old(active)])
        && (maxBackups > 0 ==>
              |backups| == if |old(backups)| < maxBackups then |old(backups)| + 1 else maxBackups)
        && (forall k | k in backups :: k in old(backups)[now := old(active)] &&
              backups[k] == old(backups)[now := old(active)][k])
        && (forall j, k | j in old(backups)[now := old(active)] && j !in backups && k in backups :: j < k)
    {
      n := 0;
      if !open { return n, Closed; }
      if size > 0 && size + |p| > maxBytes {
        PrunedReads(backups[now := active]);
        assert now !in backups && |backups[now := active]| == |backups| + 1;
        err := Rotate(now);
        if err != Nil { return; }
      }
      n, err := Append(p);
    }

    method Append(p: string) returns (n: nat, err: Error)
      requires Valid() && open && (size > 0 ==> size + |p| <= maxBytes)
      modifies this
      ensures Valid() && open && n <= |p| && err in {Nil, IO} && (err == Nil ==> n == |p|)
      ensures faulted == (old(faulted) || err == IO)
      ensures active == old(active) + p[..n] && backups == old(backups) && written == old(written) + p[..n]
    {
      n, err := |p|, Nil;
      var broken := Breaks();
      if broken {
        n := *;
        if n > |p| { n := 0; }
        faulted, err := true, IO;
      }
      SuffixGrows(Joined(backups) + active, written, p[..n]);
      assert Joined(backups) + (active + p[..n]) == Joined(backups) + active + p[..n];
      writes := if n == 0 then writes else if size == 0 then 1 else writes + 1;
      active, written := active + p[..n], written + p[..n];
      size := size + n;
    }

    method Rotate(now: nat) returns (err: Error)
      requires Valid() && open && forall k | k in backups :: k < now
      modifies this
      ensures Valid() && err in {Nil, IO} && written == old(written)
      ensures faulted == (old(faulted) || err == IO)
      ensures err == Nil ==> open && active == "" && size == 0 && backups == Pruned(old(backups)[now := old(active)])
      ensures err == Nil && maxBackups > 0 ==>
        && |backups| == (if |old(backups)| < maxBackups then |old(backups)| + 1 else maxBackups)
        && now in backups && backups[now] == old(active)
    {
      assert now !in backups && |backups[now := active]| == |backups| + 1;
      PrunedReads(backups[now := active]);

      var broken := Breaks();
      if broken { faulted := true; return IO; }
      open, size := false, 0;
      err := Rename(now);
      if err != Nil { return; }
      broken := Breaks();
      if broken { faulted := true; return IO; }
      open := true;
      err := Prune();
    }

    method Rename(now: nat) returns (err: Error)
      requires Valid() && !open && size == 0 && forall k | k in backups :: k < now
      modifies this
      ensures Valid() && !open && size == 0 && err in {Nil, IO} && written == old(written)
      ensures faulted == (old(faulted) || err == IO)
      ensures err == Nil ==> active == "" && backups == old(backups)[now := old(active)]
    {
      var broken := Breaks();
      if broken { faulted := true; return IO; }
      JoinedNewest(backups, now, active);
      assert Joined(backups) + active + "" == Joined(backups) + active;
      backups, active, writes := backups[now := active], "", 0;
      err := Nil;
    }

    method Prune() returns (err: Error)
      requires Valid() && open && active == "" && size == 0
      modifies this
      ensures Valid() && open && active == "" && size == 0 && err in {Nil, IO} && written == old(written)
      ensures faulted == (old(faulted) || err == IO)
      ensures err == Nil ==> backups == Pruned(old(backups))
    {
      if maxBackups <= 0 { return Nil; }
      if |backups| <= maxBackups { return Nil; }
      err := RemoveOldest(|backups| - maxBackups);
    }

    method RemoveOldest(count: nat) returns (err: Error)
      requires Valid() && open && active == "" && size == 0 && count <= |backups|
      modifies this
      ensures Valid() && open && active == "" && size == 0 && err in {Nil, IO} && written == old(written)
      ensures faulted == (old(faulted) || err == IO)
      ensures err == Nil ==> backups == Dropped(old(backups), count)
    {
      for i := 0 to count
        invariant Valid() && open && active == "" && size == 0 && written == old(written) && faulted == old(faulted)
        invariant |backups| == |old(backups)| - i
        invariant Dropped(backups, count - i) == Dropped(old(backups), count)
      {
        var broken := Breaks();
        if broken { faulted := true; return IO; }
        var k := Least();
        DroppedIsSuffix(backups, 1);
        Shrinks(backups, k);
        backups := backups - {k};
      }
      err := Nil;
    }

    /** The first of the sorted names. */
    method Least() returns (k: nat)
      requires backups != map[]
      ensures k == Oldest(backups)
    {
      LeastExists(backups.Keys);
      k :| k in backups.Keys && forall j | j in backups.Keys :: k <= j;
    }
  }
}
