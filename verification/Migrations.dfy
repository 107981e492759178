/** Schema migrations (internal/store/store.go): loading them from a directory, and applying
    them over any number of opens that may crash. */
module Migrations {
  import Text

  datatype Entry = Entry(name: string, isDir: bool, body: string)

  datatype Migration = Migration(version: int, name: string, body: string)

  datatype LoadError = Nil | BadName(name: string) | BadVersion(name: string) | Duplicate(version: int)

  // ---- file names: NNNN_<description>.sql ----

  predicate IsDigit(c: char) {
    '0' <= c <= '9'
  }

  predicate IsWord(c: char) {
    IsDigit(c) || 'a' <= c <= 'z' || 'A' <= c <= 'Z' || c == '_' || c == '-'
  }

  predicate IsSql(name: string) {
    |name| >= 4 && name[|name| - 4..] == ".sql"
  }

  function DigitRun(s: string): (n: nat)
    ensures n <= |s|
  {
    if s == "" || !IsDigit(s[0]) then 0 else 1 + DigitRun(s[1..])
  }

  predicate WellNamed(name: string)
    requires IsSql(name)
  {
    var stem := name[..|name| - 4];
    var d := DigitRun(stem);
    && 0 < d && d + 1 < |stem| && stem[d] == '_'
    && forall c | c in stem[d + 1..] :: IsWord(c)
  }

  function Decimal(digits: string): nat {
    if digits == "" then 0
    else
      var last := digits[|digits| - 1];
      10 * Decimal(digits[..|digits| - 1]) + (if IsDigit(last) then (last - '0') as int else 0)
  }

  function Version(name: string): nat {
    Decimal(name[..DigitRun(name)])
  }

  predicate Wanted(e: Entry) {
    !e.isDir && IsSql(e.name)
  }

  predicate Good(e: Entry) {
    Wanted(e) ==> WellNamed(e.name) && 0 < Version(e.name) <= Text.MAX_INT
  }

  function Read(e: Entry): Migration {
    Migration(Version(e.name), e.name, e.body)
  }

  /** The migrations a directory holds, in directory order. */
  function Collected(entries: seq<Entry>): seq<Migration> {
    if entries == [] then []
    else
      var front := entries[..|entries| - 1];
      var e := entries[|entries| - 1];
      Collected(front) + if Wanted(e) then [Read(e)] else []
  }

  /** A file name of the accepted form reads as its number, whatever zeros are in front of it. */
  lemma VersionReads(zeros: string, n: nat, rest: string)
    requires (forall i | 0 <= i < |zeros| :: zeros[i] == '0') && rest != "" && rest[0] == '_'
    ensures Version(zeros + Text.Natural(n) + rest) == n
  {
    var digits := zeros + Text.Natural(n);
    RunEnds(digits, rest);
    assert (digits + rest)[..|digits|] == digits;
    DecimalReads(zeros, n);
  }

  lemma {:induction false} RunEnds(digits: string, rest: string)
    requires (forall i | 0 <= i < |digits| :: IsDigit(digits[i])) && rest != "" && !IsDigit(rest[0])
    ensures DigitRun(digits + rest) == |digits|
  {
    if digits == "" {
      assert digits + rest == rest;
    } else {
      assert (digits + rest)[1..] == digits[1..] + rest;
      RunEnds(digits[1..], rest);
    }
  }

  lemma {:induction false} DecimalReads(zeros: string, n: nat)
    requires forall i | 0 <= i < |zeros| :: zeros[i] == '0'
    ensures Decimal(zeros + Text.Natural(n)) == n
    decreases n
  {
    var digits := zeros + Text.Natural(n);
    var front := digits[..|digits| - 1];
    if n < 10 {
      assert front == zeros;
      ZerosAreZero(zeros);
      assert digits[|digits| - 1] == Text.Digit(n);
    } else {
      assert front == zeros + Text.Natural(n / 10);
      DecimalReads(zeros, n / 10);
      assert digits[|digits| - 1] == Text.Digit(n % 10);
    }
  }

  lemma {:induction false} ZerosAreZero(zeros: string)
    requires forall i | 0 <= i < |zeros| :: zeros[i] == '0'
    ensures Decimal(zeros) == 0
  {
    if zeros != "" { ZerosAreZero(zeros[..|zeros| - 1]); }
  }

  /** The migration is that of the SQL file. */
  predicate IsOf(m: Migration, e: Entry) {
    !e.isDir && IsSql(e.name) && m.name == e.name && m.body == e.body && m.version == Version(e.name)
  }

  /** Every migration is a file of the directory, under its own name and with its own body, and every
      SQL file is one. */
  ghost predicate Reads(entries: seq<Entry>, ms: seq<Migration>) {
    && (forall m | m in ms :: exists e | e in entries :: IsOf(m, e))
    && (forall e | e in entries && !e.isDir && IsSql(e.name) :: exists m | m in ms :: IsOf(m, e))
  }

  lemma {:induction false} CollectedReads(entries: seq<Entry>)
    ensures Reads(entries, Collected(entries))
  {
    if entries != [] {
      var front, last := entries[..|entries| - 1], entries[|entries| - 1];
      CollectedReads(front);
      assert entries == front + [last];
      if Wanted(last) { assert Read(last) in Collected(entries) && IsOf(Read(last), last); }
      forall m | m in Collected(entries) ensures exists e | e in entries :: IsOf(m, e) {
        if m !in Collected(front) { assert last in entries && IsOf(m, last); }
      }
    }
  }

  lemma SortedReads(entries: seq<Entry>, ms: seq<Migration>, out: seq<Migration>)
    requires Reads(entries, ms) && multiset(out) == multiset(ms)
    ensures Reads(entries, out)
  {
    assert forall m :: m in out <==> m in multiset(out);
    assert forall m :: m in ms <==> m in multiset(ms);
  }

  // ---- loading ----

  ghost predicate Ascending(ms: seq<Migration>) {
    forall i, j | 0 <= i < j < |ms| :: ms[i].version <= ms[j].version
  }

  ghost predicate Increasing(ms: seq<Migration>) {
    && (forall i | 0 <= i < |ms| :: 0 < ms[i].version)
    && (forall i, j | 0 <= i < j < |ms| :: ms[i].version < ms[j].version)
  }

  ghost predicate DistinctVersions(ms: seq<Migration>) {
    forall i, j | 0 <= i < j < |ms| :: ms[i].version != ms[j].version
  }

  function Inserted(m: Migration, ms: seq<Migration>): seq<Migration> {
    if ms == [] || m.version <= ms[0].version then [m] + ms else [ms[0]] + Inserted(m, ms[1..])
  }

  lemma {:induction false} InsertedKeepsAll(m: Migration, ms: seq<Migration>)
    ensures multiset(Inserted(m, ms)) == multiset{m} + multiset(ms)
  {
    if ms != [] && m.version > ms[0].version {
      assert ms == [ms[0]] + ms[1..];
      InsertedKeepsAll(m, ms[1..]);
    }
  }

  lemma {:induction false} InsertedAscends(m: Migration, ms: seq<Migration>)
    requires Ascending(ms)
    ensures Ascending(Inserted(m, ms))
  {
    if ms != [] && m.version > ms[0].version {
      InsertedAscends(m, ms[1..]);
      InsertedKeepsAll(m, ms[1..]);
      var rest := Inserted(m, ms[1..]);
      forall j | 0 <= j < |rest| ensures ms[0].version <= rest[j].version {
        assert rest[j] in multiset(rest);
        assert rest[j] == m || rest[j] in ms[1..];
      }
    }
  }

  /** Stands for the library sort by version. */
  function SortedByVersion(ms: seq<Migration>): seq<Migration> {
    if ms == [] then [] else Inserted(ms[0], SortedByVersion(ms[1..]))
  }

  lemma {:induction false} SortedIsSorted(ms: seq<Migration>)
    ensures multiset(SortedByVersion(ms)) == multiset(ms) && Ascending(SortedByVersion(ms))
  {
    if ms != [] {
      SortedIsSorted(ms[1..]);
      InsertedKeepsAll(ms[0], SortedByVersion(ms[1..]));
      InsertedAscends(ms[0], SortedByVersion(ms[1..]));
      assert ms == [ms[0]] + ms[1..];
    }
  }

  lemma SamePairs(a: seq<Migration>, b: seq<Migration>)
    requires multiset(a) == multiset(b) && DistinctVersions(a)
    ensures DistinctVersions(b)
  {
    forall i, j | 0 <= i < j < |b| ensures b[i].version != b[j].version {
      if b[i].version == b[j].version {
        assert b[i] in multiset(a) && b[j] in multiset(a);
        var x :| 0 <= x < |a| && a[x] == b[i];
        var y :| 0 <= y < |a| && a[y] == b[j];
        assert x == y;
        TwiceInMultiset(b, i, j);
        OnceInMultiset(a, x);
      }
    }
  }

  lemma TwiceInMultiset(b: seq<Migration>, i: nat, j: nat)
    requires i < j < |b| && b[i] == b[j]
    ensures multiset(b)[b[i]] >= 2
  {
    assert b == b[..j] + b[j..];
    assert b[..j][i] == b[i] && b[j..][0] == b[i];
    assert b[i] in multiset(b[..j]) && b[i] in multiset(b[j..]);
  }

  lemma OnceInMultiset(a: seq<Migration>, x: nat)
    requires x < |a| && DistinctVersions(a)
    ensures multiset(a)[a[x]] == 1
  {
    var before, after := a[..x], a[x + 1..];
    assert a == before + [a[x]] + after;
    assert a[x] !in before && a[x] !in after;
    assert multiset(before)[a[x]] == 0 && multiset(after)[a[x]] == 0;
  }

  /** The first n entries are good, and `out` is what they hold. */
  ghost predicate ReadSoFar(entries: seq<Entry>, n: nat, out: seq<Migration>) {
    && n <= |entries| && out == Collected(entries[..n])
    && (forall i | 0 <= i < n :: Good(entries[i]))
    && (forall i | 0 <= i < |out| :: 0 < out[i].version)
  }

  lemma CollectedNext(entries: seq<Entry>, n: nat)
    requires n < |entries|
    ensures Collected(entries[..n + 1]) ==
      Collected(entries[..n]) + if Wanted(entries[n]) then [Read(entries[n])] else []
  {
    assert entries[..n + 1][..n] == entries[..n];
  }

  /** The first loop: validates and reads the entries in directory order. */
  method ReadAll(entries: seq<Entry>) returns (out: seq<Migration>, err: LoadError)
    ensures err == Nil <==> forall i | 0 <= i < |entries| :: Good(entries[i])
    ensures err == Nil ==> ReadSoFar(entries, |entries|, out)
  {
    out := [];
    for n := 0 to |entries|
      invariant ReadSoFar(entries, n, out)
    {
      var e := entries[n];
      CollectedNext(entries, n);
      if Wanted(e) {
        if !WellNamed(e.name) { return [], BadName(e.name); }
        var v := Version(e.name);
        if v > Text.MAX_INT || v <= 0 { return [], BadVersion(e.name); }
        out := out + [Migration(v, e.name, e.body)];
      }
    }
    err := Nil;
  }

  lemma SortKeepsPositive(ms: seq<Migration>, out: seq<Migration>)
    requires multiset(out) == multiset(ms) && forall i | 0 <= i < |ms| :: 0 < ms[i].version
    ensures forall i | 0 <= i < |out| :: 0 < out[i].version
  {
    forall i | 0 <= i < |out| ensures 0 < out[i].version {
      assert out[i] in multiset(ms);
    }
  }

  /** loadMigrationsFromFS: succeeds exactly when every .sql file is well named with a positive
      version and no two share a version, and then returns all of them in strict order. */
  method LoadMigrations(entries: seq<Entry>) returns (out: seq<Migration>, err: LoadError)
    ensures err == Nil <==> (forall i | 0 <= i < |entries| :: Good(entries[i])) && DistinctVersions(Collected(entries))
    ensures err == Nil ==> Increasing(out) && multiset(out) == multiset(Collected(entries))
    ensures err == Nil ==> forall m | m in out :: exists e | e in entries :: IsOf(m, e)
    ensures err == Nil ==> forall e | e in entries && !e.isDir && IsSql(e.name) :: exists m | m in out :: IsOf(m, e)
  {
    var found;
    found, err := ReadAll(entries);
    if err != Nil { return [], err; }
    assert entries[..|entries|] == entries;
    out := SortedByVersion(found);
    SortedIsSorted(found);
    SortKeepsPositive(found, out);
    var i := FirstRepeat(out);
    if i < |out| {
      if DistinctVersions(found) { SamePairs(found, out); }
      return [], Duplicate(out[i].version);
    }
    StrictFromSteps(out);
    SamePairs(out, found);
    CollectedReads(entries);
    SortedReads(entries, found, out);
  }

  /** The second loop: the first migration with the version of the one before it. */
  method FirstRepeat(out: seq<Migration>) returns (i: nat)
    ensures i >= |out| ==> forall j | 1 <= j < |out| :: out[j].version != out[j - 1].version
    ensures i < |out| ==> i > 0 && out[i].version == out[i - 1].version
  {
    i := 1;
    while i < |out|
      invariant 1 <= i && forall j | 1 <= j < i && j < |out| :: out[j].version != out[j - 1].version
    {
      if out[i].version == out[i - 1].version { return; }
      i := i + 1;
    }
  }

  lemma {:induction false} StrictFromSteps(ms: seq<Migration>)
    requires Ascending(ms) && forall j | 1 <= j < |ms| :: ms[j].version != ms[j - 1].version
    requires forall i | 0 <= i < |ms| :: 0 < ms[i].version
    ensures Increasing(ms) && DistinctVersions(ms)
  {
    forall i, j | 0 <= i < j < |ms| ensures ms[i].version < ms[j].version {
      assert ms[i].version <= ms[j - 1].version < ms[j].version;
    }
  }

  // ---- applying ----

  /** `committed` is the history of bodies the database has committed. */
  class Database {
    var userVersion: int
    var committed: seq<Migration>
    ghost var faulted: bool

    constructor ()
      ensures userVersion == 0 && committed == [] && !faulted
    {
      userVersion, committed, faulted := 0, [], false;
    }

    /** The body and the version bump commit together or not at all. */
    method ApplyMigration(m: Migration) returns (ok: bool)
      modifies this
      ensures ok ==> userVersion == m.version && committed == old(committed) + [m]
      ensures !ok ==> userVersion == old(userVersion) && committed == old(committed)
      ensures faulted == (old(faulted) || !ok)
    {
      ok := *;
      if ok { userVersion, committed := m.version, committed + [m]; } else { faulted := true; }
    }

    /** migrate: `done` is how many of the pending migrations it committed before it failed, or
        the process died. */
    method Migrate(ms: seq<Migration>) returns (ok: bool, ghost done: nat)
      modifies this
      ensures done <= |Pending(ms, old(userVersion))|
      ensures Db(userVersion, committed) == Opened(Db(old(userVersion), old(committed)), ms, done)
      ensures ok ==> done == |Pending(ms, old(userVersion))|
      ensures (old(faulted) ==> faulted) && (!ok ==> faulted)
    {
      var current := userVersion;
      done := 0;
      for n := 0 to |ms|
        invariant done == |Pending(ms[..n], current)| && (old(faulted) ==> faulted)
        invariant Pending(ms[..n], current) <= Pending(ms, current)
        invariant Db(userVersion, committed) == Opened(Db(current, old(committed)), ms, done)
      {
        assert ms[..n + 1] == ms[..n] + [ms[n]] && ms[..n + 1][..n] == ms[..n];
        PendingGrows(ms, current, n);
        if ms[n].version <= current { continue; }
        var applied := ApplyMigration(ms[n]);
        if !applied { return false, done; }
        ghost var pending := Pending(ms, current);
        assert Pending(ms[..n + 1], current)[done] == ms[n] == pending[done];
        assert pending[..done + 1] == pending[..done] + [ms[n]];
        done := done + 1;
      }
      assert ms[..|ms|] == ms;
      ok := true;
    }
  }

  /** The migrations above `current`, in order. */
  function Pending(ms: seq<Migration>, current: int): seq<Migration> {
    if ms == [] then []
    else
      var last := ms[|ms| - 1];
      Pending(ms[..|ms| - 1], current) + if last.version <= current then [] else [last]
  }

  lemma {:induction false} PendingGrows(ms: seq<Migration>, current: int, n: nat)
    requires n < |ms|
    ensures Pending(ms[..n], current) <= Pending(ms[..n + 1], current) <= Pending(ms, current)
    decreases |ms|
  {
    assert ms[..n + 1][..n] == ms[..n];
    if n + 1 == |ms| {
      assert ms[..n + 1] == ms;
    } else {
      var front := ms[..|ms| - 1];
      assert front[..n + 1] == ms[..n + 1] && front[..n] == ms[..n];
      PendingGrows(front, current, n);
    }
  }

  datatype Db = Db(version: int, committed: seq<Migration>)

  /** A database after an open that committed `done` of its pending migrations. */
  function Opened(db: Db, ms: seq<Migration>, done: nat): Db
    requires done <= |Pending(ms, db.version)|
  {
    if done == 0 then db
    else
      var now := Pending(ms, db.version)[..done];
      Db(now[done - 1].version, db.committed + now)
  }

  /** Opens that die after the given numbers of commits (or as late as they can), then one that
      completes. */
  function Reopened(db: Db, ms: seq<Migration>, deaths: seq<nat>): Db
    decreases |deaths|
  {
    var all := |Pending(ms, db.version)|;
    if deaths == [] then Opened(db, ms, all)
    else Reopened(Opened(db, ms, if deaths[0] < all then deaths[0] else all), ms, deaths[1..])
  }

  /** The database has committed the first `n` migrations and nothing else. */
  ghost predicate UpTo(db: Db, ms: seq<Migration>, n: nat) {
    n <= |ms| && db == Db(LastVersion(ms, n), ms[..n])
  }

  function LastVersion(ms: seq<Migration>, n: nat): int
    requires n <= |ms|
  {
    if n == 0 then 0 else ms[n - 1].version
  }

  lemma PendingNext(ms: seq<Migration>, k: nat, current: int)
    requires k < |ms|
    ensures Pending(ms[..k + 1], current) ==
      Pending(ms[..k], current) + if ms[k].version <= current then [] else [ms[k]]
  {
    assert ms[..k + 1][..k] == ms[..k];
  }

  lemma CommittedIff(ms: seq<Migration>, n: nat, k: nat)
    requires Increasing(ms) && n <= |ms| && k < |ms|
    ensures ms[k].version <= LastVersion(ms, n) <==> k < n
  {
    if n > 0 && k < n - 1 { assert ms[k].version < ms[n - 1].version; }
    if n > 0 && n - 1 < k { assert ms[n - 1].version < ms[k].version; }
  }

  lemma {:induction false} PendingIsRest(ms: seq<Migration>, n: nat, k: nat)
    requires Increasing(ms) && n <= |ms| && k <= |ms|
    ensures Pending(ms[..k], LastVersion(ms, n)) == if k <= n then [] else ms[n..k]
    decreases k
  {
    if k > 0 {
      PendingIsRest(ms, n, k - 1);
      PendingNext(ms, k - 1, LastVersion(ms, n));
      CommittedIff(ms, n, k - 1);
      if n < k { RestGrows(ms, n, k); }
    }
  }

  lemma RestGrows(ms: seq<Migration>, n: nat, k: nat)
    requires n < k <= |ms|
    ensures (if k - 1 <= n then [] else ms[n..k - 1]) + [ms[k - 1]] == ms[n..k]
  {
  }

  lemma AllPending(db: Db, ms: seq<Migration>, n: nat)
    requires Increasing(ms) && UpTo(db, ms, n)
    ensures Pending(ms, db.version) == ms[n..]
  {
    PendingIsRest(ms, n, |ms|);
    assert ms[..|ms|] == ms;
  }

  lemma PrefixGrows(ms: seq<Migration>, n: nat, done: nat)
    requires n + done <= |ms|
    ensures ms[n..][..done] == ms[n..n + done] && ms[..n] + ms[n..][..done] == ms[..n + done]
  {
  }

  lemma OpenAdvances(db: Db, ms: seq<Migration>, n: nat, done: nat)
    requires Increasing(ms) && UpTo(db, ms, n) && n + done <= |ms|
    ensures done <= |Pending(ms, db.version)| && UpTo(Opened(db, ms, done), ms, n + done)
  {
    AllPending(db, ms, n);
    PrefixGrows(ms, n, done);
  }

  /** From an empty database every sequence of interrupted opens followed by a completed one
      commits each migration exactly once and in version order, and at every open in between the
      version is that of the last commit. */
  lemma {:induction false} CommittedOnceInOrder(db: Db, ms: seq<Migration>, n: nat, deaths: seq<nat>)
    requires Increasing(ms) && UpTo(db, ms, n)
    ensures Reopened(db, ms, deaths) == Db(LastVersion(ms, |ms|), ms)
    decreases |deaths|
  {
    AllPending(db, ms, n);
    var all := |ms| - n;
    if deaths == [] {
      OpenAdvances(db, ms, n, all);
      assert ms[..|ms|] == ms;
    } else {
      var done := if deaths[0] < all then deaths[0] else all;
      OpenAdvances(db, ms, n, done);
      CommittedOnceInOrder(Opened(db, ms, done), ms, n + done, deaths[1..]);
    }
  }

  // ---- why strict order is needed ----

  /** However often opens die, one that completes has committed all of `ms`, in order. */
  ghost predicate SurvivesDeaths(ms: seq<Migration>) {
    forall deaths: seq<nat> :: Reopened(Db(0, []), ms, deaths).committed == ms
  }

  lemma {:induction false} StepsAscend(ms: seq<Migration>)
    requires Positive(ms)
    requires forall i | 0 < i < |ms| :: ms[i - 1].version < ms[i].version
    ensures Increasing(ms)
  {
    if ms != [] {
      var front := ms[..|ms| - 1];
      StepsAscend(front);
      forall i, j | 0 <= i < j < |ms| ensures ms[i].version < ms[j].version {
        if j == |ms| - 1 && i < j - 1 { assert front[i].version < front[j - 1].version; }
      }
    }
  }

  ghost predicate Positive(ms: seq<Migration>) {
    forall i | 0 <= i < |ms| :: 0 < ms[i].version
  }

  lemma {:induction false} PositivePending(ms: seq<Migration>)
    requires Positive(ms)
    ensures Pending(ms, 0) == ms
  {
    if ms != [] {
      var front, last := ms[..|ms| - 1], ms[|ms| - 1];
      PositivePending(front);
      assert ms == front + [last];
    }
  }

  lemma {:induction false} PendingAbove(ms: seq<Migration>, current: int)
    ensures forall m | m in Pending(ms, current) :: m.version > current
  {
    if ms != [] { PendingAbove(ms[..|ms| - 1], current); }
  }

  lemma RestStarts(ms: seq<Migration>, k: nat, rest: seq<Migration>)
    requires k < |ms| && ms[..k] + rest == ms
    ensures ms[k] in rest
  {
    assert (ms[..k] + rest)[k] == rest[0];
  }

  lemma FirstOpen(ms: seq<Migration>, k: nat)
    requires Positive(ms) && 0 < k <= |ms|
    ensures k <= |Pending(ms, 0)| && Opened(Db(0, []), ms, k) == Db(ms[k - 1].version, ms[..k])
  {
    PositivePending(ms);
    assert [] + ms[..k] == ms[..k];
  }

  lemma LastOpen(db: Db, ms: seq<Migration>)
    ensures Reopened(db, ms, []).committed == db.committed + Pending(ms, db.version)
  {
    var rest := Pending(ms, db.version);
    assert rest[..|rest|] == rest;
  }

  lemma OneDeath(db: Db, ms: seq<Migration>, k: nat)
    requires k <= |Pending(ms, db.version)|
    ensures Reopened(db, ms, [k]) == Reopened(Opened(db, ms, k), ms, [])
  {
    assert [k][1..] == [];
  }

  /** An open that dies after k commits, and what is pending after it. */
  lemma TwoOpens(ms: seq<Migration>, k: nat)
    requires Positive(ms) && 0 < k <= |ms|
    ensures Reopened(Db(0, []), ms, [k]).committed == ms[..k] + Pending(ms, ms[k - 1].version)
  {
    FirstOpen(ms, k);
    OneDeath(Db(0, []), ms, k);
    LastOpen(Db(ms[k - 1].version, ms[..k]), ms);
  }

  /** Where the versions do not ascend, an open that dies just before loses the next migration. */
  lemma DescentLoses(ms: seq<Migration>, k: nat)
    requires Positive(ms) && 0 < k < |ms| && ms[k].version <= ms[k - 1].version
    ensures Reopened(Db(0, []), ms, [k]).committed != ms
  {
    TwoOpens(ms, k);
    var rest := Pending(ms, ms[k - 1].version);
    PendingAbove(ms, ms[k - 1].version);
    if ms[..k] + rest == ms { RestStarts(ms, k, rest); }
  }

  lemma IncreasingSurvives(ms: seq<Migration>)
    requires Increasing(ms)
    ensures SurvivesDeaths(ms)
  {
    forall deaths: seq<nat> ensures Reopened(Db(0, []), ms, deaths).committed == ms {
      CommittedOnceInOrder(Db(0, []), ms, 0, deaths);
    }
  }

  /** The order is needed exactly: among migrations with positive versions, all are committed in
      order after every sequence of interrupted opens if and only if the versions are strictly
      increasing. */
  lemma SurvivesDeathsIff(ms: seq<Migration>)
    requires Positive(ms)
    ensures SurvivesDeaths(ms) <==> Increasing(ms)
  {
    if Increasing(ms) {
      IncreasingSurvives(ms);
    } else if k :| 0 < k < |ms| && ms[k].version <= ms[k - 1].version {
      DescentLoses(ms, k);
    } else {
      StepsAscend(ms);
    }
  }
}
