/** The reaper's own logic (internal/reaper/reaper.go): the segments of a judgment reason, on
    which the stuck warning's idempotence rests, and one whole sweep without interference. */
module Reaper {
  import opened Tasks

  // ---- segments ----

  predicate StartsWithSeparator(s: string) {
    |s| >= 2 && s[0] == ';' && s[1] == ' '
  }

  /** strings.Split(s, "; "): cuts at every separator, from the left. */
  function Segments(s: string): (segs: seq<string>)
    ensures |segs| > 0
  {
    if s == "" then [""]
    else if StartsWithSeparator(s) then [""] + Segments(s[2..])
    else
      var rest := Segments(s[1..]);
      [[s[0]] + rest[0]] + rest[1..]
  }

  /** Splitting is a homomorphism over joining, whatever the two sides end and begin with. */
  lemma {:induction false} SegmentsOfJoin(a: string, b: string)
    ensures Segments(a + JUDGMENT_REASON_SEPARATOR + b) == Segments(a) + Segments(b)
  {
    var whole := a + JUDGMENT_REASON_SEPARATOR + b;
    if a == "" {
      assert whole[2..] == b;
    } else if StartsWithSeparator(a) {
      assert StartsWithSeparator(whole);
      assert whole[2..] == a[2..] + JUDGMENT_REASON_SEPARATOR + b;
      SegmentsOfJoin(a[2..], b);
    } else {
      assert whole[0] == a[0] && (|a| == 1 ==> whole[1] == ';') && (|a| > 1 ==> whole[1] == a[1]);
      assert whole[1..] == a[1..] + JUDGMENT_REASON_SEPARATOR + b;
      SegmentsOfJoin(a[1..], b);
    }
  }

  /** Gluing the segments back with the separator gives the text again. */
  function Glue(segs: seq<string>): string
    requires |segs| > 0
  {
    if |segs| == 1 then segs[0] else segs[0] + JUDGMENT_REASON_SEPARATOR + Glue(segs[1..])
  }

  lemma AppendAssociates(a: string, b: string, c: string)
    ensures a + b + c == a + (b + c)
  {
  }

  lemma GlueLonger(c: char, segs: seq<string>)
    requires |segs| > 0
    ensures Glue([[c] + segs[0]] + segs[1..]) == [c] + Glue(segs)
  {
    var longer := [[c] + segs[0]] + segs[1..];
    assert |longer| == |segs| && longer[0] == [c] + segs[0];
    if |segs| > 1 {
      assert longer[1..] == segs[1..];
      AppendAssociates([c], segs[0], JUDGMENT_REASON_SEPARATOR);
      AppendAssociates([c], segs[0] + JUDGMENT_REASON_SEPARATOR, Glue(segs[1..]));
    }
  }

  lemma GlueMore(segs: seq<string>)
    requires |segs| > 0
    ensures Glue([""] + segs) == JUDGMENT_REASON_SEPARATOR + Glue(segs)
  {
    var more := [""] + segs;
    assert |more| > 1 && more[0] == "" && more[1..] == segs;
    assert "" + JUDGMENT_REASON_SEPARATOR == JUDGMENT_REASON_SEPARATOR;
  }

  lemma {:induction false} GlueInvertsSegments(s: string)
    ensures Glue(Segments(s)) == s
  {
    if s == "" {
    } else if StartsWithSeparator(s) {
      GlueInvertsSegments(s[2..]);
      GlueMore(Segments(s[2..]));
      assert s == JUDGMENT_REASON_SEPARATOR + s[2..];
    } else {
      GlueInvertsSegments(s[1..]);
      GlueLonger(s[0], Segments(s[1..]));
      assert s == [s[0]] + s[1..];
    }
  }

  predicate Occurs(s: string) {
    exists i | 0 <= i < |s| :: StartsWithSeparator(s[i..])
  }

  /** A text is its own only segment exactly when it contains no separator. */
  lemma {:induction false} OneSegment(s: string)
    ensures Segments(s) == [s] <==> !Occurs(s)
  {
    if s == "" {
    } else if StartsWithSeparator(s) {
      assert s[0..] == s;
      assert |Segments(s)| > 1;
    } else {
      OneSegment(s[1..]);
      if Occurs(s) {
        var i :| 0 <= i < |s| && StartsWithSeparator(s[i..]);
        assert i != 0 by { assert s[0..] == s; }
        assert s[1..][i - 1..] == s[i..];
      }
      if Occurs(s[1..]) {
        var i :| 0 <= i < |s[1..]| && StartsWithSeparator(s[1..][i..]);
        assert s[i + 1..] == s[1..][i..];
      }
      var rest := Segments(s[1..]);
      assert s == [s[0]] + s[1..];
      if Segments(s) == [s] {
        assert rest[1..] == [] && [s[0]] + rest[0] == s;
        assert rest[0] == ([s[0]] + rest[0])[1..] == s[1..];
        assert rest == [rest[0]];
      }
    }
  }

  predicate HasToken(reason: string, token: string) {
    token in Segments(reason)
  }

  const STUCK_WARN_PREFIX := "[reaper] stuck running over "

  function WarnToken(threshold: string): string {
    STUCK_WARN_PREFIX + threshold
  }

  /** The warn token of any duration text without a semicolon is one segment. */
  lemma WarnTokenIsOneSegment(threshold: string)
    requires ';' !in threshold
    ensures Segments(WarnToken(threshold)) == [WarnToken(threshold)]
  {
    var token := WarnToken(threshold);
    assert ';' !in STUCK_WARN_PREFIX;
    assert ';' !in token;
    forall i | 0 <= i < |token| ensures !StartsWithSeparator(token[i..]) {
      assert token[i] in token;
    }
    OneSegment(token);
  }

  // ---- the life of the reason of a running row ----

  /** A stuck row's reason is visited by a sweep, or some other note is appended to it. */
  datatype Visit = Stuck | Note(text: string)

  function Visited(reason: string, token: string, v: Visit): string {
    match v
    case Stuck => if HasToken(reason, token) then reason else Joined(reason, token)
    case Note(text) => Joined(reason, text)
  }

  function AllVisited(reason: string, token: string, vs: seq<Visit>): string
    decreases |vs|
  {
    if vs == [] then reason else AllVisited(Visited(reason, token, vs[0]), token, vs[1..])
  }

  function Warnings(reason: string, token: string, vs: seq<Visit>): nat
    decreases |vs|
  {
    if vs == [] then 0
    else
      (if vs[0].Stuck? && !HasToken(reason, token) then 1 else 0)
        + Warnings(Visited(reason, token, vs[0]), token, vs[1..])
  }

  function TokenCount(reason: string, token: string): nat {
    multiset(Segments(reason))[token]
  }

  /** Appending a note adds exactly the tokens in the note. */
  lemma JoinedTokens(reason: string, note: string, token: string)
    requires token != ""
    ensures TokenCount(Joined(reason, note), token) == TokenCount(reason, token) + TokenCount(note, token)
    ensures HasToken(Joined(reason, note), token) <==> HasToken(reason, token) || HasToken(note, token)
  {
    if reason != "" {
      SegmentsOfJoin(reason, note);
    }
  }

  /** No segment contains the separator. */
  lemma {:induction false} SegmentsHaveNoSeparator(s: string, seg: string)
    requires seg in Segments(s)
    ensures !Occurs(seg)
  {
    if s == "" {
    } else if StartsWithSeparator(s) {
      if seg != "" { SegmentsHaveNoSeparator(s[2..], seg); }
    } else {
      var rest := Segments(s[1..]);
      if seg == [s[0]] + rest[0] {
        SegmentsHaveNoSeparator(s[1..], rest[0]);
        FirstSegmentIsPrefix(s[1..]);
        forall i | 0 <= i < |seg| ensures !StartsWithSeparator(seg[i..]) {
          if i > 0 {
            assert seg[i..] == rest[0][i - 1..];
          } else {
            assert seg[0..] == seg && (|seg| > 1 ==> s[1] == rest[0][0] == seg[1]);
          }
        }
      } else {
        SegmentsHaveNoSeparator(s[1..], seg);
      }
    }
  }

  lemma {:induction false} FirstSegmentIsPrefix(s: string)
    ensures Segments(s)[0] <= s
  {
    if s != "" && !StartsWithSeparator(s) {
      FirstSegmentIsPrefix(s[1..]);
    }
  }

  /** Exactly the tokens without a separator are recognised once they have been appended; one with a
      separator inside is never found, and every sweep would append it again. */
  lemma TokenRecognisedIff(token: string)
    requires token != ""
    ensures (forall reason :: HasToken(Joined(reason, token), token)) <==> !Occurs(token)
    ensures Occurs(token) ==> forall reason :: !HasToken(reason, token)
  {
    if Occurs(token) {
      forall reason ensures !HasToken(reason, token) {
        if HasToken(reason, token) { SegmentsHaveNoSeparator(reason, token); }
      }
      assert !HasToken(Joined("", token), token);
    } else {
      OneSegment(token);
      forall reason ensures HasToken(Joined(reason, token), token) {
        JoinedTokens(reason, token, token);
      }
    }
  }

  function NotedTokens(token: string, vs: seq<Visit>): nat {
    if vs == [] then 0
    else (if vs[0].Note? then TokenCount(vs[0].text, token) else 0) + NotedTokens(token, vs[1..])
  }

  /** Over any visits and notes the warning is written at most once, and not at all when it was
      already there; once there it stays found; and the reason ends with the tokens it had, the
      one written, and those the notes brought as whole segments. */
  lemma {:induction false} WarnedOnce(reason: string, token: string, vs: seq<Visit>)
    requires token != "" && Segments(token) == [token]
    ensures Warnings(reason, token, vs) <= 1
    ensures HasToken(reason, token) ==>
      Warnings(reason, token, vs) == 0 && HasToken(AllVisited(reason, token, vs), token)
    ensures Stuck in vs ==> HasToken(AllVisited(reason, token, vs), token)
    ensures TokenCount(AllVisited(reason, token, vs), token)
      == TokenCount(reason, token) + Warnings(reason, token, vs) + NotedTokens(token, vs)
    decreases |vs|
  {
    if vs != [] {
      var next := Visited(reason, token, vs[0]);
      match vs[0] {
        case Stuck => JoinedTokens(reason, token, token);
        case Note(text) => JoinedTokens(reason, text, token);
      }
      WarnedOnce(next, token, vs[1..]);
      assert Stuck in vs ==> vs[0] == Stuck || Stuck in vs[1..];
    }
  }

  // ---- a sweep nobody interferes with ----

  const FAILED_REASON := "workspace disappeared (reaper)"

  /** What the sweep does to one row. */
  function SweptRow(row: Task, alive: set<string>, now: Time, threshold: Time, token: string): Task {
    if row.status != Running || row.ws == "" then row
    else if row.ws !in alive then row.(status := Failed, judgmentReason := Joined(row.judgmentReason, FAILED_REASON))
    else if row.startedAt == 0 || now - row.startedAt <= threshold || HasToken(row.judgmentReason, token) then row
    else row.(judgmentReason := Joined(row.judgmentReason, token))
  }

  /** The sweep when the statements on the rows `broken` fail in the driver. */
  function SweptBut(rows: Rows, broken: set<Id>, alive: set<string>, now: Time, threshold: Time, token: string): Rows {
    map id | id in rows :: if id in broken then rows[id] else SweptRow(rows[id], alive, now, threshold, token)
  }

  function Swept(rows: Rows, alive: set<string>, now: Time, threshold: Time, token: string): Rows {
    SweptBut(rows, {}, alive, now, threshold, token)
  }

  lemma SweptRowTwice(row: Task, alive: set<string>, now: Time, threshold: Time, token: string)
    requires token != "" && Segments(token) == [token]
    ensures var once := SweptRow(row, alive, now, threshold, token);
      SweptRow(once, alive, now, threshold, token) == once
  {
    JoinedTokens(row.judgmentReason, token, token);
  }

  /** A sweep over an already swept table changes nothing, so repeated sweeps do not pile up. */
  lemma SweepIdempotent(rows: Rows, alive: set<string>, now: Time, threshold: Time, token: string)
    requires token != "" && Segments(token) == [token]
    ensures var once := Swept(rows, alive, now, threshold, token); Swept(once, alive, now, threshold, token) == once
  {
    var once := Swept(rows, alive, now, threshold, token);
    var twice := Swept(once, alive, now, threshold, token);
    assert twice.Keys == once.Keys;
    forall id | id in once ensures twice[id] == once[id] {
      SweptRowTwice(rows[id], alive, now, threshold, token);
    }
  }

  /** The sweep, column by column: a row that does not run, or has no session, and one whose statement
      failed, stays as it is; one whose session is gone fails, with the disappearance behind its earlier
      reason; of the others exactly those over the threshold carry the warning afterwards. */
  lemma SweptReads(rows: Rows, rows': Rows, broken: set<Id>, alive: set<string>, now: Time, threshold: Time,
                   token: string)
    requires token != "" && rows' == SweptBut(rows, broken, alive, now, threshold, token)
    ensures forall id | id in rows && (id in broken || rows[id].status != Running || rows[id].ws == "") ::
      rows'[id] == rows[id]
    ensures forall id | id in rows && id !in broken && rows[id].status == Running && rows[id].ws != "" ::
      var row, row' := rows[id], rows'[id];
      && (row.ws !in alive ==> row' == row.(
            status := Failed,
            judgmentReason := if row.judgmentReason == "" then "workspace disappeared (reaper)"
                              else row.judgmentReason + "; " + "workspace disappeared (reaper)"))
      && (row.ws in alive && (row.startedAt == 0 || now - row.startedAt <= threshold) ==> row' == row)
      && (row.ws in alive && row.startedAt != 0 && now - row.startedAt > threshold ==>
            row' == row.(
              judgmentReason := if token in Segments(row.judgmentReason) then row.judgmentReason
                                else if row.judgmentReason == "" then token else row.judgmentReason + "; " + token))
    ensures Segments(token) == [token] ==> forall id | id in rows && id !in broken && rows[id].status == Running &&
      rows[id].ws in alive && rows[id].startedAt != 0 && now - rows[id].startedAt > threshold && rows[id].ws != "" ::
        token in Segments(rows'[id].judgmentReason)
  {
    if Segments(token) == [token] {
      forall id | id in rows { JoinedTokens(rows[id].judgmentReason, token, token); }
    }
  }

  /** Whatever the store does, the reaper fails running rows or appends to their reason. */
  predicate ReaperStep(before: Task, after: Task) {
    && (before.status != Running ==> after == before)
    && (after.status == before.status || after.status == Failed)
    && after == before.(status := after.status, judgmentReason := after.judgmentReason)
  }

  lemma SweptButIsStep(rows: Rows, broken: set<Id>, alive: set<string>, now: Time, threshold: Time, token: string)
    ensures forall id | id in rows :: ReaperStep(rows[id], SweptBut(rows, broken, alive, now, threshold, token)[id])
  {
  }

  /** One row of the sweep; `row` is how it was listed, and `broke` says that its statement failed. */
  method SweepOne(repo: TaskRepo, id: Id, row: Task, alive: set<string>, now: Time, threshold: Time, token: string)
    returns (ghost broke: bool)
    requires token != "" && row.status == Running
    requires id in repo.rows && repo.rows[id] == row
    modifies repo
    ensures repo.nextId == old(repo.nextId) && repo.faulted == (old(repo.faulted) || broke)
    ensures repo.rows ==
      if broke then old(repo.rows) else old(repo.rows)[id := SweptRow(row, alive, now, threshold, token)]
  {
    assert repo.rows[id := row] == repo.rows;
    if row.ws == "" { return false; }
    if row.ws !in alive {
      var err := repo.MarkFailedFromRunningWithReason(id, FAILED_REASON);
      return err == Fault;
    }
    if row.startedAt == 0 || now - row.startedAt <= threshold || HasToken(row.judgmentReason, token) { return false; }
    var err := repo.AppendJudgmentReason(id, token);
    return err == Fault;
  }

  /** The sweep has worked through `done`. */
  predicate HalfSwept(start: Rows, rows: Rows, done: seq<Id>, broken: set<Id>, alive: set<string>, now: Time,
                      threshold: Time, token: string)
  {
    && rows.Keys == start.Keys && (forall id | id in broken :: id in done)
    && forall id | id in start ::
         rows[id] == if id !in done || id in broken then start[id]
                     else SweptRow(start[id], alive, now, threshold, token)
  }

  lemma SweptNext(start: Rows, rows: Rows, rows': Rows, done: seq<Id>, id: Id, broken: set<Id>, broke: bool,
                  alive: set<string>, now: Time, threshold: Time, token: string)
    requires HalfSwept(start, rows, done, broken, alive, now, threshold, token) && id in start && id !in done
    requires rows' == if broke then rows else rows[id := SweptRow(start[id], alive, now, threshold, token)]
    ensures HalfSwept(start, rows', done + [id], if broke then broken + {id} else broken, alive, now, threshold, token)
  {
  }

  lemma SweptAllOf(start: Rows, rows: Rows, ids: seq<Id>, broken: set<Id>, alive: set<string>, now: Time,
                   threshold: Time, token: string)
    requires IsListing(start, ListFilter([Running], 0, false), ids)
    requires HalfSwept(start, rows, ids, broken, alive, now, threshold, token)
    ensures rows == SweptBut(start, broken, alive, now, threshold, token)
  {
    forall id | id in start && id !in ids ensures start[id].status != Running {
      assert !Matches(ListFilter([Running], 0, false), start[id]);
    }
  }

  /** What the listing of the sessions answers. */
  datatype Sessions = Alive(ids: set<string>) | Unlisted

  /** Reaper.Run.  Only a listing that fails ends it early; a statement that fails leaves its row as
      it was, and the others are swept all the same. */
  method Run(repo: TaskRepo, sessions: Sessions, now: Time, threshold: Time, token: string)
    returns (failed: bool, ghost broken: set<Id>)
    requires token != ""
    modifies repo
    ensures repo.nextId == old(repo.nextId) && (old(repo.faulted) ==> repo.faulted)
    ensures failed ==> (repo.faulted || sessions.Unlisted?) && repo.rows == old(repo.rows)
    ensures sessions.Unlisted? ==> failed
    ensures !failed ==> repo.rows == SweptBut(old(repo.rows), broken, sessions.ids, now, threshold, token)
    ensures !repo.faulted ==> broken == {}
    ensures !failed ==> repo.rows.Keys == old(repo.rows).Keys
    ensures !failed ==>
      forall id | id in old(repo.rows) && (id in broken || old(repo.rows)[id].status != Running ||
        old(repo.rows)[id].ws == "") :: repo.rows[id] == old(repo.rows)[id]
    ensures !failed ==>
      forall id | id in old(repo.rows) && id !in broken && old(repo.rows)[id].status == Running &&
        old(repo.rows)[id].ws != "" ::
          var row, row' := old(repo.rows)[id], repo.rows[id];
          && (row.ws !in sessions.ids ==> row' == row.(
                status := Failed,
                judgmentReason := if row.judgmentReason == "" then "workspace disappeared (reaper)"
                                  else row.judgmentReason + "; " + "workspace disappeared (reaper)"))
          && (row.ws in sessions.ids && (row.startedAt == 0 || now - row.startedAt <= threshold) ==> row' == row)
          && (row.ws in sessions.ids && row.startedAt != 0 && now - row.startedAt > threshold ==>
                row' == row.(
                  judgmentReason := if token in Segments(row.judgmentReason) then row.judgmentReason
                                    else if row.judgmentReason == "" then token else row.judgmentReason + "; " + token))
    ensures !failed && Segments(token) == [token] ==>
      forall id | id in old(repo.rows) && id !in broken && old(repo.rows)[id].status == Running &&
        old(repo.rows)[id].ws in sessions.ids && old(repo.rows)[id].ws != "" && old(repo.rows)[id].startedAt != 0 &&
        now - old(repo.rows)[id].startedAt > threshold :: token in Segments(repo.rows[id].judgmentReason)
  {
    broken := {};
    var snapshot := repo.rows;
    var ids, err := repo.List(ListFilter([Running], 0, false));
    if err != Nil { return true, {}; }
    if sessions.Unlisted? { return true, {}; }
    ListingDistinct(snapshot, ListFilter([Running], 0, false), ids);
    broken := SweepAll(repo, snapshot, ids, sessions.ids, now, threshold, token);
    SweptAllOf(snapshot, repo.rows, ids, broken, sessions.ids, now, threshold, token);
    SweptReads(snapshot, repo.rows, broken, sessions.ids, now, threshold, token);
    return false, broken;
  }

  method SweepAll(repo: TaskRepo, snapshot: Rows, ids: seq<Id>, alive: set<string>, now: Time, threshold: Time,
                  token: string)
    returns (ghost broken: set<Id>)
    requires token != "" && repo.rows == snapshot
    requires forall i | 0 <= i < |ids| :: ids[i] in snapshot && snapshot[ids[i]].status == Running
    requires forall i, j | 0 <= i < j < |ids| :: ids[i] != ids[j]
    modifies repo
    ensures repo.nextId == old(repo.nextId) && (old(repo.faulted) ==> repo.faulted)
    ensures HalfSwept(snapshot, repo.rows, ids, broken, alive, now, threshold, token)
    ensures !repo.faulted ==> broken == {}
  {
    broken := {};
    var n := 0;
    while n < |ids|
      invariant n <= |ids|
      invariant repo.nextId == old(repo.nextId) && (old(repo.faulted) ==> repo.faulted)
      invariant HalfSwept(snapshot, repo.rows, ids[..n], broken, alive, now, threshold, token)
      invariant !repo.faulted ==> broken == {}
    {
      var id := ids[n];
      assert id !in ids[..n] && ids[..n + 1] == ids[..n] + [id];
      ghost var rows := repo.rows;
      ghost var broke := SweepOne(repo, id, snapshot[id], alive, now, threshold, token);
      SweptNext(snapshot, rows, repo.rows, ids[..n], id, broken, broke, alive, now, threshold, token);
      if broke { broken := broken + {id}; }
      n := n + 1;
    }
    assert ids[..n] == ids;
  }
}
