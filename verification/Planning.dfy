/** What the planner decides (internal/manage/plan.go, rules.go, verdict.go): the verdict of each
    candidate on a snapshot of the table, and the order of the ready ones.  The methods that
    compute these values are in module `PlanRun`. */
module Planning {
  import opened Collections
  import opened Tasks
  import T = Text

  // ---- verdicts ----

  const READY := "ready"
  const HOLD := "hold"
  const DEFER := "defer"
  const NEEDS_HUMAN := "needs-human"
  const DROP := "drop"

  datatype VerdictPolicy = VerdictPolicy(status: Status, dispatchable: bool, notify: bool)

  /** Both ways of building a registry define needs-human. */
  type Registry = r: map<string, VerdictPolicy> | NEEDS_HUMAN in r
    witness map[NEEDS_HUMAN := VerdictPolicy(WaitingHuman, false, true)]

  const DEFAULT_REGISTRY: Registry := map[
    READY := VerdictPolicy(Pending, true, false),
    HOLD := VerdictPolicy(Pending, false, false),
    DEFER := VerdictPolicy(Pending, false, false),
    NEEDS_HUMAN := VerdictPolicy(WaitingHuman, false, true),
    DROP := VerdictPolicy(Skipped, false, false)]

  /** An unknown verdict escalates to a human. */
  function PolicyFor(r: Registry, verdict: string): VerdictPolicy {
    if verdict in r then r[verdict] else r[NEEDS_HUMAN]
  }

  /** The default registry agrees with the store and the dispatcher: only ready is dispatched, and it
      is the label the dispatcher's query asks for; hold and defer stay pending, drop is skipped, and
      every other verdict, known or not, waits for a human, who is notified. */
  lemma DefaultPolicy(verdict: string)
    ensures var policy := PolicyFor(DEFAULT_REGISTRY, verdict);
      && (policy.dispatchable <==> verdict == "ready")
      && (policy.status == Pending <==> verdict in {"ready", "hold", "defer"})
      && (policy.status == Skipped <==> verdict == "drop")
      && (policy.status == WaitingHuman <==> policy.notify)
      && (policy.notify <==> verdict !in {"ready", "hold", "defer", "drop"})
    ensures DISPATCHABLE_PLAN_LABEL == "ready"
  {
    assert READY[0] != HOLD[0] && READY[0] != DEFER[0] && READY[0] != NEEDS_HUMAN[0] && READY[0] != DROP[0];
    assert HOLD[0] != DEFER[0] && HOLD[0] != NEEDS_HUMAN[0] && HOLD[0] != DROP[0];
    assert NEEDS_HUMAN[0] != DEFER[0] && NEEDS_HUMAN[0] != DROP[0] && DEFER[1] != DROP[1];
  }

  // ---- candidates ----

  /** `verdict` is the upstream triage's, empty when it left the candidate undecided. */
  datatype Candidate = Candidate(
    source: string,
    externalId: string,
    title: string,
    body: string,
    notes: string,
    priority: string,
    sourcePath: string,
    done: bool,
    verdict: string,
    reason: string)

  datatype Notes = Notes(dependsOn: seq<Id>, due: string, cwd: string)

  datatype Rules = Rules(
    blockIfDepsIncomplete: bool,
    escalateIfBodyEmpty: bool,
    dropIfCwdViolation: bool,
    boostIfDueWithin: int)

  /** Parsers and policies outside the planner are functions of the configuration.  `resolveLock`
      answers "" when no rule matches and on an error. */
  datatype Config = Config(
    rules: Rules,
    registry: Registry,
    defaultCwd: string,
    parseNotes: string -> Notes,
    cwdAllowed: string -> bool,
    resolveLock: string -> string,
    parsePriority: string -> real,
    parseDue: string -> T.Option<int>,
    now: int)

  datatype Planned = Planned(
    candidate: Candidate,
    verdict: string,
    status: Status,
    reason: string,
    score: real,
    rank: nat,
    serialized: bool)

  // ---- the rules ----

  /** `finished`: duplicate keys of done and skipped rows; `locks`: keys held by running rows. */
  datatype World = World(finished: set<string>, locks: set<string>)

  function DupKey(source: string, externalId: string): string {
    source + "\0" + externalId
  }

  function WorldOf(rows: Rows): World {
    World(
      set id | id in rows && rows[id].status in {Done, Skipped} && rows[id].externalId != "" ::
        DupKey(rows[id].source, rows[id].externalId),
      set id | id in rows && rows[id].status == Running && rows[id].lockKey != "" :: rows[id].lockKey)
  }

  predicate IsDone(rows: Rows, id: Id) {
    id in rows && rows[id].status == Done
  }

  predicate OutsideCwd(p: Config, n: Notes) {
    p.rules.dropIfCwdViolation && !p.cwdAllowed(if n.cwd == "" then p.defaultCwd else n.cwd)
  }

  predicate Duplicate(c: Candidate, w: World) {
    c.externalId != "" && DupKey(c.source, c.externalId) in w.finished
  }

  predicate Untitled(p: Config, c: Candidate) {
    p.rules.escalateIfBodyEmpty && T.TrimSpace(c.title) == ""
  }

  predicate Blocked(p: Config, n: Notes, rows: Rows) {
    p.rules.blockIfDepsIncomplete && exists id | id in n.dependsOn :: !IsDone(rows, id)
  }

  const CWD_VIOLATION := "rule (cwd-violation): cwd is outside allowed_cwd_prefixes"
  const DUPLICATE := "rule (duplicate): (source, external_id) already done or skipped"
  const NO_TITLE := "rule (info-insufficient): no actionable title"
  const DEPS_INCOMPLETE := "rule (deps-incomplete): a notes.depends_on task is not done"
  const CLEARED := "rule engine: cleared for scoring"

  /** The first rule that fires, or two empty strings. */
  function Cutoff(p: Config, c: Candidate, n: Notes, w: World, rows: Rows): (string, string) {
    if OutsideCwd(p, n) then (DROP, CWD_VIOLATION)
    else if Duplicate(c, w) then (DROP, DUPLICATE)
    else if Untitled(p, c) then (NEEDS_HUMAN, NO_TITLE)
    else if Blocked(p, n, rows) then (HOLD, DEPS_INCOMPLETE)
    else ("", "")
  }

  /** Verdict and reason; an upstream verdict is kept as it is. */
  function Judged(p: Config, c: Candidate, rows: Rows): (string, string) {
    if c.verdict != "" then (c.verdict, c.reason)
    else
      var cut := Cutoff(p, c, p.parseNotes(c.notes), WorldOf(rows), rows);
      if cut.0 != "" then cut else (READY, CLEARED)
  }

  predicate LockConflict(p: Config, c: Candidate, w: World) {
    p.resolveLock(c.notes) != "" && p.resolveLock(c.notes) in w.locks
  }

  /** A candidate before scoring. */
  function Decided(p: Config, c: Candidate, rows: Rows): Planned {
    var (verdict, reason) := Judged(p, c, rows);
    var policy := PolicyFor(p.registry, verdict);
    Planned(c, verdict, policy.status, reason, 0.0, 0, policy.dispatchable && LockConflict(p, c, WorldOf(rows)))
  }

  predicate ToDispatch(p: Config, d: Planned) {
    PolicyFor(p.registry, d.verdict).dispatchable
  }

  /** The rules read from the outside: the four outcomes of an undecided candidate exclude each
      other and each has its own condition. */
  lemma VerdictIff(p: Config, c: Candidate, rows: Rows)
    requires c.verdict == ""
    ensures var n, w, v := p.parseNotes(c.notes), WorldOf(rows), Judged(p, c, rows).0;
      && (v == DROP <==> OutsideCwd(p, n) || Duplicate(c, w))
      && (v == NEEDS_HUMAN <==> !OutsideCwd(p, n) && !Duplicate(c, w) && Untitled(p, c))
      && (v == HOLD <==> !OutsideCwd(p, n) && !Duplicate(c, w) && !Untitled(p, c) && Blocked(p, n, rows))
      && (v == READY <==> !OutsideCwd(p, n) && !Duplicate(c, w) && !Untitled(p, c) && !Blocked(p, n, rows))
  {
    assert DROP[0] != NEEDS_HUMAN[0] && DROP[0] != HOLD[0] && DROP[0] != READY[0];
    assert NEEDS_HUMAN[0] != HOLD[0] && NEEDS_HUMAN[0] != READY[0] && HOLD[0] != READY[0];
  }

  function FirstNul(s: string): nat {
    if s == "" || s[0] == '\0' then 0 else 1 + FirstNul(s[1..])
  }

  lemma {:induction false} FirstNulAt(s: string, e: string)
    requires '\0' !in s
    ensures FirstNul(DupKey(s, e)) == |s|
  {
    if s != "" {
      assert s[0] in s;
      assert DupKey(s, e)[1..] == DupKey(s[1..], e);
      FirstNulAt(s[1..], e);
    }
  }

  /** The duplicate rule compares whole keys as long as source names hold no NUL. */
  lemma DupKeyInjective(s: string, e: string, s': string, e': string)
    requires DupKey(s, e) == DupKey(s', e')
    requires '\0' !in s && '\0' !in s'
    ensures s == s' && e == e'
  {
    FirstNulAt(s, e);
    FirstNulAt(s', e');
    assert s == DupKey(s, e)[..|s|] && s' == DupKey(s', e')[..|s'|];
    assert e == DupKey(s, e)[|s| + 1..] && e' == DupKey(s', e')[|s'| + 1..];
  }

  // ---- the stub score ----

  const DUE_BOOST := 1000.0

  /** Overdue counts as due; an absent or unreadable date does not. */
  predicate DueSoon(p: Config, n: Notes) {
    && p.rules.boostIfDueWithin > 0 && n.due != ""
    && match p.parseDue(n.due) { case None => false case Some(due) => due <= p.now + p.rules.boostIfDueWithin }
  }

  function StubScore(p: Config, c: Candidate): real {
    p.parsePriority(c.priority) + if DueSoon(p, p.parseNotes(c.notes)) then DUE_BOOST else 0.0
  }

  // ---- ranking ----

  /** Rows without a lock conflict first, then by score, then in input order. */
  predicate GoesBefore(ds: seq<Planned>, i: int, j: int)
    requires 0 <= i < |ds| && 0 <= j < |ds|
  {
    if ds[i].serialized != ds[j].serialized then !ds[i].serialized
    else ds[i].score > ds[j].score || (ds[i].score == ds[j].score && i < j)
  }

  /** The indices to rank. */
  function Ready(p: Config, ds: seq<Planned>): set<int> {
    set i | 0 <= i < |ds| && ToDispatch(p, ds[i])
  }

  function Ahead(p: Config, ds: seq<Planned>, i: int): set<int>
    requires 0 <= i < |ds|
  {
    set j | j in Ready(p, ds) && GoesBefore(ds, j, i)
  }

  function Rank(p: Config, ds: seq<Planned>, i: int): nat
    requires 0 <= i < |ds|
  {
    if ToDispatch(p, ds[i]) then |Ahead(p, ds, i)| + 1 else 0
  }

  function Ranked(p: Config, ds: seq<Planned>): seq<Planned> {
    seq(|ds|, i requires 0 <= i < |ds| => ds[i].(rank := Rank(p, ds, i)))
  }

  /** Ranks run from 1 to the number of ready rows and differ, and a row has a smaller rank than
      another exactly when only the other's lock is taken, or else its score is higher, or else it
      comes first in the input. */
  lemma RankOrder(p: Config, ds: seq<Planned>, i: int, j: int)
    requires i in Ready(p, ds) && j in Ready(p, ds) && i != j
    ensures Rank(p, ds, i) < Rank(p, ds, j) <==>
              || (!ds[i].serialized && ds[j].serialized)
              || (ds[i].serialized == ds[j].serialized && ds[i].score > ds[j].score)
              || (ds[i].serialized == ds[j].serialized && ds[i].score == ds[j].score && i < j)
    ensures Rank(p, ds, i) != Rank(p, ds, j)
    ensures 1 <= Rank(p, ds, i) <= |Ready(p, ds)|
  {
    SubsetSmaller(Ahead(p, ds, i), Ready(p, ds), i);
    if GoesBefore(ds, i, j) {
      SubsetSmaller(Ahead(p, ds, i), Ahead(p, ds, j), i);
    } else {
      SubsetSmaller(Ahead(p, ds, j), Ahead(p, ds, i), j);
    }
  }

  /** `order` lists the ready rows, each one before those it goes before. */
  ghost predicate IsOrder(p: Config, ds: seq<Planned>, order: seq<int>) {
    && (forall k | 0 <= k < |order| :: order[k] in Ready(p, ds))
    && (forall i | i in Ready(p, ds) :: i in order)
    && (forall a, b | 0 <= a < b < |order| :: GoesBefore(ds, order[a], order[b]))
  }

  lemma AheadInOrder(p: Config, ds: seq<Planned>, order: seq<int>, k: nat)
    requires IsOrder(p, ds, order) && k < |order|
    ensures Ahead(p, ds, order[k]) == set i | i in order[..k]
  {
    forall i | i in order[..k] ensures i in Ahead(p, ds, order[k]) {
      var m :| 0 <= m < k && order[..k][m] == i;
      assert order[m] == i && GoesBefore(ds, order[m], order[k]);
    }
    forall m | k <= m < |order| ensures !GoesBefore(ds, order[m], order[k]) {
      assert m == k || GoesBefore(ds, order[k], order[m]);
    }
    forall i | i in Ahead(p, ds, order[k]) ensures i in order[..k] {
      var m :| 0 <= m < |order| && order[m] == i;
      assert order[..k][m] == i;
    }
  }

  /** Sorting by `GoesBefore` finds the ranks: the k-th of the sorted ready rows has rank k + 1. */
  lemma SortedRank(p: Config, ds: seq<Planned>, order: seq<int>, k: nat)
    requires IsOrder(p, ds, order) && k < |order|
    ensures Rank(p, ds, order[k]) == k + 1
  {
    AheadInOrder(p, ds, order, k);
    forall a, b | 0 <= a < b < k ensures order[..k][a] != order[..k][b] {
      assert GoesBefore(ds, order[a], order[b]);
    }
    DistinctSize(order[..k]);
    assert order[k] in Ready(p, ds);
  }
}
