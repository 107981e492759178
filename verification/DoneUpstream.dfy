/** Why one tick is not always enough: a concrete batch in which a candidate that is done upstream,
    and has no row yet, takes a rank in the first tick and is dropped as a duplicate of its own row
    in the second, so that the rank of the other candidate moves. */
module DoneUpstream {
  import opened Tasks
  import opened Planning
  import opened Scoring
  import opened Planner
  import opened Persist
  import opened TickRows
  import opened Fixpoint
  import T = Text

  function Item(externalId: string, done: bool): Candidate {
    Candidate("s", externalId, "t", "", "", "", "", done, "", "")
  }

  /** Every rule but the duplicate one is off, and all candidates score alike. */
  function Plain(): Config {
    Config(Rules(false, false, false, 0), DEFAULT_REGISTRY, "",
           n => Notes([], "", ""), cwd => true, n => "", s => 0.0, s => T.None, 0)
  }

  function TwoItems(): seq<Candidate> {
    [Item("a", true), Item("b", false)]
  }

  lemma PlainVerdict(rows: Rows, c: Candidate)
    requires c.verdict == ""
    ensures Decided(Plain(), c, rows).verdict == if Duplicate(c, WorldOf(rows)) then DROP else READY
    ensures !Decided(Plain(), c, rows).serialized
  {
    VerdictIff(Plain(), c, rows);
  }

  /** The rank of the second candidate: behind the first, unless that one is a duplicate. */
  lemma SecondRank(rows: Rows, key: CacheKey)
    requires !Duplicate(TwoItems()[1], WorldOf(rows))
    ensures var ds := Plan(Plain(), key, TwoItems(), rows);
      && |ds| == 2 && ds[0].candidate == TwoItems()[0] && ds[1].candidate == TwoItems()[1]
      && ds[1].rank == if Duplicate(TwoItems()[0], WorldOf(rows)) then 1 else 2
  {
    var p, cands := Plain(), TwoItems();
    var ds := Scored(p, Stub, key, map[], DecidedAll(p, cands, rows));
    PlainVerdict(rows, cands[0]);
    PlainVerdict(rows, cands[1]);
    StubKeepsVerdict(p, key, cands, rows, 0);
    StubKeepsVerdict(p, key, cands, rows, 1);
    assert ds[1] == ScoredBy(p, Decided(p, cands[1], rows), T.None);
    if Duplicate(cands[0], WorldOf(rows)) {
      assert ds[0] == Decided(p, cands[0], rows);
      assert Ahead(p, ds, 1) == {};
    } else {
      assert ds[0] == ScoredBy(p, Decided(p, cands[0], rows), T.None);
      assert GoesBefore(ds, 0, 1);
      assert Ahead(p, ds, 1) == {0};
    }
  }

  lemma TwoKeys(ds: seq<Planned>)
    requires |ds| == 2 && ds[0].candidate == TwoItems()[0] && ds[1].candidate == TwoItems()[1]
    ensures DistinctKeys(ds)
  {
    assert TwoItems()[0].externalId[0] != TwoItems()[1].externalId[0];
  }

  /** The row each of the two has after a tick from the empty table. */
  lemma RowsAfterFirst(ds: seq<Planned>, env: Env) returns (a: Id, b: Id)
    requires |ds| == 2 && ds[0].candidate == TwoItems()[0] && ds[1].candidate == TwoItems()[1]
    ensures var rows := After(Table(map[], 1), ds, env).rows;
      && rows.Keys == {a, b} && rows[a] == Fresh(ds[0], env) && rows[b] == Fresh(ds[1], env)
  {
    var t := Table(map[], 1);
    var rows := After(t, ds, env).rows;
    TwoKeys(ds);
    OneRowEach(t, ds, env, 0);
    OneRowEach(t, ds, env, 1);
    a := IdOf(rows, ds[0]);
    b := IdOf(rows, ds[1]);
    BatchRow(t, ds, env, 0, a);
    BatchRow(t, ds, env, 1, b);
    forall id | id in rows ensures id == a || id == b {
      if !Concerns(rows[id], ds[0]) && !Concerns(rows[id], ds[1]) { OtherRow(t, ds, env, id); }
    }
  }

  lemma SeesDuplicate(rows: Rows, a: Id, b: Id)
    requires rows.Keys == {a, b} && HasKey(rows[a], "s", "a") && HasKey(rows[b], "s", "b")
    requires rows[a].status == Done && rows[b].status == Pending
    ensures Duplicate(TwoItems()[0], WorldOf(rows)) && !Duplicate(TwoItems()[1], WorldOf(rows))
  {
    DuplicateIff(rows, TwoItems()[0]);
    DuplicateIff(rows, TwoItems()[1]);
    assert Twin(rows, TwoItems()[0], a);
    assert DupKey("s", "a")[2] != DupKey("s", "b")[2];
  }

  lemma FirstTick(key: CacheKey, env: Env, first: seq<Planned>) returns (a: Id, b: Id)
    requires env.plannedAt != 0 && first == Plan(Plain(), key, TwoItems(), map[])
    ensures |first| == 2 && DistinctKeys(first)
    ensures var u := After(Table(map[], 1), first, env);
      && ValidTable(u) && u.rows.Keys == {a, b}
      && HasKey(u.rows[a], "s", "a") && u.rows[a].status == Done
      && HasKey(u.rows[b], "s", "b") && u.rows[b].status == Pending && u.rows[b].planRank == 2
  {
    SecondRank(map[], key);
    PlainVerdict(map[], TwoItems()[1]);
    StubKeepsVerdict(Plain(), key, TwoItems(), map[], 1);
    TwoKeys(first);
    TickKeepsValid(Table(map[], 1), first, |first|, env);
    a, b := RowsAfterFirst(first, env);
  }

  lemma SecondTick(u: Table, key: CacheKey, env: Env, a: Id, b: Id)
    requires env.plannedAt != 0 && ValidTable(u) && u.rows.Keys == {a, b}
    requires HasKey(u.rows[a], "s", "a") && u.rows[a].status == Done
    requires HasKey(u.rows[b], "s", "b") && u.rows[b].status == Pending
    ensures var v := After(u, Plan(Plain(), key, TwoItems(), u.rows), env);
      b in v.rows && v.rows[b].planRank == 1
  {
    var second := Plan(Plain(), key, TwoItems(), u.rows);
    SeesDuplicate(u.rows, a, b);
    SecondRank(u.rows, key);
    TwoKeys(second);
    TickTurns(u, second, |second|, env, b);
    TurnedIs(u.rows[b], second, |second|, env, 1);
  }

  lemma TwoItemsAreABatch()
    ensures Batch(TwoItems())
  {
    assert DupKey("s", "a")[2] != DupKey("s", "b")[2];
  }

  /** With a candidate that is done upstream the second tick changes the table, though the table, the
      registry and the batch are as `SecondTickChangesNothing` asks. */
  lemma SecondTickMovesRank(key: CacheKey, env: Env)
    requires env.plannedAt != 0
    ensures ValidTable(Table(map[], 1)) && PlannerRegistry(Plain().registry) && Batch(TwoItems())
    ensures var u := After(Table(map[], 1), Plan(Plain(), key, TwoItems(), map[]), env);
      After(u, Plan(Plain(), key, TwoItems(), u.rows), env) != u
  {
    DefaultRegistryQualifies();
    TwoItemsAreABatch();
    var first := Plan(Plain(), key, TwoItems(), map[]);
    var a, b := FirstTick(key, env, first);
    SecondTick(After(Table(map[], 1), first, env), key, env, a, b);
  }
}
