/** A reaper sweep among running dispatchers (internal/reaper/reaper.go, Run).

    The sweep lists the running rows first and the sessions second, and fails rows only
    through a statement guarded by status = running. */
module Sweep {
  import opened Tasks
  import opened Dispatch
  import opened Lifecycle

  /** No command clears the `ws` of the row from outside. */
  predicate NoReset(acts: seq<Action>, id: Id) {
    forall a | a in acts :: a != Reopen(id) && a != Clean(id)
  }

  ghost function Found(s: Sys): Rows {
    if s.sweep.Resting? then map[] else s.sweep.found
  }

  /** A row the sweep has listed keeps its session while it exists, and nobody launches it. */
  ghost predicate Listing(s: Sys, id: Id) {
    var found := Found(s);
    id in found ==>
      && found[id].status == Running && found[id].ws != "" && found[id].ws in s.born && id < s.nextId
      && (id in s.rows ==> s.rows[id].ws == found[id].ws)
      && (forall p | p in s.procs && Launching(s.procs[p].pc) :: s.procs[p].pc.id != id)
  }

  predicate Dead(sweep: Lifecycle.Sweep, id: Id)
    requires sweep.Sweeping? && id in sweep.found
  {
    sweep.found[id].ws !in sweep.alive
  }

  ghost predicate SweepInv(s: Sys, id: Id) {
    && Inv(s)
    && Listing(s, id)
    && (s.sweep.Sweeping? && id in s.sweep.found ==>
          && s.sweep.found[id].ws in s.sweep.born
          && (s.sweep.clean && id !in s.sweep.todo && Dead(s.sweep, id) && id in s.rows ==>
            s.rows[id].status != Running))
  }

  /** What an action may do to a row on the way of a sweep. */
  ghost predicate Spares(s: Sys, t: Sys, id: Id) {
    && s.born <= t.born && s.nextId <= t.nextId
    && (id in t.rows ==> id in s.rows && t.rows[id].ws == s.rows[id].ws)
    && (id in t.rows && t.rows[id].status == Running ==> s.rows[id].status == Running)
  }

  lemma ActOutside(s: Sys, p: Pid, e: Event, id: Id)
    requires SweepInv(s, id) && Enabled(s, Act(p, e)) && id in Found(s)
    ensures Spares(s, Apply(s, Act(p, e)), id)
  {
    var pc := s.procs[p].pc;
    assert Grip(s, pc);
    assert Launching(pc) ==> pc.id != id;
  }

  lemma OutsideKeeps(s: Sys, a: Action, id: Id)
    requires SweepInv(s, id) && Enabled(s, a) && Orderly(s, a) && a != Reopen(id) && a != Clean(id)
    requires id in Found(s)
    ensures Spares(s, Apply(s, a), id)
  {
    if a.Act? { ActOutside(s, a.p, a.e, id); }
  }

  /** A call is launching after an action only if it was before or has just won its claim. */
  lemma StepLaunches(pc: Pc, rows: Rows, e: Event)
    requires Accepts(pc, e) && Launching(Step(pc, rows, e).0)
    ensures Step(pc, rows, e).0.id == pc.id
    ensures Launching(pc) || (pc.Claim? && Claimable(rows, pc.id))
  {
  }

  lemma LaunchesKeep(s: Sys, a: Action, id: Id)
    requires SweepInv(s, id) && Enabled(s, a) && Orderly(s, a) && !a.ReapRows? && id in Found(s)
    ensures var t := Apply(s, a); forall p | p in t.procs && Launching(t.procs[p].pc) :: t.procs[p].pc.id != id
  {
    var t := Apply(s, a);
    if a.Act? {
      var pc := s.procs[a.p].pc;
      if Launching(Step(pc, s.rows, a.e).0) { StepLaunches(pc, s.rows, a.e); }
      if pc.Claim? && Claimable(s.rows, pc.id) { assert pc.id != id; }
    } else {
      forall p | p in t.procs && Launching(t.procs[p].pc) ensures p in s.procs && t.procs[p].pc == s.procs[p].pc {
      }
    }
  }

  lemma ListRowsKeeps(s: Sys, id: Id)
    requires SweepInv(s, id) && Enabled(s, ReapRows)
    ensures SweepInv(Apply(s, ReapRows), id)
  {
    var t := Apply(s, ReapRows);
    ApplyKeeps(s, ReapRows);
    forall p | p in s.procs && Launching(s.procs[p].pc) && s.procs[p].pc.id == id ensures id !in Found(t) {
      assert Grip(s, s.procs[p].pc);
    }
  }

  lemma ListingStays(s: Sys, a: Action, id: Id)
    requires SweepInv(s, id) && Enabled(s, a) && Orderly(s, a) && a != Reopen(id) && a != Clean(id) && !a.ReapRows?
    ensures Listing(Apply(s, a), id)
    ensures id in Found(s) ==> Spares(s, Apply(s, a), id)
  {
    if id in Found(s) {
      LaunchesKeep(s, a, id);
      OutsideKeeps(s, a, id);
    }
  }

  lemma SweepKeeps(s: Sys, a: Action, id: Id)
    requires SweepInv(s, id) && Enabled(s, a) && Orderly(s, a) && a != Reopen(id) && a != Clean(id)
    ensures SweepInv(Apply(s, a), id)
  {
    if a.ReapRows? {
      ListRowsKeeps(s, id);
    } else {
      ApplyKeeps(s, a);
      ListingStays(s, a, id);
    }
  }

  lemma {:induction false} SweepInvAlways(s: Sys, acts: seq<Action>, t: Sys, id: Id)
    requires SweepInv(s, id) && Steps(s, acts, t) && NoReset(acts, id)
    ensures SweepInv(t, id)
    decreases |acts|
  {
    if acts != [] {
      assert acts[0] in acts && forall a | a in acts[1..] :: a in acts;
      SweepKeeps(s, acts[0], id);
      SweepInvAlways(Apply(s, acts[0]), acts[1..], t, id);
    }
  }

  /** The sweep neither ends nor breaks off. */
  predicate Unbroken(acts: seq<Action>) {
    forall a | a in acts :: !a.ReapEnd? && !a.ReapAbort?
  }

  /** One sweep stays one sweep: its snapshots do not change until it ends. */
  lemma {:induction false} SnapshotStays(s: Sys, acts: seq<Action>, t: Sys)
    requires s.sweep.Sweeping? && Steps(s, acts, t) && Unbroken(acts)
    ensures t.sweep.Sweeping?
    ensures t.sweep.found == s.sweep.found && t.sweep.alive == s.sweep.alive && t.sweep.born == s.sweep.born
    decreases |acts|
  {
    if acts != [] {
      assert acts[0] in acts;
      SnapshotStays(Apply(s, acts[0]), acts[1..], t);
    }
  }

  /** When failing a row takes effect, the sweep's snapshot of the row was still right. */
  lemma ReapHits(s: Sys, id: Id)
    requires SweepInv(s, id) && Enabled(s, Reap(id, false)) && Apply(s, Reap(id, false)).rows != s.rows
    ensures id in s.rows && s.rows[id].status == Running && s.rows[id].ws == s.sweep.found[id].ws
    ensures Apply(s, Reap(id, false)).rows[id].status == Failed
    ensures s.rows[id].ws in s.sweep.born && s.rows[id].ws !in s.sweep.alive
  {
    assert id in Found(s);
  }

  /** Once rows are listed the listing stays until sessions are listed. */
  lemma {:induction false} ListedStays(s: Sys, acts: seq<Action>, t: Sys)
    requires s.sweep.Listed? && Steps(s, acts, t) && Unbroken(acts) && ReapSessions !in acts
    ensures t.sweep == s.sweep
    decreases |acts|
  {
    if acts != [] {
      assert acts[0] in acts;
      ListedStays(Apply(s, acts[0]), acts[1..], t);
    }
  }

  /** A run up to some moment `s` of a sweep: rows are listed in `r`, sessions in `u`.  From the
      listing of the rows on, no command clears the `ws` of row `id`. */
  ghost predicate SweepRun(earlier: seq<Action>, r: Sys, between: seq<Action>, u: Sys, during: seq<Action>, s: Sys,
                           id: Id)
  {
    && Steps(EMPTY, earlier, r) && Enabled(r, ReapRows)
    && Steps(Apply(r, ReapRows), between, u) && ReapSessions !in between && Enabled(u, ReapSessions)
    && Steps(Apply(u, ReapSessions), during, s)
    && Unbroken(between) && Unbroken(during) && NoReset(between, id) && NoReset(during, id)
  }

  lemma UntilSessionsListed(earlier: seq<Action>, r: Sys, between: seq<Action>, u: Sys, id: Id)
    requires Steps(EMPTY, earlier, r) && Enabled(r, ReapRows)
    requires Steps(Apply(r, ReapRows), between, u) && ReapSessions !in between
    requires Unbroken(between) && NoReset(between, id)
    ensures SweepInv(u, id) && u.sweep == Listed(RunningRows(r.rows))
  {
    InvAlways(EMPTY, earlier, r);
    ListRowsKeeps(r, id);
    SweepInvAlways(Apply(r, ReapRows), between, u, id);
    ListedStays(Apply(r, ReapRows), between, u);
  }

  lemma SweepRunInv(earlier: seq<Action>, r: Sys, between: seq<Action>, u: Sys, during: seq<Action>, s: Sys, id: Id)
    requires SweepRun(earlier, r, between, u, during, s, id)
    ensures SweepInv(s, id) && s.sweep.Sweeping?
    ensures s.sweep.found == RunningRows(r.rows) && s.sweep.alive == u.live && s.sweep.born == u.born
  {
    UntilSessionsListed(earlier, r, between, u, id);
    SweepKeeps(u, ReapSessions, id);
    SweepInvAlways(Apply(u, ReapSessions), during, s, id);
    SnapshotStays(Apply(u, ReapSessions), during, s);
  }

  /** Soundness of a sweep, row by row: a row it fails, and whose `ws` no command has cleared since
      the rows were listed, is still running at that moment, and its session existed and was dead
      when the sessions were listed. */
  lemma FailsOnlyTheDead(earlier: seq<Action>, r: Sys, between: seq<Action>, u: Sys, during: seq<Action>, s: Sys,
                         id: Id)
    requires SweepRun(earlier, r, between, u, during, s, id)
    requires Enabled(s, Reap(id, false)) && Apply(s, Reap(id, false)).rows != s.rows
    ensures id in s.rows && s.rows[id].status == Running
    ensures s.rows[id].ws in u.born && s.rows[id].ws !in u.live
    ensures Apply(s, Reap(id, false)).rows[id].status == Failed
  {
    SweepRunInv(earlier, r, between, u, during, s, id);
    ReapHits(s, id);
  }

  /** Completeness of a sweep whose statements all reached the table, row by row: when it has
      worked through its rows, a row that was running when the rows were listed, whose session was
      dead when the sessions were listed, and whose `ws` no command has cleared since, is not
      running. */
  lemma FailsAllTheDead(earlier: seq<Action>, r: Sys, between: seq<Action>, u: Sys, during: seq<Action>, s: Sys, id: Id)
    requires SweepRun(earlier, r, between, u, during, s, id)
    requires s.sweep.Sweeping? && s.sweep.clean && s.sweep.todo == {}
    requires id in r.rows && r.rows[id].status == Running && r.rows[id].ws !in u.live
    ensures id in s.rows ==> s.rows[id].status != Running
  {
    SweepRunInv(earlier, r, between, u, during, s, id);
    assert id in RunningRows(r.rows) && Dead(s.sweep, id);
  }
}
