/** Exactly which status writes and resets spoil the soft lock: the condition `Spoils` of module
    `LockExclusion`, shown necessary by runs that go on to two running rows under one key. */
module LockExact {
  import opened Tasks
  import opened Dispatch
  import opened Lifecycle
  import opened LockExclusion
  import opened Races

  /** Two rows run under one non-empty key. */
  ghost predicate Clash(s: Sys, resolve: string -> string) {
    exists i, j :: Runs(s, i) && Runs(s, j) && i != j
      && resolve(s.rows[i].notes) != "" && resolve(s.rows[i].notes) == resolve(s.rows[j].notes)
  }

  /** A serial run leads there. */
  ghost predicate CanClash(s: Sys, resolve: string -> string) {
    exists acts, t :: SerialSteps(s, acts, t, resolve) && Clash(t, resolve)
  }

  // ---- what spoils nothing leads nowhere ----

  lemma LockInvNoClash(s: Sys, resolve: string -> string)
    requires LockInv(s, resolve)
    ensures !CanClash(s, resolve)
  {
    forall acts, t | SerialSteps(s, acts, t, resolve) ensures !Clash(t, resolve) {
      LockInvAlways(s, acts, t, resolve);
      assert forall i | Runs(t, i) :: Owner(t, i);
    }
  }

  // ---- what spoils the lock leads to a clash ----

  lemma CanClashLater(s: Sys, a: Action, resolve: string -> string)
    requires Enabled(s, a) && Orderly(s, a) && Serial(s, a, resolve) && CanClash(Apply(s, a), resolve)
    ensures CanClash(s, resolve)
  {
    var acts, t :| SerialSteps(Apply(s, a), acts, t, resolve) && Clash(t, resolve);
    assert ([a] + acts)[1..] == acts;
    assert SerialSteps(s, [a] + acts, t, resolve);
  }

  /** The call of `p` on row `id` can set the row running. */
  predicate Able(s: Sys, p: Pid, id: Id) {
    && p in s.procs && At(s.procs[p].pc, id) && id in s.rows
    && (OnTheWay(s.procs[p].pc) || ((s.procs[p].pc.Mkdir? || s.procs[p].pc.Claim?) && Claimable(s.rows, id)))
  }

  /** How many actions it is from that. */
  function Left(pc: Pc): nat {
    if pc.Mkdir? then 6 else if pc.Claim? then 5 else if pc.Start? then 4
    else if pc.SetWs? then 3 else if pc.Stamp? then 2 else 1
  }

  function Onward(pc: Pc): Event {
    if pc.Start? then Created("a", "") else if pc.Stamp? then Clock(1) else Fine
  }

  /** One action further. */
  lemma Advance(s: Sys, p: Pid, id: Id, resolve: string -> string) returns (t: Sys)
    requires Able(s, p, id)
    ensures var a := Act(p, Onward(s.procs[p].pc));
      Enabled(s, a) && Orderly(s, a) && Serial(s, a, resolve) && t == Apply(s, a)
    ensures forall q | q != p && q in s.procs :: q in t.procs && t.procs[q] == s.procs[q]
    ensures id in t.rows && t.rows == s.rows[id := t.rows[id]] && t.rows[id].notes == s.rows[id].notes
    ensures if s.procs[p].pc.SetRunning? then Runs(t, id)
            else Able(t, p, id) && Left(t.procs[p].pc) < Left(s.procs[p].pc)
  {
    t := Apply(s, Act(p, Onward(s.procs[p].pc)));
    StepShape(s.procs[p].pc, s.rows, Onward(s.procs[p].pc));
    OneRow(s.rows, t.rows, id);
  }

  predicate SameKey(s: Sys, i: Id, j: Id, resolve: string -> string) {
    && i in s.rows && j in s.rows && i != j
    && resolve(s.rows[i].notes) != "" && resolve(s.rows[i].notes) == resolve(s.rows[j].notes)
  }

  /** The other row runs already. */
  lemma {:induction false} LastAdvance(s: Sys, p: Pid, id: Id, other: Id, resolve: string -> string)
    requires Able(s, p, id) && SameKey(s, id, other, resolve) && Runs(s, other)
    ensures CanClash(s, resolve)
    decreases Left(s.procs[p].pc)
  {
    var t := Advance(s, p, id, resolve);
    if s.procs[p].pc.SetRunning? {
      assert Clash(t, resolve);
      assert SerialSteps(t, [], t, resolve);
    } else {
      LastAdvance(t, p, id, other, resolve);
    }
    CanClashLater(s, Act(p, Onward(s.procs[p].pc)), resolve);
  }

  /** Two calls on rows of one key can both go on. */
  lemma {:induction false} BothAdvance(s: Sys, p: Pid, id: Id, q: Pid, other: Id, resolve: string -> string)
    requires Able(s, p, id) && Able(s, q, other) && p != q && SameKey(s, id, other, resolve)
    ensures CanClash(s, resolve)
    decreases Left(s.procs[q].pc)
  {
    var t := Advance(s, q, other, resolve);
    if s.procs[q].pc.SetRunning? {
      LastAdvance(t, p, id, other, resolve);
    } else {
      BothAdvance(t, p, id, q, other, resolve);
    }
    CanClashLater(s, Act(q, Onward(s.procs[q].pc)), resolve);
  }

  /** Ids yet to be given out are unknown to everyone. */
  predicate Bounded(s: Sys) {
    && (forall id | id in s.rows :: id < s.nextId)
    && (forall p | p in s.procs && !s.procs[p].pc.Idle? && !s.procs[p].pc.Returned? :: s.procs[p].pc.id < s.nextId)
  }

  /** A dispatcher that is about to lock a free pending row gets as far as the claim. */
  lemma LockStep(s: Sys, q: Pid, id: Id, resolve: string -> string)
    returns (t: Sys)
    requires q in s.procs && s.procs[q].pc.Lock? && s.procs[q].pc.id == id && Claimable(s.rows, id)
    requires !HeldByOther(s.rows, id, s.procs[q].pc.key)
    ensures Enabled(s, Act(q, Fine)) && Orderly(s, Act(q, Fine)) && Serial(s, Act(q, Fine), resolve)
    ensures t == Apply(s, Act(q, Fine)) && Able(t, q, id) && t.watch == s.watch && t.nextId == s.nextId
    ensures t.rows == s.rows[id := s.rows[id].(lockKey := s.procs[q].pc.key)]
    ensures t.procs == s.procs[q := Proc(s.procs[q].todo, Mkdir(id, s.procs[q].pc.key))]
  {
    t := Apply(s, Act(q, Fine));
  }

  /** From the listing to the lock: `Taken` is the state in which `q` is about to lock row `id`. */
  function Taken(s: Sys, q: Pid, id: Id, key: string): Sys {
    s.(procs := s.procs[q := Proc([], Lock(id, key))])
  }

  lemma TakenClash(s: Sys, q: Pid, id: Id, resolve: string -> string)
    requires q !in s.procs && id in s.rows && s.rows[id].status == Pending && !InOtherHands(s, q, id)
    requires resolve(s.rows[id].notes) != ""
    requires CanClash(Taken(s, q, id, resolve(s.rows[id].notes)), resolve)
    ensures CanClash(s, resolve)
  {
    var key := resolve(s.rows[id].notes);
    var listed := Apply(s, ListPending(q, [id]));
    var picked := Apply(listed, Pick(q));
    assert [id][1..] == [];
    assert picked.procs == s.procs[q := Proc([], Check(id))];
    assert forall r | r in listed.procs && r != q :: r in s.procs && listed.procs[r] == s.procs[r];
    assert Taken(s, q, id, key).procs == picked.procs[q := Proc([], Lock(id, key))];
    assert Apply(picked, Act(q, Cleared(key))) == Taken(s, q, id, key);
    CanClashLater(picked, Act(q, Cleared(key)), resolve);
    CanClashLater(listed, Pick(q), resolve);
    CanClashLater(s, ListPending(q, [id]), resolve);
  }

  /** A row no longer active that a call is on the way to run. */
  ghost predicate Freed(s: Sys, p: Pid, id: Id, resolve: string -> string) {
    && Bounded(s) && p in s.procs && OnTheWay(s.procs[p].pc) && s.procs[p].pc.id == id
    && id in s.rows && !Active(s.rows[id].status) && resolve(s.rows[id].notes) != ""
  }

  /** A new row of the same key is inserted and taken up, and both calls go on. */
  lemma NewRowClash(s: Sys, p: Pid, id: Id, resolve: string -> string)
    requires Freed(s, p, id, resolve) && p + 1 !in s.procs
    requires !HeldByOther(s.rows, s.nextId, resolve(s.rows[id].notes))
    ensures CanClash(s, resolve)
  {
    var notes, n := s.rows[id].notes, s.nextId;
    var key := resolve(notes);
    var inserted := Apply(s, Insert(NewRow(notes)));
    var taken := Taken(inserted, p + 1, n, key);
    assert !HeldByOther(taken.rows, n, key);
    var t := LockStep(taken, p + 1, n, resolve);
    assert Able(t, p, id);
    BothAdvance(t, p, id, p + 1, n, resolve);
    CanClashLater(taken, Act(p + 1, Fine), resolve);
    TakenClash(inserted, p + 1, n, resolve);
    CanClashLater(s, Insert(NewRow(notes)), resolve);
  }

  lemma {:induction false} FreedClash(s: Sys, p: Pid, id: Id, resolve: string -> string)
    requires Freed(s, p, id, resolve)
    ensures CanClash(s, resolve)
    decreases |s.rows|, p + 1 in s.procs
  {
    var key := resolve(s.rows[id].notes);
    if p + 1 in s.procs {
      FreedClash(Apply(s, Crash(p + 1)), p, id, resolve);
      CanClashLater(s, Crash(p + 1), resolve);
    } else if HeldByOther(s.rows, s.nextId, key) {
      var j :| j in s.rows && j != s.nextId && s.rows[j].lockKey == key && Active(s.rows[j].status);
      var t := Apply(s, Remove(j));
      assert s.rows == t.rows[j := s.rows[j]];
      FreedClash(t, p, id, resolve);
      CanClashLater(s, Remove(j), resolve);
    } else {
      NewRowClash(s, p, id, resolve);
    }
  }

  /** It is taken up again, and the watcher's pass settles it before the call sets it running. */
  lemma SettledClash(s: Sys, p: Pid, id: Id, resolve: string -> string)
    requires Bounded(s) && WatchedWithKey(s, id, resolve)
    requires Able(s, p, id) && s.procs[p].pc.Mkdir?
    ensures CanClash(s, resolve)
  {
    var t := Advance(s, p, id, resolve);
    var u := Advance(t, p, id, resolve);
    var v := Apply(u, WatchDone(id, "", 1));
    assert Bounded(v);
    FreedClash(v, p, id, resolve);
    CanClashLater(u, WatchDone(id, "", 1), resolve);
    CanClashLater(t, Act(p, Onward(t.procs[p].pc)), resolve);
    CanClashLater(s, Act(p, Onward(s.procs[p].pc)), resolve);
  }

  /** A free row that the watcher still lists and that nobody has in hand. */
  lemma TakenUpClash(s: Sys, id: Id, resolve: string -> string)
    requires Bounded(s) && WatchedWithKey(s, id, resolve) && Claimable(s.rows, id)
    requires 0 !in s.procs && !InOtherHands(s, 0, id) && !HeldByOther(s.rows, id, resolve(s.rows[id].notes))
    ensures CanClash(s, resolve)
  {
    var taken := Taken(s, 0, id, resolve(s.rows[id].notes));
    var t := LockStep(taken, 0, id, resolve);
    SettledClash(t, 0, id, resolve);
    CanClashLater(taken, Act(0, Fine), resolve);
    TakenClash(s, 0, id, resolve);
  }

  /** Rows that hold its key are removed. */
  lemma {:induction false} FreeRowClash(s: Sys, id: Id, resolve: string -> string)
    requires Bounded(s) && WatchedWithKey(s, id, resolve) && Claimable(s.rows, id)
    requires 0 !in s.procs && !InOtherHands(s, 0, id)
    ensures CanClash(s, resolve)
    decreases |s.rows|
  {
    var key := resolve(s.rows[id].notes);
    if HeldByOther(s.rows, id, key) {
      var j :| j in s.rows && j != id && s.rows[j].lockKey == key && Active(s.rows[j].status);
      var t := Apply(s, Remove(j));
      assert s.rows == t.rows[j := s.rows[j]];
      FreeRowClash(t, id, resolve);
      CanClashLater(s, Remove(j), resolve);
    } else {
      TakenUpClash(s, id, resolve);
    }
  }

  /** Calls on the row crash, and it is made pending. */
  lemma {:induction false} ResetClash(s: Sys, id: Id, resolve: string -> string)
    requires Bounded(s) && WatchedWithKey(s, id, resolve) && s.rows[id].ws == ""
    ensures CanClash(s, resolve)
    decreases |s.procs|
  {
    if p :| p in s.procs && (p == 0 || At(s.procs[p].pc, id)) {
      var t := Apply(s, Crash(p));
      assert s.procs == t.procs[p := s.procs[p]];
      ResetClash(t, id, resolve);
      CanClashLater(s, Crash(p), resolve);
    } else {
      assert forall p | p in s.procs :: !At(s.procs[p].pc, id);
      FreeRowClash(Apply(s, PlanStatus(id, Pending)), id, resolve);
      CanClashLater(s, PlanStatus(id, Pending), resolve);
    }
  }

  lemma LockInvBounded(s: Sys, resolve: string -> string)
    requires LockInv(s, resolve)
    ensures Bounded(s)
  {
    forall p | p in s.procs && !s.procs[p].pc.Idle? && !s.procs[p].pc.Returned?
      ensures s.procs[p].pc.id < s.nextId
    {
      assert CallLock(s, s.procs[p], resolve);
    }
  }

  lemma FreesClash(s: Sys, id: Id, status: Status, resolve: string -> string)
    requires LockInv(s, resolve) && Frees(s, id, status) && status != Running
    ensures CanClash(s.(rows := AfterUpdateStatus(s.rows, id, status)), resolve)
  {
    var p :| p in s.procs && OnTheWay(s.procs[p].pc) && s.procs[p].pc.id == id && s.procs[p].pc.key != "";
    LockInvBounded(s, resolve);
    assert CallLock(s, s.procs[p], resolve);
    var t := s.(rows := AfterUpdateStatus(s.rows, id, status));
    assert Freed(t, p, id, resolve);
    FreedClash(t, p, id, resolve);
  }

  /** With row `id` claimable again, its call and the owner `j` of the key can both go on. */
  lemma RivalsClash(s: Sys, t: Sys, p: Pid, id: Id, j: Id, resolve: string -> string)
    requires Owner(s, j) && t.procs == s.procs && j in t.rows && t.rows[j] == s.rows[j]
    requires Able(t, p, id) && SameKey(t, id, j, resolve)
    ensures CanClash(t, resolve)
  {
    if s.rows[j].status == Running {
      LastAdvance(t, p, id, j, resolve);
    } else {
      var q :| q in s.procs && MayRun(s.procs[q].pc, s.rows[j]) && At(s.procs[q].pc, j);
      BothAdvance(t, p, id, q, j, resolve);
    }
  }

  lemma BringsBackClash(s: Sys, t: Sys, id: Id, resolve: string -> string)
    requires id in s.rows && id in t.rows && t.rows == s.rows[id := t.rows[id]] && t.procs == s.procs
    requires t.rows[id].notes == s.rows[id].notes
    requires BringsBack(s, id, t.rows[id].status, t.rows[id].ws, resolve)
    ensures CanClash(t, resolve)
  {
    var p :| p in s.procs && (s.procs[p].pc.Mkdir? || s.procs[p].pc.Claim?) && s.procs[p].pc.id == id;
    var j :| Owner(s, j) && j != id && resolve(s.rows[j].notes) == resolve(s.rows[id].notes);
    RivalsClash(s, t, p, id, j, resolve);
  }

  lemma ResetsClash(s: Sys, a: Action, resolve: string -> string)
    requires LockInv(s, resolve) && Enabled(s, a) && (a.Reopen? || a.Clean?) && Spoils(s, a, resolve)
    ensures CanClash(Apply(s, a), resolve)
  {
    var t := Apply(s, a);
    assert t.rows == s.rows[a.id := t.rows[a.id]];
    if WatchedWithKey(s, a.id, resolve) {
      LockInvBounded(s, resolve);
      ResetClash(t, a.id, resolve);
    } else {
      BringsBackClash(s, t, a.id, resolve);
    }
  }

  /** The conditions on the planner, done, fail, reopen and clean are exact: where the lock's
      invariant holds, such an action lets a serial run go on to two running rows under one key if
      and only if it spoils the lock. */
  lemma SpoilsIff(s: Sys, a: Action, resolve: string -> string)
    requires LockInv(s, resolve) && Enabled(s, a) && Orderly(s, a)
    requires a.PlanStatus? || a.Finish? || a.Reopen? || a.Clean?
    ensures CanClash(Apply(s, a), resolve) <==> Spoils(s, a, resolve)
  {
    if !Spoils(s, a, resolve) {
      SerialKeeps(s, a, resolve);
      LockInvNoClash(Apply(s, a), resolve);
    } else if a.Reopen? || a.Clean? {
      ResetsClash(s, a, resolve);
    } else if Frees(s, a.id, a.status) {
      FreesClash(s, a.id, a.status, resolve);
    } else {
      BringsBackClash(s, Apply(s, a), a.id, resolve);
    }
  }
}
