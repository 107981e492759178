/** The soft lock over whole runs: no two running rows resolve to the same lock key.

    On top of an orderly run this asks for `Serial`:
    - a dispatcher takes up no row another one has in hand;
    - a call's check resolves the key as `resolve` does;
    - no call takes the lock of a row that runs already;
    - the planner and the commands done, fail, reopen and clean do not spoil the lock (`Spoils`).
    Listings may overlap as they like.  `LeftAlone` gives a simpler condition for the last clause,
    and module `LockExact` shows that none of it can be spared. */
module LockExclusion {
  import opened Tasks
  import opened Dispatch
  import opened Lifecycle

  predicate InOtherHands(s: Sys, p: Pid, id: Id) {
    exists q | q in s.procs :: q != p && At(s.procs[q].pc, id)
  }

  predicate Runs(s: Sys, id: Id) {
    id in s.rows && s.rows[id].status == Running
  }

  /** From here the call goes on to set its row running, whatever the row's status has become. */
  predicate OnTheWay(pc: Pc) {
    pc.Start? || pc.SetWs? || pc.Stamp? || pc.SetRunning?
  }

  /** The call can still set its row running. */
  predicate MayRun(pc: Pc, row: Task) {
    OnTheWay(pc) || ((pc.Mkdir? || pc.Claim?) && row.ws == "")
  }

  /** The row counts as owner of its key: it runs, or it is pending and a call may set it running. */
  ghost predicate Owner(s: Sys, id: Id) {
    && id in s.rows
    && (s.rows[id].status == Running
        || (s.rows[id].status == Pending && exists p | p in s.procs ::
          MayRun(s.procs[p].pc, s.rows[id]) && At(s.procs[p].pc, id)))
  }

  /** Another row owns the non-empty key of row `id`. */
  ghost predicate Contested(s: Sys, id: Id, resolve: string -> string)
    requires id in s.rows
  {
    && resolve(s.rows[id].notes) != ""
    && exists j :: Owner(s, j) && j != id && resolve(s.rows[j].notes) == resolve(s.rows[id].notes)
  }

  /** Moving row `id` to `status` frees the key of a row that a call is on the way to run. */
  ghost predicate Frees(s: Sys, id: Id, status: Status) {
    && id in s.rows && status != Pending
    && exists p | p in s.procs ::
      OnTheWay(s.procs[p].pc) && s.procs[p].pc.id == id && s.procs[p].pc.key != ""
  }

  /** With this status and session row `id` can be claimed by a call that has taken its lock, though
      another row owns the key by now. */
  ghost predicate BringsBack(s: Sys, id: Id, status: Status, ws: string, resolve: string -> string) {
    && id in s.rows && status == Pending && ws == ""
    && (exists p | p in s.procs ::
          (s.procs[p].pc.Mkdir? || s.procs[p].pc.Claim?) && s.procs[p].pc.id == id)
    && Contested(s, id, resolve)
  }

  /** The pass of the completion watcher has listed the row, and will settle it whatever it has
      become by then. */
  predicate WatchedWithKey(s: Sys, id: Id, resolve: string -> string) {
    id in s.watch && id in s.rows && resolve(s.rows[id].notes) != ""
  }

  ghost predicate Spoils(s: Sys, a: Action, resolve: string -> string) {
    match a
    case PlanStatus(id, status) =>
      id in s.rows && (Frees(s, id, status) || BringsBack(s, id, status, s.rows[id].ws, resolve))
    case Finish(id, status) => Frees(s, id, status)
    case Reopen(id) => WatchedWithKey(s, id, resolve) || BringsBack(s, id, Pending, "", resolve)
    case Clean(id) =>
      WatchedWithKey(s, id, resolve) || (id in s.rows && BringsBack(s, id, s.rows[id].status, "", resolve))
    case _ => false
  }

  /** `resolve` is ResolveLockKey under the configured patterns. */
  ghost predicate Serial(s: Sys, a: Action, resolve: string -> string) {
    && !Spoils(s, a, resolve)
    && (a.Pick? && Enabled(s, a) ==> !InOtherHands(s, a.p, s.procs[a.p].todo[0]))
    && (a.Act? && Enabled(s, a) ==>
          var pc := s.procs[a.p].pc;
          && (pc.Check? && a.e.Cleared? && pc.id in s.rows ==> a.e.key == resolve(s.rows[pc.id].notes))
          && (pc.Lock? && Runs(s, pc.id) ==> HeldByOther(s.rows, pc.id, pc.key)))
  }

  ghost predicate SerialSteps(s: Sys, acts: seq<Action>, t: Sys, resolve: string -> string)
    decreases |acts|
  {
    if acts == [] then s == t
    else
      && Enabled(s, acts[0]) && Orderly(s, acts[0]) && Serial(s, acts[0], resolve)
      && SerialSteps(Apply(s, acts[0]), acts[1..], t, resolve)
  }

  /** The call has acquired the lock of its row and not given it back. */
  predicate HoldsLock(pc: Pc) {
    pc.Mkdir? || pc.Claim? || Launching(pc) || pc.Release?
  }

  /** It is enough that these actions leave alone the rows whose lock a call holds, and resets the
      rows the watcher has listed as well. */
  lemma LeftAlone(s: Sys, a: Action, resolve: string -> string)
    requires a.PlanStatus? || a.Finish? || a.Reopen? || a.Clean? ==>
      forall p | p in s.procs && HoldsLock(s.procs[p].pc) :: s.procs[p].pc.id != a.id
    requires a.Reopen? || a.Clean? ==> a.id !in s.watch
    ensures !Spoils(s, a, resolve)
  {
  }

  ghost predicate RowLock(row: Task, resolve: string -> string) {
    && (row.lockKey == "" || row.lockKey == resolve(row.notes))
    && (row.status == Running ==> row.lockKey == resolve(row.notes))
  }

  ghost predicate CallLock(s: Sys, proc: Proc, resolve: string -> string) {
    && (forall id | id in proc.todo :: id < s.nextId)
    && var pc := proc.pc;
       !pc.Idle? && !pc.Returned? ==>
         && pc.id < s.nextId
         && (pc.id in s.rows ==> RowOfCall(pc, s.rows[pc.id], resolve))
  }

  /** What a call knows of its row. */
  predicate RowOfCall(pc: Pc, row: Task, resolve: string -> string) {
    && (pc.Lock? ==> pc.key == resolve(row.notes))
    && (HoldsLock(pc) ==> pc.key == resolve(row.notes) && row.lockKey == pc.key)
    && (HoldsLock(pc) && pc.key != "" ==> row.status != Running)
    && (OnTheWay(pc) && pc.key != "" ==> row.status == Pending)
  }

  ghost predicate Disjoint(s: Sys) {
    forall p, q, id | p in s.procs && q in s.procs && At(s.procs[p].pc, id) && At(s.procs[q].pc, id) :: p == q
  }

  /** A listed row with a key keeps its session, and nobody launches it. */
  ghost predicate WatchSound(s: Sys, resolve: string -> string) {
    forall id | id in s.watch ::
      && id < s.nextId
      && (WatchedWithKey(s, id, resolve) ==> s.rows[id].ws != "" && !BeingLaunched(s, id))
  }

  predicate BeingLaunched(s: Sys, id: Id) {
    exists p | p in s.procs :: Launching(s.procs[p].pc) && s.procs[p].pc.id == id
  }

  ghost predicate OwnersExclusive(s: Sys, resolve: string -> string) {
    forall i, j | Owner(s, i) && Owner(s, j) && i != j :: resolve(s.rows[i].notes) != "" ==>
      resolve(s.rows[i].notes) != resolve(s.rows[j].notes)
  }

  ghost predicate LockInv(s: Sys, resolve: string -> string) {
    && Inv(s)
    && (forall id | id in s.rows :: RowLock(s.rows[id], resolve))
    && (forall p | p in s.procs :: CallLock(s, s.procs[p], resolve))
    && Disjoint(s)
    && WatchSound(s, resolve)
    && OwnersExclusive(s, resolve)
  }

  // ---- preservation ----

  /** A write to row `id` from outside that takes no lock, never moves it into Running, and spoils
      nothing. */
  ghost predicate Quiet(s: Sys, id: Id, after: Task, resolve: string -> string) {
    && id in s.rows
    && var before := s.rows[id];
    && after.notes == before.notes && after.lockKey == before.lockKey
    && (after.ws == before.ws || (after.ws == "" && !WatchedWithKey(s, id, resolve)))
    && (after.status == before.status || after.status == Pending
        || (!Active(after.status) && !Frees(s, id, after.status)))
    && ((after.ws == before.ws && after.status == before.status)
        || !BringsBack(s, id, after.status, after.ws, resolve))
  }

  /** At most row `id` changes, quietly, or goes. */
  ghost predicate QuietWrite(s: Sys, t: Sys, id: Id, resolve: string -> string) {
    && t.procs == s.procs && t.nextId == s.nextId && t.watch <= s.watch
    && t.rows.Keys <= s.rows.Keys
    && (forall j | j in t.rows && j != id :: t.rows[j] == s.rows[j])
    && (id in t.rows ==> Quiet(s, id, t.rows[id], resolve))
  }

  lemma QuietCall(s: Sys, t: Sys, id: Id, p: Pid, resolve: string -> string)
    requires p in s.procs && CallLock(s, s.procs[p], resolve) && QuietWrite(s, t, id, resolve)
    ensures CallLock(t, t.procs[p], resolve)
  {
    var pc := s.procs[p].pc;
    if !pc.Idle? && !pc.Returned? && pc.id == id && id in t.rows && HoldsLock(pc) { assert At(pc, id); }
  }

  /** Row `id` owns its key afterwards only if it did before, or nobody else does. */
  lemma QuietOwner(s: Sys, t: Sys, id: Id, resolve: string -> string)
    requires LockInv(s, resolve) && QuietWrite(s, t, id, resolve) && Owner(t, id)
    ensures Owner(s, id) || !Contested(s, id, resolve)
  {
    if t.rows[id].status == Pending {
      var p :| p in t.procs && MayRun(t.procs[p].pc, t.rows[id]) && At(t.procs[p].pc, id);
      assert CallLock(s, s.procs[p], resolve);
    }
  }

  lemma QuietKeeps(s: Sys, t: Sys, id: Id, resolve: string -> string)
    requires LockInv(s, resolve) && Inv(t) && QuietWrite(s, t, id, resolve)
    ensures LockInv(t, resolve)
  {
    forall p | p in t.procs ensures CallLock(t, t.procs[p], resolve) {
      QuietCall(s, t, id, p, resolve);
    }
    forall i | Owner(t, i) && i != id ensures Owner(s, i) {}
    if Owner(t, id) { QuietOwner(s, t, id, resolve); }
  }

  /** A change of one process only, which then holds no lock and has no row in hand that another
      has. */
  lemma ProcChangeKeeps(s: Sys, t: Sys, p: Pid, resolve: string -> string)
    requires LockInv(s, resolve) && Inv(t)
    requires t.rows == s.rows && t.nextId == s.nextId && t.watch == s.watch
    requires forall q | q in t.procs && q != p :: q in s.procs && t.procs[q] == s.procs[q]
    requires p in t.procs ==> CallLock(s, t.procs[p], resolve)
    requires p in t.procs ==> forall id | At(t.procs[p].pc, id) :: !InOtherHands(s, p, id)
    requires p in t.procs ==> !HoldsLock(t.procs[p].pc)
    ensures LockInv(t, resolve)
  {
    forall q | q in t.procs ensures CallLock(t, t.procs[q], resolve) {
      if q != p { assert CallLock(s, s.procs[q], resolve); }
    }
    forall i | Owner(t, i) && resolve(t.rows[i].notes) != "" ensures Owner(s, i) {
      ProcChangeOwner(s, t, p, i, resolve);
    }
  }

  lemma ProcChangeOwner(s: Sys, t: Sys, p: Pid, i: Id, resolve: string -> string)
    requires t.rows == s.rows && Owner(t, i) && resolve(t.rows[i].notes) != ""
    requires forall q | q in t.procs && q != p :: q in s.procs && t.procs[q] == s.procs[q]
    requires forall q | q in t.procs :: CallLock(t, t.procs[q], resolve)
    requires p in t.procs ==> !HoldsLock(t.procs[p].pc)
    ensures Owner(s, i)
  {
    if t.rows[i].status == Pending {
      var q :| q in t.procs && MayRun(t.procs[q].pc, t.rows[i]) && At(t.procs[q].pc, i);
      assert q in s.procs && MayRun(s.procs[q].pc, s.rows[i]) && At(s.procs[q].pc, i);
    }
  }

  /** A listed row with a key is one no call is on the way to run. */
  lemma WatchedNotFreed(s: Sys, id: Id, status: Status, resolve: string -> string)
    requires LockInv(s, resolve) && id in s.watch
    ensures !Frees(s, id, status)
  {
    forall p | p in s.procs && OnTheWay(s.procs[p].pc) && s.procs[p].pc.id == id && id in s.rows
      ensures s.procs[p].pc.key == ""
    {
      assert CallLock(s, s.procs[p], resolve);
    }
  }

  /** A row that is not pending is one no call with a key is on the way to run. */
  lemma OnlyPendingFreed(s: Sys, id: Id, status: Status, resolve: string -> string)
    requires LockInv(s, resolve) && (id in s.rows ==> s.rows[id].status != Pending)
    ensures !Frees(s, id, status)
  {
    forall p | p in s.procs && OnTheWay(s.procs[p].pc) && s.procs[p].pc.id == id && id in s.rows
      ensures s.procs[p].pc.key == ""
    {
      assert CallLock(s, s.procs[p], resolve);
    }
  }

  lemma WatchWritesKeep(s: Sys, a: Action, resolve: string -> string)
    requires LockInv(s, resolve) && Enabled(s, a) && Orderly(s, a) && Inv(Apply(s, a))
    requires a.WatchDone? || a.WatchFailed?
    ensures LockInv(Apply(s, a), resolve)
  {
    WatchedNotFreed(s, a.id, Done, resolve);
    WatchedNotFreed(s, a.id, Failed, resolve);
    QuietKeeps(s, Apply(s, a), a.id, resolve);
  }

  /** Actions that touch neither the rows nor the calls. */
  lemma IdleKeeps(s: Sys, a: Action, resolve: string -> string)
    requires LockInv(s, resolve) && Enabled(s, a) && Orderly(s, a) && Inv(Apply(s, a))
    requires a.WatchSkip? || a.ReapRows? || a.ReapSessions? || a.ReapEnd? || a.ReapAbort? || a.Die?
    ensures LockInv(Apply(s, a), resolve)
  {
    var t := Apply(s, a);
    assert t.rows == s.rows && t.procs == s.procs;
    QuietKeeps(s, t, 0, resolve);
  }

  lemma ReapKeeps(s: Sys, id: Id, broken: bool, resolve: string -> string)
    requires LockInv(s, resolve) && Enabled(s, Reap(id, broken)) && Inv(Apply(s, Reap(id, broken)))
    ensures LockInv(Apply(s, Reap(id, broken)), resolve)
  {
    if id in s.rows && s.rows[id].status == Running { OnlyPendingFreed(s, id, Failed, resolve); }
    QuietKeeps(s, Apply(s, Reap(id, broken)), id, resolve);
  }

  /** Writes that leave status, session and lock alone. */
  lemma NotesKeep(s: Sys, a: Action, resolve: string -> string)
    requires LockInv(s, resolve) && Enabled(s, a) && Orderly(s, a) && Inv(Apply(s, a))
    requires a.Warn? || a.PlanLabel? || a.WatchStamp?
    ensures LockInv(Apply(s, a), resolve)
  {
    var t := Apply(s, a);
    assert t.rows == s.rows || (a.id in t.rows && t.rows == s.rows[a.id := t.rows[a.id]]);
    QuietKeeps(s, t, a.id, resolve);
  }

  /** Writes of the status that do not spoil the lock. */
  lemma StatusKeeps(s: Sys, a: Action, resolve: string -> string)
    requires LockInv(s, resolve) && Enabled(s, a) && Orderly(s, a) && !Spoils(s, a, resolve) && Inv(Apply(s, a))
    requires a.PlanStatus? || a.Finish?
    ensures LockInv(Apply(s, a), resolve)
  {
    QuietKeeps(s, Apply(s, a), a.id, resolve);
  }

  lemma CommandsKeep(s: Sys, a: Action, resolve: string -> string)
    requires LockInv(s, resolve) && Enabled(s, a) && Orderly(s, a) && !Spoils(s, a, resolve) && Inv(Apply(s, a))
    requires a.Reopen? || a.Clean? || a.Remove?
    ensures LockInv(Apply(s, a), resolve)
  {
    QuietKeeps(s, Apply(s, a), a.id, resolve);
  }

  lemma EscalationKeeps(s: Sys, a: Action, resolve: string -> string)
    requires LockInv(s, resolve) && Enabled(s, a) && Orderly(s, a) && Inv(Apply(s, a))
    requires a.Escalate? || a.Expire?
    ensures LockInv(Apply(s, a), resolve)
  {
    OnlyPendingFreed(s, a.id, WaitingHuman, resolve);
    OnlyPendingFreed(s, a.id, Failed, resolve);
    QuietKeeps(s, Apply(s, a), a.id, resolve);
  }

  lemma WatchListKeeps(s: Sys, resolve: string -> string)
    requires LockInv(s, resolve) && Enabled(s, WatchList) && Inv(Apply(s, WatchList))
    ensures LockInv(Apply(s, WatchList), resolve)
  {
    var t := Apply(s, WatchList);
    forall p | p in t.procs ensures CallLock(t, t.procs[p], resolve) {
      assert CallLock(s, s.procs[p], resolve);
    }
    forall i | Owner(t, i) ensures Owner(s, i) {}
  }

  lemma InsertKeepsLock(s: Sys, task: Task, resolve: string -> string)
    requires LockInv(s, resolve) && FreshRow(task) && Inv(Apply(s, Insert(task)))
    ensures LockInv(Apply(s, Insert(task)), resolve)
  {
    var t := Apply(s, Insert(task));
    forall p | p in t.procs ensures CallLock(t, t.procs[p], resolve) {
      assert CallLock(s, s.procs[p], resolve);
    }
    forall i | Owner(t, i) ensures Owner(s, i) && i != s.nextId {
      if t.rows[i].status == Pending {
        var p :| p in t.procs && MayRun(t.procs[p].pc, t.rows[i]) && At(t.procs[p].pc, i);
        assert CallLock(s, s.procs[p], resolve);
      }
    }
  }

  lemma ListKeepsLock(s: Sys, p: Pid, ids: seq<Id>, resolve: string -> string)
    requires LockInv(s, resolve) && Enabled(s, ListPending(p, ids)) && Inv(Apply(s, ListPending(p, ids)))
    ensures LockInv(Apply(s, ListPending(p, ids)), resolve)
  {
    forall id | id in ids ensures id < s.nextId {
      var i :| 0 <= i < |ids| && ids[i] == id;
      assert ids[i] in s.rows;
    }
    ProcChangeKeeps(s, Apply(s, ListPending(p, ids)), p, resolve);
  }

  lemma PickKeepsLock(s: Sys, p: Pid, resolve: string -> string)
    requires LockInv(s, resolve) && Enabled(s, Pick(p)) && Serial(s, Pick(p), resolve) && Inv(Apply(s, Pick(p)))
    ensures LockInv(Apply(s, Pick(p)), resolve)
  {
    var t, todo := Apply(s, Pick(p)), s.procs[p].todo;
    assert CallLock(s, s.procs[p], resolve);
    assert todo[0] in todo && forall id | id in todo[1..] :: id in todo;
    ProcChangeKeeps(s, t, p, resolve);
  }

  lemma PassKeeps(s: Sys, a: Action, resolve: string -> string)
    requires LockInv(s, resolve) && Enabled(s, a) && Serial(s, a, resolve)
    requires a.ListPending? || a.Pick? || a.EndPass? || a.Crash?
    requires Inv(Apply(s, a))
    ensures LockInv(Apply(s, a), resolve)
  {
    if a.ListPending? {
      ListKeepsLock(s, a.p, a.ids, resolve);
    } else if a.Pick? {
      PickKeepsLock(s, a.p, resolve);
    } else {
      ProcChangeKeeps(s, Apply(s, a), a.p, resolve);
    }
  }

  /** An action of call `p` changes that call and its own row. */
  ghost predicate OwnRowShape(s: Sys, t: Sys, p: Pid) {
    && p in s.procs && t.procs.Keys == s.procs.Keys
    && (forall q | q in s.procs && q != p :: t.procs[q] == s.procs[q])
    && t.nextId == s.nextId && t.watch == s.watch
    && var pc, pc' := s.procs[p].pc, t.procs[p].pc;
    && !pc.Idle? && !pc.Returned?
    && t.procs[p].todo == s.procs[p].todo && (pc'.Idle? || pc'.Returned? || pc'.id == pc.id)
    && t.rows.Keys == s.rows.Keys
    && (forall i | i in s.rows && i != pc.id :: t.rows[i] == s.rows[i])
  }

  /** The row counts as owner of its key, as far as the call alone decides. */
  predicate OwnerBy(row: Task, pc: Pc) {
    row.status == Running || (row.status == Pending && MayRun(pc, row))
  }

  /** What it does to the row: it may take the row's key only when nobody active holds it. */
  ghost predicate OwnRowEffect(rows: Rows, id: Id, pc: Pc, row: Task, row': Task, pc': Pc, resolve: string -> string) {
    && row'.notes == row.notes && RowLock(row', resolve) && RowOfCall(pc', row', resolve)
    && (row.ws != "" && !Launching(pc) ==> row'.ws != "" && !Launching(pc'))
    && (resolve(row.notes) != "" && OwnerBy(row', pc') ==>
          OwnerBy(row, pc) || !HeldByOther(rows, id, resolve(row.notes)))
  }

  ghost predicate OwnRowAct(s: Sys, t: Sys, p: Pid, resolve: string -> string) {
    && OwnRowShape(s, t, p)
    && var id := s.procs[p].pc.id;
       id in s.rows ==> OwnRowEffect(s.rows, id, s.procs[p].pc, s.rows[id], t.rows[id], t.procs[p].pc, resolve)
  }

  lemma OwnRowCalls(s: Sys, t: Sys, p: Pid, resolve: string -> string)
    requires LockInv(s, resolve) && OwnRowAct(s, t, p, resolve)
    ensures forall q | q in t.procs :: CallLock(t, t.procs[q], resolve)
    ensures Disjoint(t)
  {
    var id := s.procs[p].pc.id;
    assert At(s.procs[p].pc, id);
    assert forall i :: At(t.procs[p].pc, i) ==> At(s.procs[p].pc, i);
    forall q | q in t.procs ensures CallLock(t, t.procs[q], resolve) {
      assert CallLock(s, s.procs[q], resolve);
      if q != p {
        assert !At(s.procs[q].pc, id);
      }
    }
  }

  lemma OwnRowOwners(s: Sys, t: Sys, p: Pid, resolve: string -> string)
    requires LockInv(s, resolve) && OwnRowAct(s, t, p, resolve)
    ensures OwnersExclusive(t, resolve)
  {
    var id := s.procs[p].pc.id;
    assert At(s.procs[p].pc, id);
    forall i | Owner(t, i) && i != id
      ensures Owner(s, i) && s.rows[i].lockKey == resolve(s.rows[i].notes)
    {
      if t.rows[i].status == Pending {
        var q :| q in t.procs && MayRun(t.procs[q].pc, t.rows[i]) && At(t.procs[q].pc, i);
        assert q != p;
        assert CallLock(s, s.procs[q], resolve);
        assert MayRun(s.procs[q].pc, s.rows[i]) && At(s.procs[q].pc, i);
      }
    }
    OwnersStayExclusive(s, t, id, resolve);
  }

  lemma OwnRowKeeps(s: Sys, t: Sys, p: Pid, resolve: string -> string)
    requires LockInv(s, resolve) && Inv(t) && OwnRowAct(s, t, p, resolve)
    ensures LockInv(t, resolve)
  {
    OwnRowCalls(s, t, p, resolve);
    OwnRowOwners(s, t, p, resolve);
  }

  lemma OwnersStayExclusive(s: Sys, t: Sys, id: Id, resolve: string -> string)
    requires OwnersExclusive(s, resolve)
    requires t.rows.Keys == s.rows.Keys && forall i | i in s.rows :: t.rows[i].notes == s.rows[i].notes
    requires forall i | Owner(t, i) && i != id :: Owner(s, i) && s.rows[i].lockKey == resolve(s.rows[i].notes)
    requires Owner(t, id) && resolve(s.rows[id].notes) != "" ==>
      Owner(s, id) || !HeldByOther(s.rows, id, resolve(s.rows[id].notes))
    ensures OwnersExclusive(t, resolve)
  {
  }

  /** The effect of one action on a row that exists. */
  lemma StepEffect(pc: Pc, rows: Rows, e: Event, resolve: string -> string)
    requires Accepts(pc, e) && pc.id in rows && RowLock(rows[pc.id], resolve) && RowOfCall(pc, rows[pc.id], resolve)
    requires pc.Check? && e.Cleared? ==> e.key == resolve(rows[pc.id].notes)
    requires pc.Lock? && rows[pc.id].status == Running ==> HeldByOther(rows, pc.id, pc.key)
    ensures var n := Step(pc, rows, e);
      && n.1 == rows[pc.id := n.1[pc.id]]
      && OwnRowEffect(rows, pc.id, pc, rows[pc.id], n.1[pc.id], n.0, resolve)
  {
    var n := Step(pc, rows, e);
    assert n.1 == rows[pc.id := n.1[pc.id]];
  }

  lemma ActShape(s: Sys, p: Pid, e: Event)
    requires Enabled(s, Act(p, e))
    ensures OwnRowShape(s, Apply(s, Act(p, e)), p)
  {
    StepShape(s.procs[p].pc, s.rows, e);
  }

  lemma ActIsOwnRow(s: Sys, p: Pid, e: Event, resolve: string -> string)
    requires LockInv(s, resolve) && Enabled(s, Act(p, e)) && Serial(s, Act(p, e), resolve)
    ensures OwnRowAct(s, Apply(s, Act(p, e)), p, resolve)
  {
    var pc := s.procs[p].pc;
    ActShape(s, p, e);
    if pc.id in s.rows {
      assert CallLock(s, s.procs[p], resolve);
      StepEffect(pc, s.rows, e, resolve);
    }
  }

  lemma SerialKeeps(s: Sys, a: Action, resolve: string -> string)
    requires LockInv(s, resolve) && Enabled(s, a) && Orderly(s, a) && Serial(s, a, resolve)
    ensures LockInv(Apply(s, a), resolve)
  {
    ApplyKeeps(s, a);
    if a.Act? {
      ActIsOwnRow(s, a.p, a.e, resolve);
      OwnRowKeeps(s, Apply(s, a), a.p, resolve);
    } else if a.ListPending? || a.Pick? || a.EndPass? || a.Crash? {
      PassKeeps(s, a, resolve);
    } else if a.Insert? {
      InsertKeepsLock(s, a.task, resolve);
    } else if a.WatchList? {
      WatchListKeeps(s, resolve);
    } else if a.WatchDone? || a.WatchFailed? {
      WatchWritesKeep(s, a, resolve);
    } else if a.PlanStatus? || a.Finish? {
      StatusKeeps(s, a, resolve);
    } else if a.Reopen? || a.Clean? || a.Remove? {
      CommandsKeep(s, a, resolve);
    } else if a.Escalate? || a.Expire? {
      EscalationKeeps(s, a, resolve);
    } else if a.Reap? {
      ReapKeeps(s, a.id, a.broken, resolve);
    } else if a.Warn? || a.PlanLabel? || a.WatchStamp? {
      NotesKeep(s, a, resolve);
    } else {
      IdleKeeps(s, a, resolve);
    }
  }

  lemma {:induction false} LockInvAlways(s: Sys, acts: seq<Action>, t: Sys, resolve: string -> string)
    requires LockInv(s, resolve) && SerialSteps(s, acts, t, resolve)
    ensures LockInv(t, resolve)
    decreases |acts|
  {
    if acts != [] {
      SerialKeeps(s, acts[0], resolve);
      LockInvAlways(Apply(s, acts[0]), acts[1..], t, resolve);
    }
  }

  /** In every serial run from the empty table no two running rows resolve to the same key, and
      every running row carries its key. */
  lemma RunningRowsExcludeEachOther(acts: seq<Action>, s: Sys, i: Id, j: Id, resolve: string -> string)
    requires SerialSteps(EMPTY, acts, s, resolve)
    requires i in s.rows && j in s.rows && i != j && s.rows[i].status == Running && s.rows[j].status == Running
    ensures s.rows[i].lockKey == resolve(s.rows[i].notes)
    ensures resolve(s.rows[i].notes) != "" ==> resolve(s.rows[i].notes) != resolve(s.rows[j].notes)
  {
    LockInvAlways(EMPTY, acts, s, resolve);
    assert Owner(s, i) && Owner(s, j);
  }

  // ---- a condition on beginning a call ----

  /** `Serial` with the clause on taking a lock asked for when a call begins: the row it takes up
      neither runs nor is in other hands. */
  ghost predicate SerialAtPick(s: Sys, a: Action, resolve: string -> string) {
    && !Spoils(s, a, resolve)
    && (a.Pick? && Enabled(s, a) ==>
          !InOtherHands(s, a.p, s.procs[a.p].todo[0]) && !Runs(s, s.procs[a.p].todo[0]))
    && (a.Act? && Enabled(s, a) ==>
          var pc := s.procs[a.p].pc;
          pc.Check? && a.e.Cleared? && pc.id in s.rows ==> a.e.key == resolve(s.rows[pc.id].notes))
  }

  ghost predicate SerialAtPickSteps(s: Sys, acts: seq<Action>, t: Sys, resolve: string -> string)
    decreases |acts|
  {
    if acts == [] then s == t
    else
      && Enabled(s, acts[0]) && Orderly(s, acts[0]) && SerialAtPick(s, acts[0], resolve)
      && SerialAtPickSteps(Apply(s, acts[0]), acts[1..], t, resolve)
  }

  /** No call that has yet to take its lock is on a running row. */
  ghost predicate NoneTooLate(s: Sys) {
    forall p | p in s.procs && (s.procs[p].pc.Check? || s.procs[p].pc.Lock?) :: !Runs(s, s.procs[p].pc.id)
  }

  /** Only a dispatcher's own action sets a row running, and only its own row. */
  lemma OnlyCallsRun(s: Sys, a: Action, id: Id)
    requires Enabled(s, a) && Orderly(s, a) && Runs(Apply(s, a), id)
    ensures Runs(s, id) || (a.Act? && s.procs[a.p].pc.SetRunning? && s.procs[a.p].pc.id == id)
  {
  }

  lemma EarlyStep(pc: Pc, rows: Rows, e: Event)
    requires Accepts(pc, e) && (Step(pc, rows, e).0.Check? || Step(pc, rows, e).0.Lock?)
    ensures pc.Check? && Step(pc, rows, e).0.id == pc.id
  {
  }

  /** A call that has yet to take its lock was there before, or is just being begun. */
  lemma EarlyCallIs(s: Sys, a: Action, q: Pid)
    requires Enabled(s, a) && Orderly(s, a) && q in Apply(s, a).procs
    requires Apply(s, a).procs[q].pc.Check? || Apply(s, a).procs[q].pc.Lock?
    ensures
      || (a == Pick(q) && Apply(s, a).procs[q].pc.id == s.procs[q].todo[0])
      || (q in s.procs && (s.procs[q].pc.Check? || s.procs[q].pc.Lock?)
          && Apply(s, a).procs[q].pc.id == s.procs[q].pc.id)
  {
    if a.Act? && a.p == q { EarlyStep(s.procs[q].pc, s.rows, a.e); }
  }

  lemma StillNotTooLate(s: Sys, a: Action, resolve: string -> string, q: Pid)
    requires LockInv(s, resolve) && NoneTooLate(s)
    requires Enabled(s, a) && Orderly(s, a) && SerialAtPick(s, a, resolve) && q in Apply(s, a).procs
    requires Apply(s, a).procs[q].pc.Check? || Apply(s, a).procs[q].pc.Lock?
    ensures !Runs(Apply(s, a), Apply(s, a).procs[q].pc.id)
  {
    var id := Apply(s, a).procs[q].pc.id;
    EarlyCallIs(s, a, q);
    if Runs(Apply(s, a), id) {
      OnlyCallsRun(s, a, id);
      TwoHands(s, a.p, q, id);
    }
  }

  lemma TwoHands(s: Sys, p: Pid, q: Pid, id: Id)
    requires Disjoint(s) && p in s.procs && q in s.procs && s.procs[p].pc.SetRunning? && At(s.procs[p].pc, id)
    requires s.procs[q].pc.Check? || s.procs[q].pc.Lock?
    ensures !At(s.procs[q].pc, id)
  {
  }

  lemma StillNoneTooLate(s: Sys, a: Action, resolve: string -> string)
    requires LockInv(s, resolve) && NoneTooLate(s)
    requires Enabled(s, a) && Orderly(s, a) && SerialAtPick(s, a, resolve)
    ensures NoneTooLate(Apply(s, a))
  {
    var t := Apply(s, a);
    forall q | q in t.procs && (t.procs[q].pc.Check? || t.procs[q].pc.Lock?) ensures !Runs(t, t.procs[q].pc.id) {
      StillNotTooLate(s, a, resolve, q);
    }
  }

  /** Runs that are serial at every pick are serial. */
  lemma {:induction false} SerialAtPickIsSerial(s: Sys, acts: seq<Action>, t: Sys, resolve: string -> string)
    requires LockInv(s, resolve) && NoneTooLate(s) && SerialAtPickSteps(s, acts, t, resolve)
    ensures SerialSteps(s, acts, t, resolve)
    decreases |acts|
  {
    if acts != [] {
      SerialKeeps(s, acts[0], resolve);
      StillNoneTooLate(s, acts[0], resolve);
      SerialAtPickIsSerial(Apply(s, acts[0]), acts[1..], t, resolve);
    }
  }

  // ---- one call, exactly ----

  /** What a call may meet without harm: where it takes its lock, the row does not run unless the
      lock will be refused, or there is none to take. */
  ghost predicate Careful(pc: Pc, rows: Rows, resolve: string -> string) {
    !pc.Idle? && !pc.Returned? && pc.id in rows ==>
      var row := rows[pc.id];
      && RowOfCall(pc, row, resolve)
      && (pc.Check? && row.status == Running && resolve(row.notes) != "" ==>
        HeldByOther(rows, pc.id, resolve(row.notes)))
      && (pc.Lock? && row.status == Running ==> HeldByOther(rows, pc.id, pc.key))
  }

  ghost predicate AllLocked(rows: Rows, resolve: string -> string) {
    forall id | id in rows :: RowLock(rows[id], resolve)
  }

  predicate Clears(es: seq<Event>, key: string) {
    forall e | e in es && e.Cleared? :: e.key == key
  }

  /** The call's own checks resolve the key of the row as `resolve` does. */
  predicate Resolved(rows: Rows, id: Id, es: seq<Event>, resolve: string -> string) {
    id in rows ==> Clears(es, resolve(rows[id].notes))
  }

  lemma CarefulStep(pc: Pc, rows: Rows, e: Event, resolve: string -> string)
    requires Accepts(pc, e) && AllLocked(rows, resolve) && Careful(pc, rows, resolve)
    requires pc.Check? && e.Cleared? && pc.id in rows ==> e.key == resolve(rows[pc.id].notes)
    ensures var n := Step(pc, rows, e);
      && AllLocked(n.1, resolve) && Careful(n.0, n.1, resolve)
      && (pc.id in rows ==> n.1[pc.id].notes == rows[pc.id].notes)
  {
    StepShape(pc, rows, e);
    if pc.id in rows { StepEffect(pc, rows, e, resolve); }
  }

  lemma {:induction false} CarefulCall(pc: Pc, rows: Rows, es: seq<Event>, pc': Pc, rows': Rows,
                                       resolve: string -> string)
    requires Follows(pc, rows, es, pc', rows') && AllLocked(rows, resolve) && Careful(pc, rows, resolve)
    requires !pc.Idle? && !pc.Returned? ==> Resolved(rows, pc.id, es, resolve)
    ensures AllLocked(rows', resolve)
    decreases |es|
  {
    if es != [] {
      assert es[0] in es;
      CarefulStep(pc, rows, es[0], resolve);
      StepShape(pc, rows, es[0]);
      CarefulCall(Step(pc, rows, es[0]).0, Step(pc, rows, es[0]).1, es[1..], pc', rows', resolve);
    }
  }
}
