/** The conditions `Orderly` of module `Lifecycle` are exact: a reopen or a clean that does not meet
    them lets a run go on to two calls past their claims on one row, or to a running row without a
    session. */
module OrderlyExact {
  import opened Tasks
  import opened Dispatch
  import opened Lifecycle

  /** Claim exclusion, or the session of a running row, is lost. */
  ghost predicate Lost(s: Sys) {
    || (exists p, q | p in s.procs && q in s.procs && p != q :: TwoClaims(s.procs[p].pc, s.procs[q].pc))
    || (exists id | id in s.rows :: !RunningIsReal(s.rows[id], s.born))
  }

  predicate TwoClaims(pc: Pc, other: Pc) {
    PastClaim(pc) && PastClaim(other) && pc.id == other.id
  }

  ghost predicate CanLose(s: Sys) {
    exists acts, t :: Steps(s, acts, t) && Lost(t)
  }

  lemma InvLosesNothing(s: Sys)
    requires Inv(s)
    ensures !CanLose(s)
  {
    forall acts, t | Steps(s, acts, t) ensures !Lost(t) {
      InvAlways(s, acts, t);
    }
  }

  lemma CanLoseLater(s: Sys, a: Action)
    requires Enabled(s, a) && Orderly(s, a) && CanLose(Apply(s, a))
    ensures CanLose(s)
  {
    var acts, t :| Steps(Apply(s, a), acts, t) && Lost(t);
    assert ([a] + acts)[1..] == acts;
    assert Steps(s, [a] + acts, t);
  }

  predicate ClaimedBy(s: Sys, p: Pid, id: Id) {
    p in s.procs && PastClaim(s.procs[p].pc) && s.procs[p].pc.id == id
  }

  /** A second call, about to make its control directory, claims the row. */
  lemma SecondClaim(s: Sys, p: Pid, q: Pid, id: Id)
    requires ClaimedBy(s, p, id) && Claimable(s.rows, id)
    requires q in s.procs && q != p && s.procs[q].pc == Mkdir(id, "")
    ensures CanLose(s)
  {
    var t := Apply(s, Act(q, Fine));
    var u := Apply(t, Act(q, Fine));
    assert u.procs[q].pc == Start(id, "") && u.procs[p] == s.procs[p];
    assert TwoClaims(u.procs[p].pc, u.procs[q].pc);
    assert Steps(u, [], u);
    CanLoseLater(t, Act(q, Fine));
    CanLoseLater(s, Act(q, Fine));
  }

  /** A dispatcher lists the row and takes it up. */
  lemma ListedClaim(s: Sys, p: Pid, q: Pid, id: Id)
    requires ClaimedBy(s, p, id) && Claimable(s.rows, id) && q !in s.procs
    ensures CanLose(s)
  {
    var listed := Apply(s, ListPending(q, [id]));
    var picked := Apply(listed, Pick(q));
    assert picked.procs[q] == Proc([id][1..], Check(id));
    var cleared := Apply(picked, Act(q, Cleared("")));
    SecondClaim(cleared, p, q, id);
    CanLoseLater(picked, Act(q, Cleared("")));
    CanLoseLater(listed, Pick(q));
    CanLoseLater(s, ListPending(q, [id]));
  }

  lemma ResetLoses(s: Sys, p: Pid, id: Id)
    requires ClaimedBy(s, p, id) && id in s.rows && s.rows[id].ws == ""
    ensures CanLose(s)
    decreases p + 1 in s.procs
  {
    if p + 1 in s.procs {
      ResetLoses(Apply(s, Crash(p + 1)), p, id);
      CanLoseLater(s, Crash(p + 1));
    } else {
      ListedClaim(Apply(s, PlanStatus(id, Pending)), p, p + 1, id);
      CanLoseLater(s, PlanStatus(id, Pending));
    }
  }

  /** Where the invariant holds, an action lets a run lose claim exclusion or the session of a
      running row if and only if it is not orderly. */
  lemma OrderlyIff(s: Sys, a: Action)
    requires Inv(s) && Enabled(s, a)
    ensures CanLose(Apply(s, a)) <==> !Orderly(s, a)
  {
    var t := Apply(s, a);
    if Orderly(s, a) {
      ApplyKeeps(s, a);
      InvLosesNothing(t);
    } else if Claimed(s, a.id) {
      var p :| p in s.procs && PastClaim(s.procs[p].pc) && s.procs[p].pc.id == a.id;
      ResetLoses(t, p, a.id);
    } else {
      assert !RunningIsReal(t.rows[a.id], t.born);
      assert Steps(t, [], t);
    }
  }
}
