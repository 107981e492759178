/** The commands done, fail, promote and reopen (internal/cli/task_transition.go). */
module Commands {
  import opened Tasks

  /** `allowedFrom` is the command's own condition; empty, it leaves the matter to the store. */
  method Transition(repo: TaskRepo, id: Id, target: Status, allowedFrom: set<Status>) returns (err: Error)
    modifies repo
    ensures repo.nextId == old(repo.nextId) && (old(repo.faulted) ==> repo.faulted)
    ensures err in {Nil, NotFound, InvalidTransition, Fault} && (err == Fault ==> repo.faulted)
    ensures err == NotFound ==> id !in repo.rows
    ensures err == Nil ==>
      && id in old(repo.rows) && (allowedFrom != {} ==> old(repo.rows)[id].status in allowedFrom)
      && (if old(repo.rows)[id].status in {Pending, Running, WaitingHuman} then target in {Done, Failed}
          else target == Pending)
      && repo.rows == old(repo.rows)[id := old(repo.rows)[id].(
           status := target, ws := if target == Pending then "" else old(repo.rows)[id].ws)]
    ensures err == InvalidTransition ==>
      && id in repo.rows
      && ((allowedFrom != {} && repo.rows[id].status !in allowedFrom)
          || if repo.rows[id].status in {Pending, Running, WaitingHuman} then target !in {Done, Failed}
             else target != Pending)
    ensures err in {NotFound, InvalidTransition} ==> repo.rows == old(repo.rows)
    ensures err == Fault ==>
      || repo.rows == old(repo.rows)
      || (id in old(repo.rows) && target == Pending
          && repo.rows == old(repo.rows)[id := old(repo.rows)[id].(status := target)])
  {
    if allowedFrom != {} {
      var current;
      current, err := repo.Get(id);
      if err != Nil { return err; }
      if current.status !in allowedFrom { return InvalidTransition; }
    }
    err := repo.TransitionStatus(id, target);
    if err != Nil { return err; }
    if target == Pending { err := repo.SetWorkspace(id, ""); }
  }
}
