/** The code of the mutex over its owner field and the shared kernel. */
module MutexCode {
  import opened Sequences
  import opened Kernel
  import opened Scheduling
  import M = Mutex

  class TaskMutex {
    const kernel: Scheduler
    const waiters: ListId
    var owner: Option<TaskId>
    ghost var history: M.Mutex

    constructor (kernel: Scheduler, waiters: ListId)
      requires Inv(kernel.State()) && Listed(kernel.State(), waiters) == []
      requires forall n :: n in kernel.nodes ==> kernel.nodes[n].home != Some(waiters)
      ensures this.kernel == kernel && this.waiters == waiters && owner == None
      ensures Valid() && history == M.Create()
    {
      this.kernel, this.waiters := kernel, waiters;
      owner := None;
      history := M.Create();
    }

    ghost predicate Valid()
      reads this, kernel
    {
      history.owner == owner && Inv(kernel.State()) && M.MutexInv(kernel.State(), history, waiters)
    }

    /** The suspension point of `lock`. */
    method Lock(point: Handle) returns (got: bool)
      requires Valid() && InTask(kernel.State()) && owner != kernel.current
      modifies this, kernel
      ensures Valid() && (kernel.State(), history, got) == M.Lock(old(kernel.State()), old(history), waiters)
      ensures kernel.resumePoints == StoredIf(!got, old(kernel.resumePoints), old(kernel.current), point)
    {
      hide Inv, M.MutexInv;
      M.LockKeeps(kernel.State(), history, waiters);
      if owner == None {
        owner := kernel.current;
        history := M.Grant(history, kernel.nextId, kernel.current.value);
        var id := kernel.TakeNumber();
        got := true;
      } else {
        history := history.(arrivals := history.arrivals + [kernel.nextId]);
        var n := kernel.BlockCurrent(Some(waiters), NoPayload, None, point);
        got := false;
      }
    }

    method TryLock() returns (got: bool)
      requires Valid() && InTask(kernel.State())
      modifies this, kernel
      ensures Valid() && (kernel.State(), history, got) == M.TryLock(old(kernel.State()), old(history))
      ensures kernel.resumePoints == old(kernel.resumePoints)
    {
      hide Inv, M.MutexInv;
      M.TryLockKeeps(kernel.State(), history, waiters);
      if owner.Some? {
        return false;
      }
      owner := kernel.current;
      history := M.Grant(history, kernel.nextId, kernel.current.value);
      var id := kernel.TakeNumber();
      got := true;
    }

    method Unlock()
      requires Valid() && kernel.current.Some? && owner == kernel.current
      modifies this, kernel
      ensures Valid() && (kernel.State(), history) == M.Unlock(old(kernel.State()), old(history), waiters)
      ensures kernel.resumePoints == old(kernel.resumePoints)
    {
      hide Inv, M.MutexInv;
      M.UnlockKeeps(kernel.State(), history, waiters);
      var caller := kernel.current.value;
      if waiters in kernel.waits && kernel.waits[waiters] != [] {
        FirstWaitsToWake(kernel.State(), waiters);
        var w := kernel.waits[waiters][0];
        var t := kernel.nodes[w].task;
        owner := Some(t);
        history := history.(owner := owner, released := history.released + [caller],
                            granted := history.granted + [w], held := history.held + [t]);
        kernel.WakeNode(w, false);
      } else {
        owner := None;
        history := history.(owner := None, released := history.released + [caller]);
      }
    }
  }
}
