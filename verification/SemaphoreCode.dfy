/** The code of the counting semaphore over its own counter and the shared kernel. */
module SemaphoreCode {
  import opened Sequences
  import opened Time
  import opened Kernel
  import opened Scheduling
  import S = Semaphore

  class CountingSemaphore {
    const kernel: Scheduler
    const waiters: ListId
    var count: nat
    const max: nat
    ghost var history: S.Semaphore

    constructor (kernel: Scheduler, waiters: ListId, initial: nat, max: nat)
      requires Inv(kernel.State()) && Listed(kernel.State(), waiters) == []
      requires forall n :: n in kernel.nodes ==> kernel.nodes[n].home != Some(waiters)
      ensures this.kernel == kernel && this.waiters == waiters && count == initial && this.max == max
      ensures Valid() && history == S.Create(initial, max)
    {
      this.kernel, this.waiters, this.max := kernel, waiters, max;
      count := initial;
      history := S.Create(initial, max);
      new;
      S.CreateInv(kernel.State(), initial, max, waiters);
    }

    ghost predicate Valid()
      reads this, kernel
    {
      && history.count == count && history.max == max
      && Inv(kernel.State()) && S.SemaphoreInv(kernel.State(), history, waiters)
    }

    /** The suspension point of `acquire` and `try_acquire_for`. */
    method Acquire(timeout: Option<Tick>, point: Handle) returns (got: bool)
      requires Valid() && InTask(kernel.State())
      modifies this, kernel
      ensures Valid()
      ensures (kernel.State(), history, got) == S.Acquire(old(kernel.State()), old(history), waiters, timeout)
      ensures kernel.resumePoints == StoredIf(!got, old(kernel.resumePoints), old(kernel.current), point)
    {
      hide Inv, InTask, S.SemaphoreInv;
      S.AcquireKeeps(kernel.State(), history, waiters, timeout);
      if count > 0 {
        count := count - 1;
        history := S.Grant(history, kernel.nextId);
        var id := kernel.TakeNumber();
        got := true;
      } else {
        history := history.(arrivals := history.arrivals + [kernel.nextId]);
        var n := kernel.BlockCurrent(Some(waiters), NoPayload, timeout, point);
        got := false;
      }
    }

    method TryAcquire() returns (got: bool)
      requires Valid()
      modifies this, kernel
      ensures Valid() && (kernel.State(), history, got) == S.TryAcquire(old(kernel.State()), old(history))
      ensures kernel.resumePoints == old(kernel.resumePoints)
    {
      hide Inv, InTask, S.SemaphoreInv;
      S.TryAcquireKeeps(kernel.State(), history, waiters);
      got := false;
      if count > 0 {
        count := count - 1;
        history := S.Grant(history, kernel.nextId);
        var id := kernel.TakeNumber();
        got := true;
      }
    }

    method Release() returns (kept: bool)
      requires Valid()
      modifies this, kernel
      ensures Valid() && (kernel.State(), history, kept) == S.Release(old(kernel.State()), old(history), waiters)
      ensures kernel.resumePoints == old(kernel.resumePoints)
    {
      hide Inv, InTask, S.SemaphoreInv;
      S.ReleaseKeeps(kernel.State(), history, waiters);
      if waiters in kernel.waits && kernel.waits[waiters] != [] {
        FirstWaitsToWake(kernel.State(), waiters);
        var w := kernel.waits[waiters][0];
        history := history.(released := history.released + 1, granted := history.granted + [w]);
        kernel.WakeNode(w, false);
        kept := true;
      } else if count < max {
        count := count + 1;
        history := history.(count := count, released := history.released + 1);
        kept := true;
      } else {
        kept := false;
      }
    }
  }
}
