/** The promises of all operations, in the whole system. */
module PromisedSystem {
  import opened Sequences
  import opened Time
  import opened Kernel
  import opened Effects
  import opened Promises
  import opened Timer
  import opened System
  import S = Semaphore
  import M = Mutex
  import Q = Queue
  import E = EventGroup

  /** What an operation answers on the spot; a blocking one that answers `Flag(false)`, or without
      an item or a snapshot, has suspended its task. */
  datatype Answer =
    | Silence
    | Flag(ok: bool)
    | Item(got: Option<Value>)
    | Snapshot(bits: Option<bv32>)

  function SemaphoreAnswer(k: Kernel, s: S.Semaphore, op: Op): bool
    requires Inv(k) && IsSemaphoreOp(op) && (TaskOnly(op) ==> InTask(k))
  {
    match op
    case Acquire(i, timeout) => S.Acquire(k, s, SemaphoreWaiters(i), timeout).2
    case TryAcquire(_) => S.TryAcquire(k, s).2
    case Release(i) => S.Release(k, s, SemaphoreWaiters(i)).2
  }

  function MutexAnswer(k: Kernel, m: M.Mutex, op: Op): Answer
    requires Inv(k) && IsMutexOp(op) && InTask(k) && (op.Lock? ==> m.owner != k.current)
  {
    match op
    case Lock(i) => Flag(M.Lock(k, m, MutexWaiters(i)).2)
    case TryLock(_) => Flag(M.TryLock(k, m).2)
    case Unlock(_) => Silence
  }

  function QueueAnswer(k: Kernel, q: Q.Queue, op: Op): Answer
    requires Inv(k) && IsQueueOp(op) && (TaskOnly(op) ==> InTask(k))
  {
    match op
    case Send(i, v, timeout) => Flag(Q.Send(k, q, Receivers(i), Senders(i), v, timeout).2)
    case TrySend(i, v) => Flag(Q.TrySend(k, q, Receivers(i), v).2)
    case Receive(i, timeout) => Item(Q.Receive(k, q, Receivers(i), Senders(i), timeout).2)
    case TryReceive(i) => Item(Q.TryReceive(k, q, Senders(i)).2)
  }

  function GroupAnswer(k: Kernel, g: E.Group, op: Op): Answer
    requires Inv(k) && IsGroupOp(op) && (TaskOnly(op) ==> InTask(k))
  {
    match op
    case Wait(i, want, all, clear, timeout) => Snapshot(E.Wait(k, g, GroupWaiters(i), want, all, clear, timeout).2)
    case Sync(i, bits, want) => Snapshot(E.Sync(k, g, GroupWaiters(i), bits, want).2)
    case SetBits(_, _) => Silence
    case ClearBits(_, bits) => Snapshot(Some(E.Clear(g, bits).1))
  }

  ghost function AnswerOf(y: Sys, op: Op): Answer
    requires SysInv(y) && Enabled(y, op)
  {
    if op.SleepFor? then Flag(op.ticks == 0)
    else if IsSemaphoreOp(op) then Flag(SemaphoreAnswer(y.k, y.semaphores[op.s], op))
    else if IsMutexOp(op) then MutexAnswer(y.k, y.mutexes[op.m], op)
    else if IsQueueOp(op) then QueueAnswer(y.k, y.queues[op.q], op)
    else if IsGroupOp(op) then GroupAnswer(y.k, y.groups[op.g], op)
    else Silence
  }

  // ---------------------------------------------------------------- primitives

  ghost predicate SemaphorePromise(k: Kernel, s: S.Semaphore, op: Op, ok: bool, k': Kernel, s': S.Semaphore)
    requires IsSemaphoreOp(op)
  {
    match op
    case Acquire(i, timeout) => Acquires(k, s, SemaphoreWaiters(i), timeout, k', s', ok)
    case TryAcquire(i) =>
      if s.count > 0 then ok && Acquires(k, s, SemaphoreWaiters(i), None, k', s', true) else !ok && k' == k && s' == s
    case Release(i) => Releases(k, s, SemaphoreWaiters(i), k', s', ok)
  }

  lemma SemaphoreMeets(k: Kernel, s: S.Semaphore, op: Op)
    requires Inv(k) && IsSemaphoreOp(op) && (TaskOnly(op) ==> InTask(k))
    ensures var (k', s') := OnSemaphore(k, s, op); SemaphorePromise(k, s, op, SemaphoreAnswer(k, s, op), k', s')
  {
    hide Inv, InTask, Acquires, Releases, S.Acquire, S.TryAcquire, S.Release;
    match op
    case Acquire(i, timeout) => AcquirePromise(k, s, SemaphoreWaiters(i), timeout);
    case TryAcquire(i) => TryAcquirePromise(k, s, SemaphoreWaiters(i));
    case Release(i) => ReleasePromise(k, s, SemaphoreWaiters(i));
  }

  ghost predicate MutexPromise(k: Kernel, m: M.Mutex, op: Op, a: Answer, k': Kernel, m': M.Mutex)
    requires IsMutexOp(op)
  {
    match op
    case Lock(i) => a.Flag? && Locks(k, m, MutexWaiters(i), k', m', a.ok)
    case TryLock(i) =>
      if m.owner == None then a == Flag(true) && Locks(k, m, MutexWaiters(i), k', m', true)
      else a == Flag(false) && k' == k && m' == m
    case Unlock(i) => Unlocks(k, m, MutexWaiters(i), k', m')
  }

  lemma MutexMeets(k: Kernel, m: M.Mutex, op: Op)
    requires Inv(k) && IsMutexOp(op) && InTask(k)
    requires (op.Lock? ==> m.owner != k.current) && (op.Unlock? ==> m.owner == k.current)
    ensures var (k', m') := OnMutex(k, m, op); MutexPromise(k, m, op, MutexAnswer(k, m, op), k', m')
  {
    hide Inv, Locks, Unlocks, M.Lock, M.TryLock, M.Unlock;
    match op
    case Lock(i) => LockPromise(k, m, MutexWaiters(i));
    case TryLock(i) => TryLockPromise(k, m, MutexWaiters(i));
    case Unlock(i) => UnlockPromise(k, m, MutexWaiters(i));
  }

  ghost predicate QueuePromise(k: Kernel, q: Q.Queue, op: Op, a: Answer, k': Kernel, q': Q.Queue)
    requires IsQueueOp(op)
  {
    match op
    case Send(i, v, timeout) => a.Flag? && Sends(k, q, Receivers(i), Senders(i), v, timeout, k', q', a.ok)
    case TrySend(i, v) => a.Flag? && Delivers(k, q, Receivers(i), v, k', q', a.ok)
    case Receive(i, timeout) => a.Item? && Receives(k, q, Receivers(i), Senders(i), timeout, k', q', a.got)
    case TryReceive(i) =>
      if q.contents != [] then a.Item? && a.got.Some? && Takes(k, q, Senders(i), k', q', a.got.value)
      else a == Item(None) && k' == k && q' == q
  }

  lemma QueueMeets(k: Kernel, q: Q.Queue, op: Op)
    requires Inv(k) && IsQueueOp(op) && (TaskOnly(op) ==> InTask(k))
    requires Q.QueueInv(k, q, Receivers(op.q), Senders(op.q))
    ensures var (k', q') := OnQueue(k, q, op); QueuePromise(k, q, op, QueueAnswer(k, q, op), k', q')
  {
    hide Inv, InTask, Sends, Delivers, Receives, Takes, Q.Send, Q.TrySend, Q.Receive, Q.TryReceive, Q.QueueInv;
    match op
    case Send(i, v, timeout) => SendPromise(k, q, Receivers(i), Senders(i), v, timeout);
    case TrySend(i, v) => TrySendPromise(k, q, Receivers(i), v);
    case Receive(i, timeout) => ReceivePromise(k, q, Receivers(i), Senders(i), timeout);
    case TryReceive(i) => TryReceivePromise(k, q, Receivers(i), Senders(i));
  }

  ghost predicate GroupPromise(k: Kernel, g: E.Group, op: Op, a: Answer, k': Kernel, g': E.Group)
    requires IsGroupOp(op)
  {
    match op
    case Wait(i, want, all, clear, timeout) =>
      a.Snapshot? && Waits(k, g, GroupWaiters(i), want, all, clear, timeout, k', g', a.bits)
    case Sync(i, bits, want) => a.Snapshot? && Syncs(k, g, GroupWaiters(i), bits, want, k', g', a.bits)
    case SetBits(i, bits) => Sets(k, g, GroupWaiters(i), bits, k', g')
    case ClearBits(_, bits) => k' == k && a == Snapshot(Some(g.bits)) && Cuts(g, bits, g')
  }

  lemma GroupMeets(k: Kernel, g: E.Group, op: Op)
    requires Inv(k) && IsGroupOp(op) && (TaskOnly(op) ==> InTask(k))
    ensures var (k', g') := OnGroup(k, g, op); GroupPromise(k, g, op, GroupAnswer(k, g, op), k', g')
  {
    hide Inv, InTask, Waits, Syncs, Sets, Cuts, E.Wait, E.Sync, E.Set, E.Clear;
    match op
    case Wait(i, want, all, clear, timeout) => WaitPromise(k, g, GroupWaiters(i), want, all, clear, timeout);
    case Sync(i, bits, want) => SyncPromise(k, g, GroupWaiters(i), bits, want);
    case SetBits(i, bits) => SetPromise(k, g, GroupWaiters(i), bits);
    case ClearBits(_, bits) => ClearPromise(g, bits);
  }

  // ---------------------------------------------------------------- the whole system

  /** The operation does to its primitive and to the kernel what it promises, and nothing to any
      other primitive. */
  ghost predicate Kept(y: Sys, op: Op, a: Answer, y': Sys) {
    if IsSemaphoreOp(op) then
      && op.s in y.semaphores && op.s in y'.semaphores && a.Flag?
      && y' == y.(k := y'.k, semaphores := y.semaphores[op.s := y'.semaphores[op.s]])
      && SemaphorePromise(y.k, y.semaphores[op.s], op, a.ok, y'.k, y'.semaphores[op.s])
    else if IsMutexOp(op) then
      && op.m in y.mutexes && op.m in y'.mutexes
      && y' == y.(k := y'.k, mutexes := y.mutexes[op.m := y'.mutexes[op.m]])
      && MutexPromise(y.k, y.mutexes[op.m], op, a, y'.k, y'.mutexes[op.m])
    else if IsQueueOp(op) then
      && op.q in y.queues && op.q in y'.queues
      && y' == y.(k := y'.k, queues := y.queues[op.q := y'.queues[op.q]])
      && QueuePromise(y.k, y.queues[op.q], op, a, y'.k, y'.queues[op.q])
    else if IsGroupOp(op) then
      && op.g in y.groups && op.g in y'.groups
      && y' == y.(k := y'.k, groups := y.groups[op.g := y'.groups[op.g]])
      && GroupPromise(y.k, y.groups[op.g], op, a, y'.k, y'.groups[op.g])
    else y' == y.(k := y'.k) && KernelPromise(y.k, op, a, y'.k)
  }

  ghost predicate KernelPromise(k: Kernel, op: Op, a: Answer, k': Kernel) {
    match op
    case StartTask(priority) => Starts(k, priority, k')
    case YieldTask => Yields(k, k')
    case SleepFor(ticks) =>
      a == Flag(ticks == 0) && if ticks == 0 then k' == k else Suspends(k, k', None, Some(ticks))
    case FinishTask => k.current.Some? && k' == k.(tasks := k.tasks - {k.current.value})
    case TimerTick => k'.clock == k.clock + 1 && k'.tick == Wrap(k.tick + 1)
    case DispatchTask(limit) => Dispatches(k, limit, k')
    case Registers(current, prio, pending) =>
      k' == k.(current := current, runningPrio := prio, pendingPreempt := pending)
    case _ => true
  }

  lemma KernelMeets(k: Kernel, op: Op)
    requires Inv(k) && (TaskOnly(op) ==> InTask(k)) && (op.DispatchTask? ==> op.limit <= |k.ready|)
    ensures KernelPromise(k, op, if op.SleepFor? then Flag(op.ticks == 0) else Silence, ApplyKernel(k, op))
  {
    hide Inv, Starts, Yields, Suspends, Dispatches, Dispatch, Start, Yield, Sleep, TickIsr;
    match op
    case StartTask(priority) => StartPromise(k, priority);
    case YieldTask => YieldPromise(k);
    case SleepFor(ticks) => SleepPromise(k, ticks);
    case FinishTask =>
    case TimerTick => TickEffect(k);
    case DispatchTask(limit) => DispatchPromise(k, limit);
    case _ =>
  }

  lemma SemaphoreKept(y: Sys, op: Op)
    requires SysInv(y) && Enabled(y, op) && IsSemaphoreOp(op)
    ensures Kept(y, op, AnswerOf(y, op), Apply(y, op))
  {
    hide Inv, InTask, OnSemaphore, SemaphoreAnswer, SemaphorePromise;
    SemaphoreMeets(y.k, y.semaphores[op.s], op);
  }

  lemma MutexKept(y: Sys, op: Op)
    requires SysInv(y) && Enabled(y, op) && IsMutexOp(op)
    ensures Kept(y, op, AnswerOf(y, op), Apply(y, op))
  {
    hide Inv, InTask, OnMutex, MutexAnswer, MutexPromise;
    MutexMeets(y.k, y.mutexes[op.m], op);
  }

  lemma QueueKept(y: Sys, op: Op)
    requires SysInv(y) && Enabled(y, op) && IsQueueOp(op)
    ensures Kept(y, op, AnswerOf(y, op), Apply(y, op))
  {
    hide Inv, InTask, OnQueue, QueueAnswer, QueuePromise, Q.QueueInv;
    QueueMeets(y.k, y.queues[op.q], op);
  }

  lemma GroupKept(y: Sys, op: Op)
    requires SysInv(y) && Enabled(y, op) && IsGroupOp(op)
    ensures Kept(y, op, AnswerOf(y, op), Apply(y, op))
  {
    hide Inv, InTask, OnGroup, GroupAnswer, GroupPromise;
    GroupMeets(y.k, y.groups[op.g], op);
  }

  lemma KernelKept(y: Sys, op: Op)
    requires SysInv(y) && Enabled(y, op) && !IsPrimitiveOp(op)
    ensures Kept(y, op, AnswerOf(y, op), Apply(y, op))
  {
    hide Inv, InTask, ApplyKernel, KernelPromise;
    KernelMeets(y.k, op);
  }

  lemma EveryPromiseIsKept(y: Sys, op: Op)
    requires SysInv(y) && Enabled(y, op)
    ensures Kept(y, op, AnswerOf(y, op), Apply(y, op))
  {
    hide SysInv, Enabled, Kept, AnswerOf, Apply;
    if IsSemaphoreOp(op) {
      SemaphoreKept(y, op);
    } else if IsMutexOp(op) {
      MutexKept(y, op);
    } else if IsQueueOp(op) {
      QueueKept(y, op);
    } else if IsGroupOp(op) {
      GroupKept(y, op);
    } else {
      KernelKept(y, op);
    }
  }
}
