/** One kernel with any number of primitives: the shared state, its steps and its runs. */
module System {
  import opened Sequences
  import opened Time
  import opened Kernel
  import opened KernelProofs
  import opened Waking
  import opened Timer
  import opened Evolution
  import S = Semaphore
  import M = Mutex
  import Q = Queue
  import QP = QueueProofs
  import E = EventGroup

  datatype Sys = Sys(
    k: Kernel,
    semaphores: map<nat, S.Semaphore>,
    mutexes: map<nat, M.Mutex>,
    queues: map<nat, Q.Queue>,
    groups: map<nat, E.Group>)

  /** The critical sections of the system. Those from `Acquire` on are calls of primitives;
      the `_from_isr` functions are the same code as their plain forms. `Registers` stands
      for any assignment to `current`, `running_prio` and the pend flag. */
  datatype Op =
    | StartTask(priority: nat)
    | YieldTask
    | SleepFor(ticks: Tick)
    | FinishTask
    | TimerTick
    | DispatchTask(limit: nat)
    | Registers(current: Option<TaskId>, runningPrio: nat, pending: bool)
    | Acquire(s: nat, timeout: Option<Tick>)
    | TryAcquire(s: nat)
    | Release(s: nat)
    | Lock(m: nat)
    | TryLock(m: nat)
    | Unlock(m: nat)
    | Send(q: nat, v: Value, timeout: Option<Tick>)
    | TrySend(q: nat, v: Value)
    | Receive(q: nat, timeout: Option<Tick>)
    | TryReceive(q: nat)
    | Wait(g: nat, want: bv32, all: bool, clear: bool, timeout: Option<Tick>)
    | Sync(g: nat, bits: bv32, want: bv32)
    | SetBits(g: nat, bits: bv32)
    | ClearBits(g: nat, bits: bv32)

  // ---------------------------------------------------------------- invariant

  ghost predicate SemaphoresInv(k: Kernel, ss: map<nat, S.Semaphore>) {
    forall i {:trigger i in ss} :: i in ss ==> S.SemaphoreInv(k, ss[i], SemaphoreWaiters(i))
  }

  ghost predicate MutexesInv(k: Kernel, ms: map<nat, M.Mutex>) {
    forall i {:trigger i in ms} :: i in ms ==> M.MutexInv(k, ms[i], MutexWaiters(i))
  }

  ghost predicate QueuesInv(k: Kernel, qs: map<nat, Q.Queue>) {
    forall i {:trigger i in qs} :: i in qs ==> Q.QueueInv(k, qs[i], Receivers(i), Senders(i))
  }

  ghost predicate GroupsInv(k: Kernel, gs: map<nat, E.Group>) {
    forall i {:trigger i in gs} :: i in gs ==> E.GroupInv(k, gs[i], GroupWaiters(i))
  }

  /** The kernel invariant and that of every primitive. */
  ghost predicate SysInv(y: Sys) {
    && Inv(y.k)
    && SemaphoresInv(y.k, y.semaphores)
    && MutexesInv(y.k, y.mutexes)
    && QueuesInv(y.k, y.queues)
    && GroupsInv(y.k, y.groups)
  }

  // ---------------------------------------------------------------- steps

  /** Operations that may stop the calling task. */
  predicate Blocking(op: Op) {
    op.YieldTask? || op.SleepFor? || op.FinishTask? || op.Acquire? || op.Lock? || op.Send? || op.Receive? ||
    op.Wait? || op.Sync?
  }

  /** Operations that only the current, Running task can perform. */
  predicate TaskOnly(op: Op) {
    Blocking(op) || op.TryLock? || op.Unlock?
  }

  /** What the code demands of the caller: blocking calls come from a task, a mutex is not
      locked again by its owner, unlocked by nobody else, and not held by a finishing task. */
  ghost predicate Enabled(y: Sys, op: Op) {
    && (TaskOnly(op) ==> InTask(y.k))
    && match op
       case FinishTask => forall i {:trigger i in y.mutexes} :: i in y.mutexes ==> y.mutexes[i].owner != y.k.current
       case DispatchTask(limit) => limit <= |y.k.ready|
       case Acquire(i, _) => i in y.semaphores
       case TryAcquire(i) => i in y.semaphores
       case Release(i) => i in y.semaphores
       case Lock(i) => i in y.mutexes && y.mutexes[i].owner != y.k.current
       case TryLock(i) => i in y.mutexes
       case Unlock(i) => i in y.mutexes && y.mutexes[i].owner == y.k.current
       case Send(i, _, _) => i in y.queues
       case TrySend(i, _) => i in y.queues
       case Receive(i, _) => i in y.queues
       case TryReceive(i) => i in y.queues
       case Wait(i, _, _, _, _) => i in y.groups
       case Sync(i, _, _) => i in y.groups
       case SetBits(i, _) => i in y.groups
       case ClearBits(i, _) => i in y.groups
       case _ => true
  }

  ghost function ApplyKernel(k: Kernel, op: Op): Kernel
    requires Inv(k) && (TaskOnly(op) ==> InTask(k))
    requires op.DispatchTask? ==> op.limit <= |k.ready|
  {
    match op
    case StartTask(priority) => Start(k, priority)
    case YieldTask => Yield(k)
    case SleepFor(ticks) => Sleep(k, ticks)
    case FinishTask => Finish(k)
    case TimerTick => TickIsr(k)
    case DispatchTask(limit) => HeadsAreTasks(k); Dispatch(k, limit)
    case Registers(current, runningPrio, pending) =>
      k.(current := current, runningPrio := runningPrio, pendingPreempt := pending)
    case _ => k
  }

  predicate IsSemaphoreOp(op: Op) { op.Acquire? || op.TryAcquire? || op.Release? }
  predicate IsMutexOp(op: Op) { op.Lock? || op.TryLock? || op.Unlock? }
  predicate IsQueueOp(op: Op) { op.Send? || op.TrySend? || op.Receive? || op.TryReceive? }
  predicate IsGroupOp(op: Op) { op.Wait? || op.Sync? || op.SetBits? || op.ClearBits? }
  predicate IsPrimitiveOp(op: Op) { IsSemaphoreOp(op) || IsMutexOp(op) || IsQueueOp(op) || IsGroupOp(op) }

  function OnSemaphore(k: Kernel, s: S.Semaphore, op: Op): (Kernel, S.Semaphore)
    requires Inv(k) && IsSemaphoreOp(op) && (TaskOnly(op) ==> InTask(k))
  {
    match op
    case Acquire(i, timeout) => var r := S.Acquire(k, s, SemaphoreWaiters(i), timeout); (r.0, r.1)
    case TryAcquire(i) => var r := S.TryAcquire(k, s); (r.0, r.1)
    case Release(i) => var r := S.Release(k, s, SemaphoreWaiters(i)); (r.0, r.1)
  }

  function OnMutex(k: Kernel, m: M.Mutex, op: Op): (Kernel, M.Mutex)
    requires Inv(k) && IsMutexOp(op) && InTask(k)
    requires (op.Lock? ==> m.owner != k.current) && (op.Unlock? ==> m.owner == k.current)
  {
    match op
    case Lock(i) => var r := M.Lock(k, m, MutexWaiters(i)); (r.0, r.1)
    case TryLock(i) => var r := M.TryLock(k, m); (r.0, r.1)
    case Unlock(i) => M.Unlock(k, m, MutexWaiters(i))
  }

  function OnQueue(k: Kernel, q: Q.Queue, op: Op): (Kernel, Q.Queue)
    requires Inv(k) && IsQueueOp(op) && (TaskOnly(op) ==> InTask(k))
  {
    match op
    case Send(i, v, timeout) => var r := Q.Send(k, q, Receivers(i), Senders(i), v, timeout); (r.0, r.1)
    case TrySend(i, v) => var r := Q.TrySend(k, q, Receivers(i), v); (r.0, r.1)
    case Receive(i, timeout) => var r := Q.Receive(k, q, Receivers(i), Senders(i), timeout); (r.0, r.1)
    case TryReceive(i) => var r := Q.TryReceive(k, q, Senders(i)); (r.0, r.1)
  }

  function OnGroup(k: Kernel, g: E.Group, op: Op): (Kernel, E.Group)
    requires Inv(k) && IsGroupOp(op) && (TaskOnly(op) ==> InTask(k))
  {
    match op
    case Wait(i, want, all, clear, timeout) =>
      var r := E.Wait(k, g, GroupWaiters(i), want, all, clear, timeout); (r.0, r.1)
    case Sync(i, bits, want) => var r := E.Sync(k, g, GroupWaiters(i), bits, want); (r.0, r.1)
    case SetBits(i, bits) => E.Set(k, g, GroupWaiters(i), bits)
    case ClearBits(i, bits) => (k, E.Clear(g, bits).0)
  }

  ghost function Apply(y: Sys, op: Op): Sys
    requires SysInv(y) && Enabled(y, op)
  {
    if IsSemaphoreOp(op) then
      var r := OnSemaphore(y.k, y.semaphores[op.s], op); y.(k := r.0, semaphores := y.semaphores[op.s := r.1])
    else if IsMutexOp(op) then
      var r := OnMutex(y.k, y.mutexes[op.m], op); y.(k := r.0, mutexes := y.mutexes[op.m := r.1])
    else if IsQueueOp(op) then
      var r := OnQueue(y.k, y.queues[op.q], op); y.(k := r.0, queues := y.queues[op.q := r.1])
    else if IsGroupOp(op) then
      var r := OnGroup(y.k, y.groups[op.g], op); y.(k := r.0, groups := y.groups[op.g := r.1])
    else y.(k := ApplyKernel(y.k, op))
  }

  // ---------------------------------------------------------------- primitives side by side

  ghost predicate OwnersAlive(y: Sys, k': Kernel) {
    forall i {:trigger i in y.mutexes} :: i in y.mutexes && y.mutexes[i].owner.Some? ==>
      y.mutexes[i].owner.value in k'.tasks
  }

  lemma OwnersStay(y: Sys, k': Kernel)
    requires SysInv(y) && y.k.tasks.Keys <= k'.tasks.Keys
    ensures OwnersAlive(y, k')
  {
  }

  /** A step that touches only the lists in `own` keeps all other primitives in order. */
  lemma SemaphoresApart(y: Sys, k': Kernel, own: set<ListId>)
    requires SysInv(y) && Frame(y.k, k', own)
    ensures forall i {:trigger i in y.semaphores} :: i in y.semaphores && SemaphoreWaiters(i) !in own ==>
      S.SemaphoreInv(k', y.semaphores[i], SemaphoreWaiters(i))
  {
    forall i | i in y.semaphores && SemaphoreWaiters(i) !in own
      ensures S.SemaphoreInv(k', y.semaphores[i], SemaphoreWaiters(i))
    {
      S.OthersKeep(y.k, k', own, y.semaphores[i], SemaphoreWaiters(i));
    }
  }

  lemma MutexesApart(y: Sys, k': Kernel, own: set<ListId>)
    requires SysInv(y) && Frame(y.k, k', own) && OwnersAlive(y, k')
    ensures forall i {:trigger i in y.mutexes} :: i in y.mutexes && MutexWaiters(i) !in own ==>
      M.MutexInv(k', y.mutexes[i], MutexWaiters(i))
  {
    forall i | i in y.mutexes && MutexWaiters(i) !in own ensures M.MutexInv(k', y.mutexes[i], MutexWaiters(i)) {
      M.OthersKeep(y.k, k', own, y.mutexes[i], MutexWaiters(i));
    }
  }

  lemma QueuesApart(y: Sys, k': Kernel, own: set<ListId>)
    requires SysInv(y) && Frame(y.k, k', own)
    ensures forall i {:trigger i in y.queues} :: i in y.queues && Receivers(i) !in own && Senders(i) !in own ==>
      Q.QueueInv(k', y.queues[i], Receivers(i), Senders(i))
  {
    forall i | i in y.queues && Receivers(i) !in own && Senders(i) !in own
      ensures Q.QueueInv(k', y.queues[i], Receivers(i), Senders(i))
    {
      QP.OthersKeep(y.k, k', own, y.queues[i], Receivers(i), Senders(i));
    }
  }

  lemma GroupsApart(y: Sys, k': Kernel, own: set<ListId>)
    requires SysInv(y) && Frame(y.k, k', own)
    ensures forall i {:trigger i in y.groups} :: i in y.groups && GroupWaiters(i) !in own ==>
      E.GroupInv(k', y.groups[i], GroupWaiters(i))
  {
    forall i | i in y.groups && GroupWaiters(i) !in own ensures E.GroupInv(k', y.groups[i], GroupWaiters(i)) {
      E.OthersKeep(y.k, k', own, y.groups[i], GroupWaiters(i));
    }
  }

  lemma SemaphoreReplaced(k: Kernel, ss: map<nat, S.Semaphore>, j: nat, s': S.Semaphore)
    requires forall i {:trigger i in ss} :: i in ss && i != j ==> S.SemaphoreInv(k, ss[i], SemaphoreWaiters(i))
    requires S.SemaphoreInv(k, s', SemaphoreWaiters(j))
    ensures SemaphoresInv(k, ss[j := s'])
  {
  }

  lemma MutexReplaced(k: Kernel, ms: map<nat, M.Mutex>, j: nat, m': M.Mutex)
    requires forall i {:trigger i in ms} :: i in ms && i != j ==> M.MutexInv(k, ms[i], MutexWaiters(i))
    requires M.MutexInv(k, m', MutexWaiters(j))
    ensures MutexesInv(k, ms[j := m'])
  {
  }

  lemma QueueReplaced(k: Kernel, qs: map<nat, Q.Queue>, j: nat, q': Q.Queue)
    requires forall i {:trigger i in qs} :: i in qs && i != j ==> Q.QueueInv(k, qs[i], Receivers(i), Senders(i))
    requires Q.QueueInv(k, q', Receivers(j), Senders(j))
    ensures QueuesInv(k, qs[j := q'])
  {
  }

  lemma GroupReplaced(k: Kernel, gs: map<nat, E.Group>, j: nat, g': E.Group)
    requires forall i {:trigger i in gs} :: i in gs && i != j ==> E.GroupInv(k, gs[i], GroupWaiters(i))
    requires E.GroupInv(k, g', GroupWaiters(j))
    ensures GroupsInv(k, gs[j := g'])
  {
  }

  lemma NothingOwned(y: Sys, k': Kernel)
    requires SysInv(y) && Inv(k') && Frame(y.k, k', {}) && OwnersAlive(y, k')
    ensures SysInv(y.(k := k'))
  {
    hide Inv, Frame, OwnersAlive, S.SemaphoreInv, M.MutexInv, Q.QueueInv, E.GroupInv;
    SemaphoresApart(y, k', {});
    MutexesApart(y, k', {});
    QueuesApart(y, k', {});
    GroupsApart(y, k', {});
  }

  lemma SemaphoreOwned(y: Sys, k': Kernel, j: nat, s': S.Semaphore)
    requires SysInv(y) && Inv(k') && Frame(y.k, k', {SemaphoreWaiters(j)}) && OwnersAlive(y, k')
    requires S.SemaphoreInv(k', s', SemaphoreWaiters(j))
    ensures SysInv(y.(k := k', semaphores := y.semaphores[j := s']))
  {
    hide Inv, Frame, OwnersAlive, S.SemaphoreInv, M.MutexInv, Q.QueueInv, E.GroupInv;
    SemaphoresApart(y, k', {SemaphoreWaiters(j)});
    MutexesApart(y, k', {SemaphoreWaiters(j)});
    QueuesApart(y, k', {SemaphoreWaiters(j)});
    GroupsApart(y, k', {SemaphoreWaiters(j)});
    SemaphoreReplaced(k', y.semaphores, j, s');
  }

  lemma MutexOwned(y: Sys, k': Kernel, j: nat, m': M.Mutex)
    requires SysInv(y) && Inv(k') && Frame(y.k, k', {MutexWaiters(j)}) && OwnersAlive(y, k')
    requires M.MutexInv(k', m', MutexWaiters(j))
    ensures SysInv(y.(k := k', mutexes := y.mutexes[j := m']))
  {
    hide Inv, Frame, OwnersAlive, S.SemaphoreInv, M.MutexInv, Q.QueueInv, E.GroupInv;
    SemaphoresApart(y, k', {MutexWaiters(j)});
    MutexesApart(y, k', {MutexWaiters(j)});
    QueuesApart(y, k', {MutexWaiters(j)});
    GroupsApart(y, k', {MutexWaiters(j)});
    MutexReplaced(k', y.mutexes, j, m');
  }

  lemma QueueOwned(y: Sys, k': Kernel, j: nat, q': Q.Queue)
    requires SysInv(y) && Inv(k') && Frame(y.k, k', {Receivers(j), Senders(j)}) && OwnersAlive(y, k')
    requires Q.QueueInv(k', q', Receivers(j), Senders(j))
    ensures SysInv(y.(k := k', queues := y.queues[j := q']))
  {
    hide Inv, Frame, OwnersAlive, S.SemaphoreInv, M.MutexInv, Q.QueueInv, E.GroupInv;
    SemaphoresApart(y, k', {Receivers(j), Senders(j)});
    MutexesApart(y, k', {Receivers(j), Senders(j)});
    QueuesApart(y, k', {Receivers(j), Senders(j)});
    GroupsApart(y, k', {Receivers(j), Senders(j)});
    QueueReplaced(k', y.queues, j, q');
  }

  lemma GroupOwned(y: Sys, k': Kernel, j: nat, g': E.Group)
    requires SysInv(y) && Inv(k') && Frame(y.k, k', {GroupWaiters(j)}) && OwnersAlive(y, k')
    requires E.GroupInv(k', g', GroupWaiters(j))
    ensures SysInv(y.(k := k', groups := y.groups[j := g']))
  {
    hide Inv, Frame, OwnersAlive, S.SemaphoreInv, M.MutexInv, Q.QueueInv, E.GroupInv;
    SemaphoresApart(y, k', {GroupWaiters(j)});
    MutexesApart(y, k', {GroupWaiters(j)});
    QueuesApart(y, k', {GroupWaiters(j)});
    GroupsApart(y, k', {GroupWaiters(j)});
    GroupReplaced(k', y.groups, j, g');
  }

  /** A timeout may take a waiter out of the list of any primitive; all of them stay in order. */
  lemma TimeoutKeepsSys(y: Sys, n: NodeId)
    requires SysInv(y) && Waiting(y.k, n) && y.k.nodes[n].timed
    ensures SysInv(y.(k := Wake(y.k, n, true)))
  {
    WakeKeepsInv(y.k, n, true);
    forall i | i in y.semaphores ensures S.SemaphoreInv(Wake(y.k, n, true), y.semaphores[i], SemaphoreWaiters(i)) {
      S.TimeoutKeeps(y.k, n, y.semaphores[i], SemaphoreWaiters(i));
    }
    forall i | i in y.mutexes ensures M.MutexInv(Wake(y.k, n, true), y.mutexes[i], MutexWaiters(i)) {
      M.TimeoutKeeps(y.k, n, y.mutexes[i], MutexWaiters(i));
    }
    forall i | i in y.queues ensures Q.QueueInv(Wake(y.k, n, true), y.queues[i], Receivers(i), Senders(i)) {
      QP.TimeoutKeeps(y.k, n, y.queues[i], Receivers(i), Senders(i));
    }
    forall i | i in y.groups ensures E.GroupInv(Wake(y.k, n, true), y.groups[i], GroupWaiters(i)) {
      E.TimeoutKeeps(y.k, n, y.groups[i], GroupWaiters(i));
    }
  }

  lemma {:induction false} TimeoutsKeepSys(y: Sys, ns: seq<NodeId>)
    requires SysInv(y) && AllWaiting(y.k, ns) && AllTimed(y.k, ns)
    ensures SysInv(y.(k := WakeAll(y.k, ns, true)))
    decreases |ns|
  {
    if ns != [] {
      RestWaiting(y.k, ns, true);
      TimeoutKeepsSys(y, ns[0]);
      TimeoutsKeepSys(y.(k := Wake(y.k, ns[0], true)), ns[1..]);
    }
  }

  // ---------------------------------------------------------------- every step keeps the invariant

  /** The task that an operation may stop: the caller of a blocking one. */
  function Stopping(op: Op, k: Kernel): Option<TaskId> {
    if Blocking(op) then k.current else None
  }

  function Length(timeout: Option<Tick>): nat {
    if timeout.Some? then timeout.value else 0
  }

  /** The timeout that the step arms, if any. */
  function TimeoutOf(op: Op): nat {
    match op
    case SleepFor(ticks) => ticks
    case Acquire(_, timeout) => Length(timeout)
    case Send(_, _, timeout) => Length(timeout)
    case Receive(_, timeout) => Length(timeout)
    case Wait(_, _, _, _, timeout) => Length(timeout)
    case _ => 0
  }

  /** Its timeout is one that the wrapping clock can tell from the past. */
  predicate ShortOp(op: Op) {
    TimeoutOf(op) <= MAX_TIMEOUT
  }

  ghost function Own(op: Op): set<ListId> {
    match op
    case Acquire(i, _) => {SemaphoreWaiters(i)}
    case TryAcquire(i) => {SemaphoreWaiters(i)}
    case Release(i) => {SemaphoreWaiters(i)}
    case Lock(i) => {MutexWaiters(i)}
    case TryLock(i) => {MutexWaiters(i)}
    case Unlock(i) => {MutexWaiters(i)}
    case Send(i, _, _) => {Receivers(i), Senders(i)}
    case TrySend(i, _) => {Receivers(i), Senders(i)}
    case Receive(i, _) => {Receivers(i), Senders(i)}
    case TryReceive(i) => {Receivers(i), Senders(i)}
    case Wait(i, _, _, _, _) => {GroupWaiters(i)}
    case Sync(i, _, _) => {GroupWaiters(i)}
    case SetBits(i, _) => {GroupWaiters(i)}
    case ClearBits(i, _) => {GroupWaiters(i)}
    case _ => {}
  }

  lemma SemaphoreOpKeeps(k: Kernel, s: S.Semaphore, op: Op)
    requires Inv(k) && IsSemaphoreOp(op) && (TaskOnly(op) ==> InTask(k))
    requires S.SemaphoreInv(k, s, SemaphoreWaiters(op.s))
    ensures var (k', s') := OnSemaphore(k, s, op);
            S.SemaphoreInv(k', s', SemaphoreWaiters(op.s)) && Evolves(k, k', Own(op), Stopping(op, k), ShortOp(op))
  {
    hide Inv, InTask, Evolves, S.SemaphoreInv, S.Acquire, S.TryAcquire, S.Release;
    match op
    case Acquire(i, timeout) => S.AcquireKeeps(k, s, SemaphoreWaiters(i), timeout);
    case TryAcquire(i) => S.TryAcquireKeeps(k, s, SemaphoreWaiters(i));
    case Release(i) => S.ReleaseKeeps(k, s, SemaphoreWaiters(i));
  }

  lemma LockOpKeeps(k: Kernel, m: M.Mutex, op: Op)
    requires Inv(k) && op.Lock? && InTask(k) && M.MutexInv(k, m, MutexWaiters(op.m))
    requires m.owner != k.current
    ensures var (k', m') := OnMutex(k, m, op);
            M.MutexInv(k', m', MutexWaiters(op.m)) && Evolves(k, k', Own(op), Stopping(op, k), ShortOp(op))
  {
    hide Inv, InTask, Evolves, M.MutexInv, M.Lock;
    M.LockKeeps(k, m, MutexWaiters(op.m));
  }

  lemma TryLockOpKeeps(k: Kernel, m: M.Mutex, op: Op)
    requires Inv(k) && op.TryLock? && InTask(k) && M.MutexInv(k, m, MutexWaiters(op.m))
    ensures var (k', m') := OnMutex(k, m, op);
            M.MutexInv(k', m', MutexWaiters(op.m)) && Evolves(k, k', Own(op), Stopping(op, k), ShortOp(op))
  {
    hide Inv, InTask, Evolves, M.MutexInv, M.TryLock;
    M.TryLockKeeps(k, m, MutexWaiters(op.m));
  }

  lemma UnlockOpKeeps(k: Kernel, m: M.Mutex, op: Op)
    requires Inv(k) && op.Unlock? && InTask(k) && M.MutexInv(k, m, MutexWaiters(op.m))
    requires m.owner == k.current
    ensures var (k', m') := OnMutex(k, m, op);
            M.MutexInv(k', m', MutexWaiters(op.m)) && Evolves(k, k', Own(op), Stopping(op, k), ShortOp(op))
  {
    hide Inv, Evolves, M.MutexInv, M.Unlock;
    var l := MutexWaiters(op.m);
    assert OnMutex(k, m, op) == M.Unlock(k, m, l) && Own(op) == {l} && Stopping(op, k) == None;
    M.UnlockKeeps(k, m, l);
  }

  lemma MutexOpKeeps(k: Kernel, m: M.Mutex, op: Op)
    requires Inv(k) && IsMutexOp(op) && InTask(k) && M.MutexInv(k, m, MutexWaiters(op.m))
    requires (op.Lock? ==> m.owner != k.current) && (op.Unlock? ==> m.owner == k.current)
    ensures var (k', m') := OnMutex(k, m, op);
            M.MutexInv(k', m', MutexWaiters(op.m)) && Evolves(k, k', Own(op), Stopping(op, k), ShortOp(op))
  {
    match op
    case Lock(i) => LockOpKeeps(k, m, op);
    case TryLock(i) => TryLockOpKeeps(k, m, op);
    case Unlock(i) => UnlockOpKeeps(k, m, op);
  }

  lemma QueueOpKeeps(k: Kernel, q: Q.Queue, op: Op)
    requires Inv(k) && IsQueueOp(op) && (TaskOnly(op) ==> InTask(k))
    requires Q.QueueInv(k, q, Receivers(op.q), Senders(op.q))
    ensures var (k', q') := OnQueue(k, q, op);
            && Q.QueueInv(k', q', Receivers(op.q), Senders(op.q))
            && Evolves(k, k', Own(op), Stopping(op, k), ShortOp(op))
  {
    hide Inv, InTask, Evolves, Q.QueueInv, Q.Send, Q.TrySend, Q.Receive, Q.TryReceive;
    if op.Receive? || op.TryReceive? {
      TakeOpKeeps(k, q, op);
    } else {
      match op
      case Send(i, v, timeout) => QP.SendKeeps(k, q, Receivers(i), Senders(i), v, timeout);
      case TrySend(i, v) => QP.TrySendKeeps(k, q, Receivers(i), Senders(i), v);
    }
  }

  lemma TakeOpKeeps(k: Kernel, q: Q.Queue, op: Op)
    requires Inv(k) && (op.Receive? || op.TryReceive?) && (TaskOnly(op) ==> InTask(k))
    requires Q.QueueInv(k, q, Receivers(op.q), Senders(op.q))
    ensures var (k', q') := OnQueue(k, q, op);
            && Q.QueueInv(k', q', Receivers(op.q), Senders(op.q))
            && Evolves(k, k', Own(op), Stopping(op, k), ShortOp(op))
  {
    hide Inv, InTask, Evolves, Q.QueueInv, Q.Receive, Q.TryReceive;
    match op
    case Receive(i, timeout) => QP.ReceiveKeeps(k, q, Receivers(i), Senders(i), timeout);
    case TryReceive(i) => QP.TryReceiveKeeps(k, q, Receivers(i), Senders(i));
  }

  lemma GroupOpKeeps(k: Kernel, g: E.Group, op: Op)
    requires Inv(k) && IsGroupOp(op) && (TaskOnly(op) ==> InTask(k)) && E.GroupInv(k, g, GroupWaiters(op.g))
    ensures var (k', g') := OnGroup(k, g, op);
            E.GroupInv(k', g', GroupWaiters(op.g)) && Evolves(k, k', Own(op), Stopping(op, k), ShortOp(op))
  {
    hide Inv, InTask, Evolves, E.GroupInv, E.Wait, E.Sync, E.Set, E.Clear;
    if op.Wait? || op.Sync? {
      WaitOpKeeps(k, g, op);
    } else {
      match op
      case SetBits(i, bits) => E.SetKeeps(k, g, GroupWaiters(i), bits);
      case ClearBits(i, bits) => E.ClearKeeps(k, g, GroupWaiters(i), bits);
    }
  }

  lemma WaitOpKeeps(k: Kernel, g: E.Group, op: Op)
    requires Inv(k) && (op.Wait? || op.Sync?) && InTask(k) && E.GroupInv(k, g, GroupWaiters(op.g))
    ensures var (k', g') := OnGroup(k, g, op);
            E.GroupInv(k', g', GroupWaiters(op.g)) && Evolves(k, k', Own(op), Stopping(op, k), ShortOp(op))
  {
    hide Inv, InTask, Evolves, E.GroupInv, E.Wait, E.Sync;
    match op
    case Wait(i, want, all, clear, timeout) => E.WaitKeeps(k, g, GroupWaiters(i), want, all, clear, timeout);
    case Sync(i, bits, want) => E.SyncKeeps(k, g, GroupWaiters(i), bits, want);
  }

  lemma SemaphoreStep(y: Sys, op: Op)
    requires SysInv(y) && Enabled(y, op) && IsSemaphoreOp(op)
    ensures SysInv(Apply(y, op))
    ensures Evolves(y.k, Apply(y, op).k, Own(op), Stopping(op, y.k), ShortOp(op))
  {
    hide Inv, InTask, Frame, Sched, S.SemaphoreInv, OnSemaphore;
    SemaphoreOpKeeps(y.k, y.semaphores[op.s], op);
    var (k', s') := OnSemaphore(y.k, y.semaphores[op.s], op);
    OwnersStay(y, k');
    SemaphoreOwned(y, k', op.s, s');
  }

  lemma MutexStep(y: Sys, op: Op)
    requires SysInv(y) && Enabled(y, op) && IsMutexOp(op)
    ensures SysInv(Apply(y, op))
    ensures Evolves(y.k, Apply(y, op).k, Own(op), Stopping(op, y.k), ShortOp(op))
  {
    MutexOpKeeps(y.k, y.mutexes[op.m], op);
    var (k', m') := OnMutex(y.k, y.mutexes[op.m], op);
    OwnersStay(y, k');
    MutexOwned(y, k', op.m, m');
  }

  lemma QueueStep(y: Sys, op: Op)
    requires SysInv(y) && Enabled(y, op) && IsQueueOp(op)
    ensures SysInv(Apply(y, op))
    ensures Evolves(y.k, Apply(y, op).k, Own(op), Stopping(op, y.k), ShortOp(op))
  {
    hide Inv, InTask, Frame, Sched, Q.QueueInv, OnQueue;
    QueueOpKeeps(y.k, y.queues[op.q], op);
    var (k', q') := OnQueue(y.k, y.queues[op.q], op);
    OwnersStay(y, k');
    QueueOwned(y, k', op.q, q');
  }

  lemma GroupStep(y: Sys, op: Op)
    requires SysInv(y) && Enabled(y, op) && IsGroupOp(op)
    ensures SysInv(Apply(y, op))
    ensures Evolves(y.k, Apply(y, op).k, Own(op), Stopping(op, y.k), ShortOp(op))
  {
    hide Inv, InTask, Frame, Sched, E.GroupInv, OnGroup;
    GroupOpKeeps(y.k, y.groups[op.g], op);
    var (k', g') := OnGroup(y.k, y.groups[op.g], op);
    OwnersStay(y, k');
    GroupOwned(y, k', op.g, g');
  }

  /** A call of a primitive keeps the whole system in order. */
  lemma PrimitiveStep(y: Sys, op: Op)
    requires SysInv(y) && Enabled(y, op) && IsPrimitiveOp(op)
    ensures SysInv(Apply(y, op))
    ensures Evolves(y.k, Apply(y, op).k, Own(op), Stopping(op, y.k), ShortOp(op))
  {
    if IsSemaphoreOp(op) { SemaphoreStep(y, op); }
    else if IsMutexOp(op) { MutexStep(y, op); }
    else if IsQueueOp(op) { QueueStep(y, op); }
    else { GroupStep(y, op); }
  }

  lemma SleepKeeps(k: Kernel, ticks: Tick)
    requires Inv(k) && InTask(k)
    ensures Evolves(k, Sleep(k, ticks), {}, k.current, ticks <= MAX_TIMEOUT)
  {
    if ticks == 0 {
      EvolveRefl(k);
      EvolveWiden(k, k, {}, None, true, {}, k.current, ticks <= MAX_TIMEOUT);
    } else {
      BlockKeepsInv(k, None, NoPayload, Some(ticks));
      BlockFrame(k, None, NoPayload, Some(ticks));
      BlockEffect(k, None, NoPayload, Some(ticks));
      if TimeInv(k) && ticks <= MAX_TIMEOUT { BlockKeepsTime(k, None, NoPayload, Some(ticks)); }
    }
  }

  lemma DispatchEvolves(k: Kernel, limit: nat)
    requires Inv(k) && limit <= |k.ready|
    ensures forall p :: 0 <= p < |k.ready| && k.ready[p] != [] ==> k.ready[p][0] in k.tasks
    ensures Inv(Dispatch(k, limit)) && Frame(k, Dispatch(k, limit), {})
    ensures Dispatch(k, limit).tasks.Keys == k.tasks.Keys
    ensures Dispatch(k, limit).nodes == k.nodes && Dispatch(k, limit).delay == k.delay
    ensures Dispatch(k, limit).tick == k.tick && Dispatch(k, limit).clock == k.clock
  {
    HeadsAreTasks(k);
    if Urgent(k.ready, limit) < limit {
      DispatchKeepsInv(k, limit);
      DispatchEffect(k, limit);
    }
  }

  lemma RegistersKeep(k: Kernel, current: Option<TaskId>, runningPrio: nat, pending: bool)
    requires Inv(k)
    ensures var k' := k.(current := current, runningPrio := runningPrio, pendingPreempt := pending);
            Inv(k') && Frame(k, k', {})
  {
    var k' := k.(current := current, runningPrio := runningPrio, pendingPreempt := pending);
    forall q, i | 0 <= q < |k'.ready| && 0 <= i < |k'.ready[q]| ensures ReadyAt(k', k'.ready[q][i], q) {
      assert ReadyAt(k, k.ready[q][i], q);
    }
    TasksGrow(k, k');
  }

  lemma TickKeepsSys(y: Sys)
    requires SysInv(y)
    ensures SysInv(y.(k := TickIsr(y.k)))
  {
    AdvanceKeepsInv(y.k);
    OwnersStay(y, Advance(y.k));
    NothingOwned(y, Advance(y.k));
    TimeoutsKeepSys(y.(k := Advance(y.k)), DueNodes(y.k));
  }

  lemma KernelOpKeeps(y: Sys, op: Op)
    requires SysInv(y) && Enabled(y, op) && !IsPrimitiveOp(op) && !op.TimerTick?
    ensures var k' := ApplyKernel(y.k, op); Inv(k') && Frame(y.k, k', {}) && OwnersAlive(y, k')
  {
    match op {
      case StartTask(priority) => StartKeepsInv(y.k, priority);
      case YieldTask => YieldKeepsInv(y.k);
      case SleepFor(ticks) => SleepKeeps(y.k, ticks);
      case FinishTask => FinishKeepsInv(y.k); FinisherOwnsNothing(y);
      case DispatchTask(limit) => DispatchEvolves(y.k, limit);
      case Registers(c, p, b) => RegistersKeep(y.k, c, p, b);
    }
  }

  lemma KernelStep(y: Sys, op: Op)
    requires SysInv(y) && Enabled(y, op) && !IsPrimitiveOp(op)
    ensures SysInv(Apply(y, op))
  {
    if op.TimerTick? {
      TickKeepsSys(y);
    } else {
      KernelOpKeeps(y, op);
      NothingOwned(y, ApplyKernel(y.k, op));
    }
  }

  lemma FinisherOwnsNothing(y: Sys)
    requires SysInv(y) && Enabled(y, FinishTask)
    ensures OwnersAlive(y, Finish(y.k))
  {
  }

  /** Every step of the system keeps its invariant. */
  lemma StepKeeps(y: Sys, op: Op)
    requires SysInv(y) && Enabled(y, op)
    ensures SysInv(Apply(y, op))
  {
    if IsPrimitiveOp(op) { PrimitiveStep(y, op); } else { KernelStep(y, op); }
  }

  ghost predicate SamePrimitives(y: Sys, y': Sys) {
    && y'.semaphores.Keys == y.semaphores.Keys && y'.mutexes.Keys == y.mutexes.Keys
    && y'.queues.Keys == y.queues.Keys && y'.groups.Keys == y.groups.Keys
  }

  lemma PrimitivesStay(y: Sys, op: Op)
    requires SysInv(y) && Enabled(y, op)
    ensures SamePrimitives(y, Apply(y, op))
  {
    hide SysInv, Inv, OnSemaphore, OnMutex, OnQueue, OnGroup, ApplyKernel, InTask;
  }

  // ---------------------------------------------------------------- what a step does to the scheduler

  /** Scheduling itself, as opposed to what tasks and interrupts ask for. */
  predicate IsControl(op: Op) {
    op.DispatchTask? || op.Registers?
  }

  lemma KernelSched(y: Sys, op: Op)
    requires SysInv(y) && Enabled(y, op) && !IsPrimitiveOp(op) && !IsControl(op)
    ensures Sched(y.k, ApplyKernel(y.k, op), Stopping(op, y.k)) && y.k.nextId <= ApplyKernel(y.k, op).nextId
  {
    match op {
      case StartTask(priority) => StartKeepsInv(y.k, priority);
      case YieldTask => YieldKeepsInv(y.k);
      case SleepFor(ticks) => SleepKeeps(y.k, ticks);
      case FinishTask => FinishKeepsInv(y.k);
      case TimerTick => TickEffect(y.k);
    }
  }

  /** What a critical section other than scheduling does to the scheduler. */
  lemma OpSched(y: Sys, op: Op)
    requires SysInv(y) && Enabled(y, op) && !IsControl(op)
    ensures Sched(y.k, Apply(y, op).k, Stopping(op, y.k)) && y.k.nextId <= Apply(y, op).k.nextId
  {
    if IsPrimitiveOp(op) { PrimitiveStep(y, op); } else { KernelSched(y, op); }
  }

  /** The tasks there are after an operation. */
  ghost function TasksAfter(k: Kernel, op: Op): set<TaskId> {
    if op.StartTask? then k.tasks.Keys + {k.nextId}
    else if op.FinishTask? && k.current.Some? then k.tasks.Keys - {k.current.value}
    else k.tasks.Keys
  }

  lemma OpTasks(y: Sys, op: Op)
    requires SysInv(y) && Enabled(y, op)
    ensures Apply(y, op).k.tasks.Keys == TasksAfter(y.k, op)
  {
    hide Inv, InTask, Frame, Sched, OnSemaphore, OnMutex, OnQueue, OnGroup, ApplyKernel;
    if IsPrimitiveOp(op) {
      hide Apply, Enabled;
      PrimitiveStep(y, op);
    } else {
      KernelTasks(y, op);
    }
  }

  lemma KernelTasks(y: Sys, op: Op)
    requires SysInv(y) && Enabled(y, op) && !IsPrimitiveOp(op)
    ensures ApplyKernel(y.k, op).tasks.Keys == TasksAfter(y.k, op)
  {
    hide Frame, Sched, ListsInv, BlockedInv, NodesInv;
    match op {
      case StartTask(priority) => StartEffect(y.k, priority);
      case YieldTask => YieldEffect(y.k);
      case SleepFor(ticks) => SleepKeeps(y.k, ticks);
      case FinishTask =>
      case TimerTick => TickEffect(y.k);
      case DispatchTask(limit) => DispatchEvolves(y.k, limit);
      case Registers(_, _, _) =>
    }
  }

  lemma WidenSelf(k: Kernel, k': Kernel, self: Option<TaskId>)
    requires Sched(k, k', self) && (self == None || self == k.current)
    ensures Sched(k, k', k.current)
  {
  }
}
