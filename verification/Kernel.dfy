/** The shared state of the kernel (include/rtos/kernel.hpp) and the effect of each of its
    critical sections as a function from state to state. */
module Kernel {
  import opened Sequences
  import opened Time

  /** `running_prio` while the scheduler idles. */
  const NO_RUNNING_TASK: nat := 0xFF

  /** The element type of queues; nothing is known about it. */
  type Value(==, !new, 0)

  type TaskId = nat
  type NodeId = nat

  /** The wait lists that exist in a system: those of its primitives. */
  datatype ListId =
    | Receivers(queue: nat)
    | Senders(queue: nat)
    | SemaphoreWaiters(semaphore: nat)
    | MutexWaiters(mutex: nat)
    | GroupWaiters(group: nat)

  datatype RunState = Created | Ready | Running | Blocked

  /** `awaiting` is the node of the awaiter the task is, or was last, suspended at. */
  datatype Task = Task(prio: nat, state: RunState, awaiting: NodeId)

  /** What `WaitNode::payload` points at. */
  datatype Payload =
    | NoPayload
    | Slot(received: Option<Value>)
    | Offer(offered: Value)
    | Condition(want: bv32, all: bool, clear: bool, result: bv32)

  /** One block episode. `home` is the wait list it was put on, `timed` whether it has a
      deadline. `due` (the deadline on the unbounded clock) and `wakes` (how often the node
      was woken) record history; no operation reads them. */
  datatype WaitNode = WaitNode(
    task: TaskId,
    home: Option<ListId>,
    timed: bool,
    deadline: Tick,
    timedOut: bool,
    payload: Payload,
    due: nat,
    wakes: nat)

  /** `clock` counts all ticks ever, `tick` is what the code sees of it. `nextId` is the
      address supply: every task, node and request gets the next one. */
  datatype Kernel = Kernel(
    tasks: map<TaskId, Task>,
    nodes: map<NodeId, WaitNode>,
    nextId: nat,
    ready: seq<seq<TaskId>>,
    delay: seq<NodeId>,
    waits: map<ListId, seq<NodeId>>,
    current: Option<TaskId>,
    runningPrio: nat,
    tick: Tick,
    clock: nat,
    preemptive: bool,
    pendingPreempt: bool)

  function Listed(k: Kernel, l: ListId): seq<NodeId> {
    if l in k.waits then k.waits[l] else []
  }

  // ---------------------------------------------------------------- operations

  function MakeReady(k: Kernel, t: TaskId): Kernel
    requires t in k.tasks && k.tasks[t].prio < |k.ready|
  {
    var task := k.tasks[t];
    if task.state == Ready then k
    else k.(
      tasks := k.tasks[t := task.(state := Ready)],
      ready := k.ready[task.prio := k.ready[task.prio] + [t]],
      pendingPreempt := k.pendingPreempt ||
        (k.preemptive && k.runningPrio != NO_RUNNING_TASK && task.prio < k.runningPrio))
  }

  /** Where a deadline belongs in the delay list: before the first one that is later. */
  function DelayPosition(nodes: map<NodeId, WaitNode>, delay: seq<NodeId>, deadline: Tick): (i: nat)
    requires forall n :: n in delay ==> n in nodes
    ensures i <= |delay|
  {
    if delay == [] || !DeadlineLe(nodes[delay[0]].deadline, deadline) then 0
    else 1 + DelayPosition(nodes, delay[1..], deadline)
  }

  function DelayInsert(nodes: map<NodeId, WaitNode>, delay: seq<NodeId>, n: NodeId, deadline: Tick): seq<NodeId>
    requires forall m :: m in delay ==> m in nodes
  {
    InsertAt(delay, DelayPosition(nodes, delay, deadline), n)
  }

  /** The node of the episode that starts when the current task blocks now. */
  function Episode(k: Kernel, t: TaskId, home: Option<ListId>, payload: Payload, timeout: Option<Tick>): WaitNode {
    if timeout.Some?
    then WaitNode(t, home, true, Wrap(k.tick + timeout.value), false, payload, k.clock + timeout.value, 0)
    else WaitNode(t, home, false, 0, false, payload, 0, 0)
  }

  /** The current task blocks at a new awaiter: on a wait list, with a timeout, or both. */
  function Block(k: Kernel, home: Option<ListId>, payload: Payload, timeout: Option<Tick>): Kernel
    requires k.current.Some? && k.current.value in k.tasks
    requires forall m :: m in k.delay ==> m in k.nodes
  {
    var t := k.current.value;
    var n := k.nextId;
    k.(
      tasks := k.tasks[t := k.tasks[t].(state := Blocked, awaiting := n)],
      nodes := k.nodes[n := Episode(k, t, home, payload, timeout)],
      nextId := n + 1,
      waits := if home.Some? then k.waits[home.value := Listed(k, home.value) + [n]] else k.waits,
      delay := if timeout.Some? then DelayInsert(k.nodes, k.delay, n, Wrap(k.tick + timeout.value)) else k.delay)
  }

  /** Unlinking takes the node off whatever lists hold it. */
  function Unlink(k: Kernel, n: NodeId): Kernel {
    k.(waits := map l | l in k.waits :: Remove(k.waits[l], n), delay := Remove(k.delay, n))
  }

  function Wake(k: Kernel, n: NodeId, timedOut: bool): Kernel
    requires n in k.nodes && k.nodes[n].task in k.tasks && k.tasks[k.nodes[n].task].prio < |k.ready|
  {
    var node := k.nodes[n];
    MakeReady(Unlink(k, n).(nodes := k.nodes[n := node.(timedOut := timedOut, wakes := node.wakes + 1)]),
              node.task)
  }

  /** Writing through a waiter's payload pointer. */
  function Deliver(k: Kernel, n: NodeId, payload: Payload): Kernel
    requires n in k.nodes
  {
    k.(nodes := k.nodes[n := k.nodes[n].(payload := payload)])
  }

  function Start(k: Kernel, priority: nat): Kernel
    requires |k.ready| > 0
  {
    var prio := if priority < |k.ready| then priority else |k.ready| - 1;
    MakeReady(k.(tasks := k.tasks[k.nextId := Task(prio, Created, 0)], nextId := k.nextId + 1), k.nextId)
  }

  function Yield(k: Kernel): Kernel
    requires k.current.Some? && k.current.value in k.tasks && k.tasks[k.current.value].prio < |k.ready|
  {
    MakeReady(k, k.current.value)
  }

  /** The body of the current task returns: its frame, promise included, is destroyed. */
  function Finish(k: Kernel): Kernel
    requires k.current.Some?
  {
    k.(tasks := k.tasks - {k.current.value})
  }

  /** The most urgent priority below `limit` with a ready task, or `limit` if there is none. */
  function Urgent(ready: seq<seq<TaskId>>, limit: nat): (p: nat)
    requires limit <= |ready|
    ensures p <= limit
    ensures forall q :: 0 <= q < p ==> ready[q] == []
    ensures p < limit ==> ready[p] != []
  {
    if limit == 0 then 0
    else
      var p := Urgent(ready, limit - 1);
      if p < limit - 1 then p else if ready[limit - 1] != [] then limit - 1 else limit
  }

  /** The critical section of `run_one` and of the preemption handler: take the most urgent
      ready task above `limit` and make it the running one. Nothing happens without one. */
  function Dispatch(k: Kernel, limit: nat): Kernel
    requires limit <= |k.ready|
    requires forall p :: 0 <= p < |k.ready| && k.ready[p] != [] ==> k.ready[p][0] in k.tasks
  {
    var p := Urgent(k.ready, limit);
    if p == limit then k
    else
      var t := k.ready[p][0];
      k.(ready := k.ready[p := k.ready[p][1..]],
         tasks := k.tasks[t := k.tasks[t].(state := Running)],
         current := Some(t),
         runningPrio := k.tasks[t].prio)
  }

  // ---------------------------------------------------------------- invariant

  ghost predicate ReadyAt(k: Kernel, t: TaskId, p: nat) {
    t in k.tasks && k.tasks[t].state == Ready && k.tasks[t].prio == p
  }

  /** A Ready task is on the list of its own priority, exactly once, and on no other. */
  ghost predicate ReadyInv(k: Kernel) {
    && 0 < |k.ready| <= NO_RUNNING_TASK
    && (forall p, i :: 0 <= p < |k.ready| && 0 <= i < |k.ready[p]| ==> ReadyAt(k, k.ready[p][i], p))
    && (forall p :: 0 <= p < |k.ready| ==> NoDup(k.ready[p]))
    && (forall t {:trigger t in k.tasks} :: t in k.tasks ==>
          && t < k.nextId
          && k.tasks[t].prio < |k.ready|
          && k.tasks[t].state != Created
          && (k.tasks[t].state == Ready ==> t in k.ready[k.tasks[t].prio]))
  }

  /** The task of the node is suspended at this very node. */
  ghost predicate Waiting(k: Kernel, n: NodeId) {
    && n in k.nodes
    && k.nodes[n].task in k.tasks
    && k.tasks[k.nodes[n].task].state == Blocked
    && k.tasks[k.nodes[n].task].awaiting == n
  }

  /** Only nodes of Blocked tasks are linked, on their home list and, if timed, the delay list. */
  ghost predicate ListsInv(k: Kernel) {
    && (forall l, n {:trigger n in k.waits[l]} :: l in k.waits && n in k.waits[l] ==>
          Waiting(k, n) && k.nodes[n].home == Some(l))
    && (forall l :: l in k.waits ==> NoDup(k.waits[l]))
    && (forall n {:trigger n in k.delay} :: n in k.delay ==> Waiting(k, n) && k.nodes[n].timed)
    && NoDup(k.delay)
  }

  ghost predicate Parked(k: Kernel, n: NodeId)
    requires n in k.nodes
  {
    var node := k.nodes[n];
    && (node.home.Some? || node.timed)
    && (node.home.Some? ==> node.home.value in k.waits && n in k.waits[node.home.value])
    && (node.timed ==> n in k.delay)
  }

  ghost predicate BlockedInv(k: Kernel) {
    forall t {:trigger t in k.tasks} :: t in k.tasks && k.tasks[t].state == Blocked ==>
      var n := k.tasks[t].awaiting;
      n in k.nodes && k.nodes[n].task == t && Parked(k, n)
  }

  /** A node is either still waited at or has been woken, exactly once. */
  ghost predicate NodesInv(k: Kernel) {
    forall n {:trigger n in k.nodes} :: n in k.nodes ==>
      && n < k.nextId
      && k.nodes[n].wakes <= 1
      && (k.nodes[n].wakes == 0 <==> Waiting(k, n))
      && (k.nodes[n].timedOut ==> k.nodes[n].timed && k.nodes[n].wakes == 1)
  }

  ghost predicate Inv(k: Kernel) {
    ReadyInv(k) && ListsInv(k) && BlockedInv(k) && NodesInv(k)
  }

  /** A task may call blocking operations only while it is the current, Running task. */
  ghost predicate InTask(k: Kernel) {
    k.current.Some? && k.current.value in k.tasks && k.tasks[k.current.value].state == Running
  }

  /** `sleep_for`: no ticks, no suspension. */
  function Sleep(k: Kernel, ticks: Tick): Kernel
    requires Inv(k) && InTask(k)
  {
    if ticks == 0 then k else Block(k, None, NoPayload, Some(ticks))
  }

  // ---------------------------------------------------------------- what a step may change

  /** Everything outside the lists in `own` that an operation other than a timeout leaves
      alone: other lists, their nodes, and every node already woken. */
  ghost predicate Frame(k: Kernel, k': Kernel, own: set<ListId>) {
    && k.nextId <= k'.nextId
    && (forall l {:trigger Listed(k', l)} :: l !in own ==> Listed(k', l) == Listed(k, l))
    && (forall n {:trigger n in k.nodes} {:trigger n in k'.nodes} :: n in k.nodes ==>
          && n in k'.nodes
          && k'.nodes[n].task == k.nodes[n].task
          && k'.nodes[n].home == k.nodes[n].home
          && k'.nodes[n].timedOut == k.nodes[n].timedOut
          && k'.nodes[n].timed == k.nodes[n].timed && k'.nodes[n].due == k.nodes[n].due
          && (k.nodes[n].wakes == 1 ==> k'.nodes[n] == k.nodes[n])
          && (k.nodes[n].home == None || k.nodes[n].home.value !in own ==> k'.nodes[n] == k.nodes[n]))
    && (forall n {:trigger n in k'.nodes} :: n in k'.nodes && n !in k.nodes ==>
          n >= k.nextId && !k'.nodes[n].timedOut && (k'.nodes[n].home.Some? ==> k'.nodes[n].home.value in own))
  }

  /** What a critical section run by, or on top of, the current task leaves alone in the
      scheduler. Only `self` may stop running; ready lists only grow at their ends; a task
      readied above the running one pends the handler. */
  ghost predicate Sched(k: Kernel, k': Kernel, self: Option<TaskId>) {
    && k'.current == k.current
    && k'.runningPrio == k.runningPrio
    && k'.preemptive == k.preemptive
    && |k'.ready| == |k.ready|
    && (forall p :: 0 <= p < |k.ready| ==> k.ready[p] <= k'.ready[p])
    && (k.pendingPreempt ==> k'.pendingPreempt)
    && (k'.pendingPreempt ==> k.pendingPreempt || (k.preemptive && k.runningPrio != NO_RUNNING_TASK))
    && (k.preemptive && k.runningPrio != NO_RUNNING_TASK ==>
          forall p :: 0 <= p < |k.ready| && p < k.runningPrio && k'.ready[p] != k.ready[p] ==> k'.pendingPreempt)
    && (forall t {:trigger t in k'.tasks} :: t in k.tasks && t in k'.tasks ==> k'.tasks[t].prio == k.tasks[t].prio)
    && (forall t {:trigger t in k.tasks} :: t in k.tasks && Some(t) != self ==>
          t in k'.tasks && (k.tasks[t].state == Running ==> k'.tasks[t].state == Running))
    && (forall t {:trigger t in k'.tasks} :: t in k'.tasks && k'.tasks[t].state == Running ==>
          t in k.tasks && k.tasks[t].state == Running)
  }
}
