/** The code of the kernel (include/rtos/kernel.hpp) over the state it updates in place. Every
    critical section is proved to be the step that module `Kernel` describes. */
module Scheduling {
  import opened Sequences
  import opened Time
  import opened Kernel
  import opened KernelProofs
  import opened Waking
  import opened Timer
  import opened Requests
  import Async

  lemma {:induction false} PositionFrame(nodes: map<NodeId, WaitNode>, nodes': map<NodeId, WaitNode>,
                                         delay: seq<NodeId>, deadline: Tick)
    requires forall n :: n in delay ==> n in nodes && n in nodes' && nodes'[n].deadline == nodes[n].deadline
    ensures DelayPosition(nodes', delay, deadline) == DelayPosition(nodes, delay, deadline)
  {
    if delay != [] {
      PositionFrame(nodes, nodes', delay[1..], deadline);
    }
  }

  lemma {:induction false} DueFrame(nodes: map<NodeId, WaitNode>, nodes': map<NodeId, WaitNode>, delay: seq<NodeId>,
                                    now: Tick)
    requires forall n :: n in delay ==> n in nodes && n in nodes' && nodes'[n].deadline == nodes[n].deadline
    ensures DueCount(nodes', delay, now) == DueCount(nodes, delay, now)
  {
    if delay != [] {
      DueFrame(nodes, nodes', delay[1..], now);
    }
  }

  /** The nodes that compare as due at the present tick. */
  ghost function DueNow(k: Kernel): (ns: seq<NodeId>)
    requires Inv(k)
    ensures AllWaiting(k, ns) && AllTimed(k, ns)
  {
    var ns := k.delay[..DueCount(k.nodes, k.delay, k.tick)];
    assert forall n :: n in ns ==> n in k.delay;
    ns
  }

  lemma TickStart(k: Kernel)
    requires Inv(k)
    ensures Inv(Advance(k)) && WakeAll(Advance(k), DueNow(Advance(k)), true) == TickIsr(k)
  {
    AdvanceKeepsInv(k);
    assert DueNow(Advance(k)) == DueNodes(k);
  }

  lemma TickEnd(k: Kernel)
    requires Inv(k)
    ensures k.delay != [] ==> k.delay[0] in k.nodes
    ensures k.delay == [] || !DeadlineLe(k.nodes[k.delay[0]].deadline, k.tick) ==> WakeAll(k, DueNow(k), true) == k
  {
    if k.delay != [] { assert k.delay[0] in k.delay; }
  }

  lemma BlockFacts(k: Kernel, home: Option<ListId>, timeout: Option<Tick>)
    requires CanBlock(k, home, timeout)
    ensures k.current.Some? && k.current.value in k.tasks
    ensures (forall m :: m in k.delay ==> m in k.nodes) && k.nextId !in k.nodes && k.nextId !in k.delay
  {
    FreshUnlinked(k);
  }

  lemma DueHead(k: Kernel)
    requires Inv(k) && k.delay != []
    ensures Waiting(k, k.delay[0]) && k.nodes[k.delay[0]].timed
    ensures forall m :: m in k.delay ==> m in k.nodes
  {
    assert k.delay[0] in k.delay;
  }

  lemma DueRest(k: Kernel)
    requires Inv(k) && k.delay != [] && k.delay[0] in k.nodes && DeadlineLe(k.nodes[k.delay[0]].deadline, k.tick)
    ensures DueNow(k) != [] && DueNow(k)[0] == k.delay[0] && Waiting(k, k.delay[0]) && k.nodes[k.delay[0]].timed
    ensures var k1 := Wake(k, k.delay[0], true);
            Inv(k1) && k1.delay == k.delay[1..] && DueNow(k1) == DueNow(k)[1..]
  {
    hide Inv;
    var n := k.delay[0];
    DueHead(k);
    DueWakes(k);
    WakeKeepsInv(k, n, true);
    var k1 := Wake(k, n, true);
    WakeEffect(k, n, true);
    assert Remove(k.delay, n) == k.delay[1..];
    forall m | m in k.delay[1..] ensures m in k.nodes && m in k1.nodes && k1.nodes[m].deadline == k.nodes[m].deadline {
      assert m in k.delay;
    }
    DueFrame(k.nodes, k1.nodes, k.delay[1..], k.tick);
  }

  /** Waking the first due node leaves the rest of the work as it was. */
  lemma DueStep(k: Kernel)
    requires Inv(k) && k.delay != [] && k.delay[0] in k.nodes && DeadlineLe(k.nodes[k.delay[0]].deadline, k.tick)
    ensures Waiting(k, k.delay[0]) && k.nodes[k.delay[0]].timed
    ensures var k1 := Wake(k, k.delay[0], true);
            Inv(k1) && |k1.delay| < |k.delay| && WakeAll(k, DueNow(k), true) == WakeAll(k1, DueNow(k1), true)
  {
    hide Inv, DueNow;
    DueRest(k);
    RestWaiting(k, DueNow(k), true);
  }

  lemma DueWakes(k: Kernel)
    requires Inv(k) && k.delay != [] && Waiting(k, k.delay[0])
    ensures var n := k.delay[0]; n in k.nodes && k.nodes[n].task in k.tasks && k.tasks[k.nodes[n].task].prio < |k.ready|
  {
  }

  /** The head of a wait list is a node that can be woken. */
  lemma FirstWaitsToWake(k: Kernel, l: ListId)
    requires Inv(k) && Listed(k, l) != []
    ensures var n := Listed(k, l)[0];
            && Waiting(k, n) && n in k.nodes
            && k.nodes[n].task in k.tasks && k.tasks[k.nodes[n].task].prio < |k.ready|
  {
    FirstWaits(k, l);
  }

  lemma UrgentFound(ready: seq<seq<TaskId>>, limit: nat, p: nat)
    requires p <= limit <= |ready| && forall q :: 0 <= q < p ==> ready[q] == []
    requires p < limit ==> ready[p] != []
    ensures Urgent(ready, limit) == p
  {
  }

  /** The state after blocking, but for the delay list. */
  ghost function Enlisted(k: Kernel, home: Option<ListId>, node: WaitNode): Kernel
    requires k.current.Some? && k.current.value in k.tasks
  {
    var t := k.current.value;
    k.(tasks := k.tasks[t := k.tasks[t].(state := Blocked, awaiting := k.nextId)],
       nodes := k.nodes[k.nextId := node],
       nextId := k.nextId + 1,
       waits := if home.Some? then k.waits[home.value := Listed(k, home.value) + [k.nextId]] else k.waits)
  }

  /** Arming a node's deadline and inserting it into the delay list. */
  ghost function Armed(k: Kernel, n: NodeId, deadline: Tick): Kernel
    requires n in k.nodes && forall m :: m in k.delay ==> m in k.nodes
  {
    k.(nodes := k.nodes[n := k.nodes[n].(deadline := deadline, timedOut := false)],
       delay := DelayInsert(k.nodes, k.delay, n, deadline))
  }

  /** The node as it is enlisted, before its deadline is armed. */
  function Unarmed(k: Kernel, t: TaskId, home: Option<ListId>, payload: Payload, timeout: Option<Tick>): WaitNode {
    WaitNode(t, home, timeout.Some?, 0, false, payload, if timeout.Some? then k.clock + timeout.value else 0, 0)
  }

  /** Enlisting and then arming is blocking. */
  lemma BlockParts(k: Kernel, home: Option<ListId>, payload: Payload, timeout: Option<Tick>)
    requires k.current.Some? && k.current.value in k.tasks
    requires (forall m :: m in k.delay ==> m in k.nodes) && k.nextId !in k.nodes && k.nextId !in k.delay
    ensures var k1 := Enlisted(k, home, Unarmed(k, k.current.value, home, payload, timeout));
            && k.nextId in k1.nodes && k1.delay == k.delay && k1.tick == k.tick && k1.clock == k.clock
            && (forall m :: m in k1.delay ==> m in k1.nodes)
            && Block(k, home, payload, timeout) ==
               if timeout.Some? then Armed(k1, k.nextId, Wrap(k.tick + timeout.value)) else k1
  {
    var k1 := Enlisted(k, home, Unarmed(k, k.current.value, home, payload, timeout));
    if timeout.Some? {
      PositionFrame(k.nodes, k1.nodes, k.delay, Wrap(k.tick + timeout.value));
    }
  }

  /** A suspension stores the handle for the task that suspends, and only then. */
  function StoredIf(suspended: bool, points: map<TaskId, Handle>, task: Option<TaskId>,
                    point: Handle): map<TaskId, Handle> {
    if suspended && task.Some? then points[task.value := point] else points
  }

  lemma WakeParts(k: Kernel, n: NodeId, timedOut: bool)
    requires n in k.nodes && k.nodes[n].task in k.tasks && k.tasks[k.nodes[n].task].prio < |k.ready|
    ensures var k1 := Unlink(k, n); var node := k.nodes[n];
            && k1.nodes == k.nodes && k1.tasks == k.tasks && k1.ready == k.ready
            && Wake(k, n, timedOut)
               == MakeReady(k1.(nodes := k.nodes[n := node.(timedOut := timedOut, wakes := node.wakes + 1)]), node.task)
  {
    hide MakeReady;
  }

  /** A coroutine handle: the frame at which a task is resumed. */
  type Handle = Async.FrameId

  class Scheduler {
    var tasks: map<TaskId, Task>
    var nodes: map<NodeId, WaitNode>
    var nextId: nat
    var ready: seq<seq<TaskId>>
    var delay: seq<NodeId>
    var waits: map<ListId, seq<NodeId>>
    var current: Option<TaskId>
    var runningPrio: nat
    var tick: Tick
    var clock: nat
    const preemptive: bool
    var pendingPreempt: bool

    /** `TaskPromise::resume_point` of each task: where it last suspended. */
    var resumePoints: map<TaskId, Handle>

    constructor (priorities: nat, preemptive: bool)
      requires 0 < priorities <= NO_RUNNING_TASK
      ensures this.preemptive == preemptive && |ready| == priorities && Inv(State()) && TimeInv(State())
      ensures tasks == map[] && nodes == map[] && waits == map[] && current == None && runningPrio == NO_RUNNING_TASK
      ensures Resumable()
    {
      tasks, nodes, nextId := map[], map[], 0;
      ready, delay, waits := seq(priorities, i => []), [], map[];
      current, runningPrio, tick, clock := None, NO_RUNNING_TASK, 0, 0;
      this.preemptive, pendingPreempt, resumePoints := preemptive, false, map[];
    }

    ghost function State(): Kernel
      reads this
    {
      Kernel(tasks, nodes, nextId, ready, delay, waits, current, runningPrio, tick, clock, preemptive, pendingPreempt)
    }

    /** Every task can be resumed somewhere. */
    ghost predicate Resumable()
      reads this
    {
      tasks.Keys <= resumePoints.Keys
    }

    method MarkReady(t: TaskId)
      requires t in tasks && tasks[t].prio < |ready|
      modifies this
      ensures State() == MakeReady(old(State()), t)
      ensures resumePoints == old(resumePoints) && (old(Resumable()) ==> Resumable())
    {
      var task := tasks[t];
      if task.state == Ready {
        return;
      }
      tasks := tasks[t := task.(state := Ready)];
      ready := ready[task.prio := ready[task.prio] + [t]];
      if preemptive && runningPrio != NO_RUNNING_TASK && task.prio < runningPrio {
        pendingPreempt := true;
      }
    }

    method InsertDelayed(n: NodeId, deadline: Tick)
      requires n in nodes && n !in delay && forall m :: m in delay ==> m in nodes
      modifies this`nodes, this`delay
      ensures State() == Armed(old(State()), n, deadline)
    {
      nodes := nodes[n := nodes[n].(deadline := deadline, timedOut := false)];
      PositionFrame(old(nodes), nodes, delay, deadline);
      var i := 0;
      while i < |delay|
        invariant i <= |delay|
        invariant i + DelayPosition(nodes, delay[i..], deadline) == DelayPosition(nodes, delay, deadline)
      {
        assert delay[i] in delay;
        if !DeadlineLe(nodes[delay[i]].deadline, deadline) {
          break;
        }
        i := i + 1;
      }
      delay := InsertAt(delay, i, n);
    }

    method Enlist(home: Option<ListId>, payload: Payload, timeout: Option<Tick>, point: Handle) returns (n: NodeId)
      requires current.Some? && current.value in tasks
      modifies this
      ensures n == old(nextId)
      ensures State() == Enlisted(old(State()), home, Unarmed(old(State()), old(current).value, home, payload, timeout))
      ensures resumePoints == old(resumePoints)[old(current).value := point] && (old(Resumable()) ==> Resumable())
    {
      n := AddNode(home, payload, timeout);
      resumePoints := resumePoints[current.value := point];
      tasks := tasks[current.value := tasks[current.value].(state := Blocked, awaiting := n)];
      if home.Some? {
        PushBack(home.value, n);
      }
    }

    method AddNode(home: Option<ListId>, payload: Payload, timeout: Option<Tick>) returns (n: NodeId)
      requires current.Some?
      modifies this`nextId, this`nodes
      ensures n == old(nextId) && nextId == n + 1
      ensures nodes == old(nodes)[n := Unarmed(old(State()), current.value, home, payload, timeout)]
    {
      n := nextId;
      nextId := n + 1;
      nodes := nodes[n := WaitNode(current.value, home, timeout.Some?, 0, false, payload,
                                   if timeout.Some? then clock + timeout.value else 0, 0)];
    }

    method PushBack(l: ListId, n: NodeId)
      modifies this`waits
      ensures waits == old(waits)[l := Listed(old(State()), l) + [n]]
    {
      waits := waits[l := (if l in waits then waits[l] else []) + [n]];
    }

    /** The current task blocks, to be resumed at `point`: on a wait list, with a deadline, or both. */
    method BlockCurrent(home: Option<ListId>, payload: Payload, timeout: Option<Tick>, point: Handle)
        returns (n: NodeId)
      requires CanBlock(State(), home, timeout)
      modifies this
      ensures State() == Block(old(State()), home, payload, timeout) && n == old(nextId)
      ensures old(current).Some? && resumePoints == old(resumePoints)[old(current).value := point]
      ensures old(Resumable()) ==> Resumable()
    {
      hide CanBlock, Block, Enlisted, Armed;
      BlockFacts(State(), home, timeout);
      BlockParts(State(), home, payload, timeout);
      n := Enlist(home, payload, timeout, point);
      if timeout.Some? {
        InsertDelayed(n, Wrap(tick + timeout.value));
      }
    }

    method UnlinkNode(n: NodeId)
      modifies this`waits, this`delay
      ensures State() == Unlink(old(State()), n)
    {
      waits := map l | l in waits :: Remove(waits[l], n);
      delay := Remove(delay, n);
    }

    method WakeNode(n: NodeId, timedOut: bool)
      requires n in nodes && nodes[n].task in tasks && tasks[nodes[n].task].prio < |ready|
      modifies this
      ensures State() == Wake(old(State()), n, timedOut)
      ensures resumePoints == old(resumePoints) && (old(Resumable()) ==> Resumable())
    {
      hide Unlink, MakeReady;
      WakeParts(State(), n, timedOut);
      UnlinkNode(n);
      var node := nodes[n];
      nodes := nodes[n := node.(timedOut := timedOut, wakes := node.wakes + 1)];
      MarkReady(node.task);
    }

    /** Starting a task fails exactly if its frame could not be allocated. */
    method StartTask(handle: Option<Handle>, priority: nat) returns (t: Option<TaskId>)
      requires |ready| > 0
      modifies this
      ensures t == if handle.Some? then Some(old(nextId)) else None
      ensures handle == None ==> State() == old(State()) && resumePoints == old(resumePoints)
      ensures handle.Some? ==>
        State() == Start(old(State()), priority) && resumePoints == old(resumePoints)[old(nextId) := handle.value]
      ensures old(Resumable()) ==> Resumable()
    {
      if handle == None {
        return None;
      }
      var id := nextId;
      nextId := id + 1;
      tasks := tasks[id := Task(if priority < |ready| then priority else |ready| - 1, Created, 0)];
      resumePoints := resumePoints[id := handle.value];
      MarkReady(id);
      t := Some(id);
    }

    method TickIsr()
      requires Inv(State())
      modifies this
      ensures State() == Timer.TickIsr(old(State()))
      ensures resumePoints == old(resumePoints) && (old(Resumable()) ==> Resumable())
    {
      hide Inv, WakeAll, DueNow;
      TickStart(State());
      tick := Wrap(tick + 1);
      clock := clock + 1;
      while delay != []
        invariant Inv(State())
        invariant WakeAll(State(), DueNow(State()), true) == Timer.TickIsr(old(State()))
        invariant resumePoints == old(resumePoints) && (old(Resumable()) ==> Resumable())
        decreases |delay|
      {
        TickEnd(State());
        if !DeadlineLe(nodes[delay[0]].deadline, tick) {
          break;
        }
        DueStep(State());
        DueWakes(State());
        WakeNode(delay[0], true);
      }
      TickEnd(State());
    }

    /** The head of list `p` leaves it and becomes the running task. */
    method RunHead(p: nat)
      requires p < |ready| && ready[p] != [] && ready[p][0] in tasks
      modifies this
      ensures State() == old(State()).(
                ready := old(ready)[p := old(ready)[p][1..]],
                tasks := old(tasks)[old(ready)[p][0] := old(tasks)[old(ready)[p][0]].(state := Running)],
                current := Some(old(ready)[p][0]),
                runningPrio := old(tasks)[old(ready)[p][0]].prio)
      ensures resumePoints == old(resumePoints) && (old(Resumable()) ==> Resumable())
    {
      var t := ready[p][0];
      ready := ready[p := ready[p][1..]];
      tasks := tasks[t := tasks[t].(state := Running)];
      current := Some(t);
      runningPrio := tasks[t].prio;
    }

    /** The scan of the ready lists in `run_one` and in the preemption handler. */
    method DispatchReady(limit: nat) returns (t: Option<TaskId>)
      requires ReadyInv(State()) && limit <= |ready|
      modifies this
      ensures (forall p :: 0 <= p < |old(ready)| && old(ready)[p] != [] ==> old(ready)[p][0] in old(tasks))
      ensures State() == Dispatch(old(State()), limit)
      ensures t == if Urgent(old(ready), limit) < limit then current else None
      ensures resumePoints == old(resumePoints) && (old(Resumable()) ==> Resumable())
    {
      HeadsAreTasks(State());
      hide ReadyInv;
      t := None;
      for p := 0 to limit
        invariant unchanged(this)
        invariant t == None
        invariant forall q :: 0 <= q < p ==> ready[q] == []
      {
        if ready[p] != [] {
          UrgentFound(ready, limit, p);
          RunHead(p);
          return current;
        }
      }
      UrgentFound(ready, limit, limit);
    }

    /** `run_one` up to the point where the task is resumed, which is where it last suspended;
        the caller keeps what it saved. */
    method EnterRunOne()
        returns (t: Option<TaskId>, point: Option<Handle>, savedCurrent: Option<TaskId>, savedPrio: nat)
      requires ReadyInv(State()) && Resumable()
      modifies this
      ensures (forall p :: 0 <= p < |old(ready)| && old(ready)[p] != [] ==> old(ready)[p][0] in old(tasks))
      ensures State() == Dispatch(old(State()), |old(ready)|)
      ensures t == if Urgent(old(ready), |old(ready)|) < |old(ready)| then current else None
      ensures t.Some? ==> t.value in resumePoints && point == Some(resumePoints[t.value])
      ensures t == None ==> point == None
      ensures savedCurrent == old(current) && savedPrio == old(runningPrio)
      ensures resumePoints == old(resumePoints) && Resumable()
    {
      HeadsAreTasks(State());
      savedCurrent, savedPrio := current, runningPrio;
      t := DispatchReady(|ready|);
      point := None;
      if t.Some? {
        point := Some(resumePoints[t.value]);
      }
    }

    method LeaveRunOne(savedCurrent: Option<TaskId>, savedPrio: nat)
      modifies this`current, this`runningPrio
      ensures State() == old(State()).(current := savedCurrent, runningPrio := savedPrio)
    {
      current := savedCurrent;
      runningPrio := savedPrio;
    }

    /** The check of the main loop before it falls asleep. */
    method AnyReady() returns (any: bool)
      ensures any <==> Urgent(ready, |ready|) < |ready|
    {
      any := false;
      for p := 0 to |ready|
        invariant !any && forall q :: 0 <= q < p ==> ready[q] == []
      {
        if ready[p] != [] {
          UrgentFound(ready, |ready|, p);
          return true;
        }
      }
      UrgentFound(ready, |ready|, |ready|);
    }

    method YieldCurrent(point: Handle)
      requires Inv(State()) && InTask(State())
      modifies this
      ensures State() == Yield(old(State()))
      ensures resumePoints == old(resumePoints)[old(current).value := point] && (old(Resumable()) ==> Resumable())
    {
      resumePoints := resumePoints[current.value := point];
      MarkReady(current.value);
    }

    /** `sleep_for`; the flag tells whether the task was suspended. */
    method SleepFor(ticks: Tick, point: Handle) returns (suspended: bool)
      requires Inv(State()) && InTask(State())
      modifies this
      ensures suspended <==> ticks != 0
      ensures State() == Sleep(old(State()), ticks)
      ensures resumePoints == StoredIf(suspended, old(resumePoints), old(current), point)
    {
      if ticks == 0 {
        return false;
      }
      var n := BlockCurrent(None, NoPayload, Some(ticks), point);
      return true;
    }

    /** The frame of a finished task is destroyed, promise included. */
    method Destroy()
      requires current.Some?
      modifies this
      ensures State() == Finish(old(State()))
      ensures resumePoints == old(resumePoints) - {old(current).value} && (old(Resumable()) ==> Resumable())
    {
      tasks := tasks - {current.value};
      resumePoints := resumePoints - {current.value};
    }

    method TakeNumber() returns (id: NodeId)
      modifies this`nextId
      ensures State() == Stamp(old(State())) && id == old(nextId)
    {
      id := nextId;
      nextId := nextId + 1;
    }

    method Write(n: NodeId, payload: Payload)
      requires n in nodes
      modifies this`nodes
      ensures State() == Deliver(old(State()), n, payload)
    {
      nodes := nodes[n := nodes[n].(payload := payload)];
    }
  }
}
