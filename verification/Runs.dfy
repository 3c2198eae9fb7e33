/** Runs of the whole system: any interleaving of task steps, interrupt handlers and ticks. */
module Runs {
  import opened Sequences
  import opened Time
  import opened Kernel
  import opened Timer
  import opened Requests
  import opened System
  import S = Semaphore
  import M = Mutex
  import Q = Queue
  import E = EventGroup

  /** Before the first task is started, at any value of the tick counter. */
  ghost predicate Initial(y: Sys) {
    && y.k.tasks == map[] && y.k.nodes == map[] && y.k.delay == [] && y.k.waits == map[]
    && 0 < |y.k.ready| <= NO_RUNNING_TASK
    && (forall p :: 0 <= p < |y.k.ready| ==> y.k.ready[p] == [])
    && y.k.current == None && y.k.runningPrio == NO_RUNNING_TASK && !y.k.pendingPreempt
    && y.k.tick == Wrap(y.k.clock)
    && (forall i {:trigger i in y.semaphores} :: i in y.semaphores ==>
          y.semaphores[i] == S.Create(y.semaphores[i].initial, y.semaphores[i].max))
    && (forall i {:trigger i in y.mutexes} :: i in y.mutexes ==> y.mutexes[i] == M.Create())
    && (forall i {:trigger i in y.queues} :: i in y.queues ==>
          0 < y.queues[i].capacity && y.queues[i] == Q.Create(y.queues[i].capacity))
    && (forall i {:trigger i in y.groups} :: i in y.groups ==> y.groups[i] == E.Group(0))
  }

  /** The step relation. A step is only defined from states in which the invariant holds;
      `RunsAreValid` shows that no run ever leaves them. */
  ghost predicate Follows(y: Sys, op: Op, y': Sys) {
    SysInv(y) ==> Enabled(y, op) && y' == Apply(y, op)
  }

  ghost predicate Run(states: seq<Sys>, ops: seq<Op>) {
    && |states| == |ops| + 1
    && Initial(states[0])
    && forall i :: 0 <= i < |ops| ==> Follows(states[i], ops[i], states[i + 1])
  }

  lemma InitialKernel(y: Sys)
    requires Initial(y)
    ensures Inv(y.k) && TimeInv(y.k) && forall l :: Listed(y.k, l) == []
  {
  }

  lemma InitialInv(y: Sys)
    requires Initial(y)
    ensures SysInv(y)
  {
    InitialKernel(y);
    forall i | i in y.semaphores ensures S.SemaphoreInv(y.k, y.semaphores[i], SemaphoreWaiters(i)) {
      S.CreateInv(y.k, y.semaphores[i].initial, y.semaphores[i].max, SemaphoreWaiters(i));
    }
    forall i | i in y.queues ensures Q.QueueInv(y.k, y.queues[i], Receivers(i), Senders(i)) {
      Q.CreateInv(y.k, y.queues[i].capacity, Receivers(i), Senders(i));
    }
  }

  /** The invariant of the kernel and of every primitive holds in every state of every run. */
  lemma {:induction false} RunsAreValid(states: seq<Sys>, ops: seq<Op>, i: nat)
    requires Run(states, ops) && i < |states|
    ensures SysInv(states[i])
  {
    if i == 0 {
      InitialInv(states[0]);
    } else {
      RunsAreValid(states, ops, i - 1);
      assert Follows(states[i - 1], ops[i - 1], states[i]);
      StepKeeps(states[i - 1], ops[i - 1]);
    }
  }

  // ---------------------------------------------------------------- whole-kernel consequences

  ghost predicate Linked(k: Kernel, n: NodeId) {
    n in k.delay || exists l :: n in Listed(k, l)
  }

  ghost predicate InState(k: Kernel, t: TaskId, s: RunState) {
    t in k.tasks && k.tasks[t].state == s
  }

  lemma LinkedWait(k: Kernel, n: NodeId)
    requires Inv(k) && Linked(k, n)
    ensures Waiting(k, n) && n in k.nodes
  {
    if n !in k.delay {
      var l :| n in Listed(k, l);
      ListedWait(k, l);
    }
  }

  /** A Ready task is on exactly one ready list, that of its priority, and there exactly once. */
  lemma ReadyOnce(k: Kernel, t: TaskId, p: nat, i: nat)
    requires Inv(k) && InState(k, t, Ready) && p < |k.ready| && i < |k.ready[p]|
    ensures exists j :: 0 <= j < |k.ready[k.tasks[t].prio]| && k.ready[k.tasks[t].prio][j] == t
    ensures k.ready[p][i] == t ==>
      p == k.tasks[t].prio && forall j :: 0 <= j < |k.ready[p]| && k.ready[p][j] == t ==> j == i
  {
    assert t in k.ready[k.tasks[t].prio];
    assert ReadyAt(k, k.ready[p][i], p);
  }

  /** A Blocked task owns exactly one linked node, on at most one wait list and at most once
      on it and on the delay list. */
  lemma BlockedOwnsOneNode(k: Kernel, t: TaskId)
    requires Inv(k) && InState(k, t, Blocked)
    ensures var n := k.tasks[t].awaiting;
            && n in k.nodes && k.nodes[n].task == t && Linked(k, n)
            && (forall m :: Linked(k, m) && m in k.nodes && k.nodes[m].task == t ==> m == n)
            && (forall l, l' :: n in Listed(k, l) && n in Listed(k, l') ==> l == l')
            && (forall l :: NoDup(Listed(k, l))) && NoDup(k.delay)
  {
    var n := k.tasks[t].awaiting;
    assert n in k.nodes && k.nodes[n].task == t && Parked(k, n);
    assert Linked(k, n) by {
      if !k.nodes[n].timed { assert n in Listed(k, k.nodes[n].home.value); }
    }
    forall m | Linked(k, m) && m in k.nodes && k.nodes[m].task == t ensures m == n {
      LinkedWait(k, m);
    }
    forall l ensures NoDup(Listed(k, l)) && (n in Listed(k, l) ==> k.nodes[n].home == Some(l)) {
      ListedWait(k, l);
    }
  }

  /** No linked node belongs to a task that is not Blocked; so a Running task is on no list. */
  lemma LinkedIsBlocked(k: Kernel, n: NodeId, t: TaskId, p: nat)
    requires Inv(k)
    ensures Linked(k, n) ==> n in k.nodes && InState(k, k.nodes[n].task, Blocked)
    ensures InState(k, t, Running) && p < |k.ready| ==> t !in k.ready[p]
    ensures InState(k, t, Running) && Linked(k, n) ==> n in k.nodes && k.nodes[n].task != t
  {
    if Linked(k, n) { LinkedWait(k, n); }
    if InState(k, t, Running) && p < |k.ready| {
      forall i | 0 <= i < |k.ready[p]| ensures k.ready[p][i] != t {
        assert ReadyAt(k, k.ready[p][i], p);
      }
    }
  }

  // ---------------------------------------------------------------- one wake per episode

  /** A step leaves every node that was already woken as it is. */
  lemma StepSettles(y: Sys, op: Op, n: NodeId)
    requires SysInv(y) && Enabled(y, op) && n in y.k.nodes
    ensures n in Apply(y, op).k.nodes
    ensures y.k.nodes[n].wakes == 1 ==> Apply(y, op).k.nodes[n] == y.k.nodes[n]
    ensures Apply(y, op).k.nodes[n].timedOut && !y.k.nodes[n].timedOut ==> op.TimerTick? && n in DueNodes(y.k)
  {
    hide Apply, Enabled;
    if op.TimerTick? {
      TickStep(y);
      TickEffect(y.k);
      AdvanceKeepsInv(y.k);
      if n in DueNodes(y.k) { assert Waiting(Advance(y.k), n); }
    } else {
      StepFrame(y, op);
    }
  }

  /** Exactly one wake per block episode: once a node has been woken, by its event or by its
      deadline, its outcome never changes, whatever happens until its task runs again. */
  lemma {:induction false} OutcomesAreFinal(states: seq<Sys>, ops: seq<Op>, i: nat, j: nat, n: NodeId)
    requires Run(states, ops) && i <= j < |states|
    requires n in states[i].k.nodes && states[i].k.nodes[n].wakes == 1
    ensures n in states[j].k.nodes && states[j].k.nodes[n] == states[i].k.nodes[n]
  {
    if i < j {
      OutcomesAreFinal(states, ops, i, j - 1, n);
      RunsAreValid(states, ops, j - 1);
      assert Follows(states[j - 1], ops[j - 1], states[j]);
      StepSettles(states[j - 1], ops[j - 1], n);
    }
  }

  /** In every state of every run a node is still waited at or has been woken once, never both. */
  lemma WaitingOrWokenOnce(states: seq<Sys>, ops: seq<Op>, i: nat, n: NodeId)
    requires Run(states, ops) && i < |states| && n in states[i].k.nodes
    ensures var k := states[i].k;
            && k.nodes[n].wakes <= 1
            && (k.nodes[n].wakes == 0 <==> Linked(k, n))
            && (k.nodes[n].timedOut ==> k.nodes[n].timed && k.nodes[n].wakes == 1)
  {
    RunsAreValid(states, ops, i);
    var k := states[i].k;
    if k.nodes[n].wakes == 0 {
      assert Waiting(k, n) && k.nodes[n].task in k.tasks;
      BlockedOwnsOneNode(k, k.nodes[n].task);
    }
    if Linked(k, n) { LinkedWait(k, n); }
  }

  // ---------------------------------------------------------------- time

  /** No timeout has fired early, and no deadline has passed unnoticed. */
  ghost predicate Punctual(k: Kernel) {
    forall n {:trigger n in k.nodes} :: n in k.nodes ==>
      && (k.nodes[n].timedOut ==> k.nodes[n].due <= k.clock)
      && (k.nodes[n].timed && k.nodes[n].wakes == 0 ==> k.clock <= k.nodes[n].due)
  }

  lemma WaitersAhead(k: Kernel, n: NodeId)
    requires Inv(k) && TimeInv(k) && n in k.nodes && k.nodes[n].timed && k.nodes[n].wakes == 0
    ensures k.clock <= k.nodes[n].due
  {
    WaitingTimedIsDelayed(k, n);
  }

  lemma StepKeepsTime(y: Sys, op: Op)
    requires SysInv(y) && Enabled(y, op) && ShortOp(op) && TimeInv(y.k)
    ensures TimeInv(Apply(y, op).k)
    ensures Apply(y, op).k.clock == y.k.clock + (if op.TimerTick? then 1 else 0)
  {
    hide Inv, TimeInv, Frame, Sched, InTask;
    if IsPrimitiveOp(op) {
      hide Apply, Enabled;
      PrimitiveStep(y, op);
    } else if op.SleepFor? {
      SleepKeeps(y.k, op.ticks);
    } else if op.TimerTick? {
      TickEffect(y.k);
      TickKeepsTime(y.k);
    } else {
      PlainStepDelay(y, op);
      SameDelayKeepsTime(y.k, Apply(y, op).k);
    }
  }

  lemma PlainStepDelay(y: Sys, op: Op)
    requires SysInv(y) && Enabled(y, op) && !IsPrimitiveOp(op) && !op.SleepFor? && !op.TimerTick?
    ensures var k' := Apply(y, op).k;
            && k'.tick == y.k.tick && k'.clock == y.k.clock && k'.delay == y.k.delay
            && forall n {:trigger n in y.k.delay} :: n in y.k.delay ==>
                 n in k'.nodes && k'.nodes[n].due == y.k.nodes[n].due && k'.nodes[n].deadline == y.k.nodes[n].deadline
  {
    hide TimeInv, Frame, Sched;
    if op.DispatchTask? { DispatchEvolves(y.k, op.limit); }
  }

  lemma StepKeepsPunctual(y: Sys, op: Op)
    requires SysInv(y) && Enabled(y, op) && ShortOp(op) && TimeInv(y.k) && Punctual(y.k)
    ensures Punctual(Apply(y, op).k)
  {
    var k' := Apply(y, op).k;
    StepKeeps(y, op);
    StepKeepsTime(y, op);
    forall n | n in k'.nodes
      ensures k'.nodes[n].timedOut ==> k'.nodes[n].due <= k'.clock
      ensures k'.nodes[n].timed && k'.nodes[n].wakes == 0 ==> k'.clock <= k'.nodes[n].due
    {
      if k'.nodes[n].timed && k'.nodes[n].wakes == 0 { WaitersAhead(k', n); }
      if k'.nodes[n].timedOut { TimeoutNotEarly(y, op, n); }
    }
  }

  lemma TickStep(y: Sys)
    requires SysInv(y)
    ensures Enabled(y, TimerTick) && Apply(y, TimerTick).k == TickIsr(y.k)
  {
    hide Inv;
  }

  lemma TimeoutNotEarly(y: Sys, op: Op, n: NodeId)
    requires SysInv(y) && Enabled(y, op) && ShortOp(op) && TimeInv(y.k) && Punctual(y.k)
    requires n in Apply(y, op).k.nodes && Apply(y, op).k.nodes[n].timedOut
    ensures Apply(y, op).k.nodes[n].due <= Apply(y, op).k.clock
  {
    hide Frame, TimeInv, Apply, Inv, Enabled;
    StepKeepsTime(y, op);
    if op.TimerTick? {
      TickStep(y);
      TickIsExact(y.k);
      assert n in y.k.nodes && Timely(y.k, Apply(y, op).k, n);
    } else {
      WasTimedOut(y, op, n);
    }
  }

  /** Nothing but a tick makes a node time out. */
  lemma WasTimedOut(y: Sys, op: Op, n: NodeId)
    requires SysInv(y) && Enabled(y, op) && !op.TimerTick?
    requires n in Apply(y, op).k.nodes && Apply(y, op).k.nodes[n].timedOut
    ensures n in y.k.nodes && y.k.nodes[n] == Apply(y, op).k.nodes[n]
  {
    hide Apply, Enabled;
    StepFrame(y, op);
    assert n in y.k.nodes;
  }

  lemma StepFrame(y: Sys, op: Op)
    requires SysInv(y) && Enabled(y, op) && !op.TimerTick?
    ensures Frame(y.k, Apply(y, op).k, Own(op))
  {
    if IsPrimitiveOp(op) { PrimitiveStep(y, op); } else { KernelOpKeeps(y, op); }
  }

  /** In every state of every run whose timeouts are at most 2^31 - 1 ticks, the wrapped timer
      agrees with the unbounded clock: nobody has been woken early, nobody has been left behind,
      and the delay list is in true deadline order, FIFO among equals. */
  lemma {:induction false} RunsArePunctual(states: seq<Sys>, ops: seq<Op>, i: nat)
    requires Run(states, ops) && i < |states|
    requires forall j :: 0 <= j < i ==> ShortOp(ops[j])
    ensures TimeInv(states[i].k) && Punctual(states[i].k)
  {
    if i == 0 {
      InitialKernel(states[0]);
    } else {
      RunsArePunctual(states, ops, i - 1);
      RunsAreValid(states, ops, i - 1);
      assert Follows(states[i - 1], ops[i - 1], states[i]);
      StepKeepsTime(states[i - 1], ops[i - 1]);
      StepKeepsPunctual(states[i - 1], ops[i - 1]);
    }
  }
}
