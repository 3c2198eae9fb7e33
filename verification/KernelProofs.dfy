/** Every kernel operation keeps the kernel invariant and stays within its frame. */
module KernelProofs {
  import opened Sequences
  import opened Time
  import opened Kernel

  /** Appending a task to its list, as Ready, keeps the ready lists in order. */
  lemma AppendKeepsReady(k: Kernel, k': Kernel, t: TaskId)
    requires ReadyInv(k)
    requires t in k'.tasks && k'.tasks[t].state == Ready && t < k'.nextId
    requires k'.tasks[t].prio < |k.ready| && k.nextId <= k'.nextId
    requires t in k.tasks ==> k.tasks[t].state != Ready
    requires forall u :: u in k'.tasks <==> u in k.tasks || u == t
    requires forall u :: u in k.tasks && u != t ==> k'.tasks[u] == k.tasks[u]
    requires var p := k'.tasks[t].prio; k'.ready == k.ready[p := k.ready[p] + [t]]
    ensures ReadyInv(k')
  {
    var p := k'.tasks[t].prio;
    assert forall i :: 0 <= i < |k.ready[p]| ==> ReadyAt(k, k.ready[p][i], p);
    forall q, i | 0 <= q < |k'.ready| && 0 <= i < |k'.ready[q]| ensures ReadyAt(k', k'.ready[q][i], q) {
      assert i < |k.ready[q]| ==> ReadyAt(k, k.ready[q][i], q);
    }
    forall u | u in k'.tasks && k'.tasks[u].state == Ready ensures u in k'.ready[k'.tasks[u].prio] {
      if u == t {
        assert k'.ready[p][|k.ready[p]|] == t;
      } else {
        var q := k.tasks[u].prio;
        var i :| 0 <= i < |k.ready[q]| && k.ready[q][i] == u;
        assert k'.ready[q][i] == u;
      }
    }
  }

  // ---------------------------------------------------------------- waking

  /** Closed form of waking a waiting node. */
  lemma WakeEffect(k: Kernel, n: NodeId, timedOut: bool)
    requires Inv(k) && Waiting(k, n)
    ensures var node := k.nodes[n]; var t := node.task; var p := k.tasks[t].prio;
            var k' := Wake(k, n, timedOut);
            && k'.tasks == k.tasks[t := k.tasks[t].(state := Ready)]
            && k'.ready == k.ready[p := k.ready[p] + [t]]
            && k'.nodes == k.nodes[n := node.(timedOut := timedOut, wakes := 1)]
            && k'.nextId == k.nextId
            && k'.waits.Keys == k.waits.Keys
            && (forall l :: l in k.waits ==> k'.waits[l] == Remove(k.waits[l], n))
            && (forall l :: Some(l) != node.home ==> Listed(k', l) == Listed(k, l))
            && k'.delay == Remove(k.delay, n)
            && k'.tick == k.tick && k'.clock == k.clock
  {
    hide ReadyInv, BlockedInv;
    WakeMakesReady(k, n, timedOut);
  }

  lemma WakeMakesReady(k: Kernel, n: NodeId, timedOut: bool)
    requires Inv(k) && Waiting(k, n)
    ensures var t := k.nodes[n].task; var p := k.tasks[t].prio; var k' := Wake(k, n, timedOut);
            && p < |k.ready|
            && k'.tasks == k.tasks[t := k.tasks[t].(state := Ready)]
            && k'.ready == k.ready[p := k.ready[p] + [t]]
  {
    hide ListsInv, BlockedInv, NodesInv;
  }

  lemma WakeKeepsReady(k: Kernel, n: NodeId, timedOut: bool)
    requires Inv(k) && Waiting(k, n)
    ensures ReadyInv(Wake(k, n, timedOut))
  {
    AppendKeepsReady(k, Wake(k, n, timedOut), k.nodes[n].task);
  }

  lemma UnlinkedEverywhere(k: Kernel, n: NodeId)
    requires ListsInv(k)
    ensures forall l :: l in k.waits ==> NoDup(Unlink(k, n).waits[l]) && n !in Unlink(k, n).waits[l]
    ensures NoDup(Unlink(k, n).delay) && n !in Unlink(k, n).delay
  {
    forall l | l in k.waits ensures NoDup(Remove(k.waits[l], n)) && n !in Remove(k.waits[l], n) {
      RemoveNoDup(k.waits[l], n);
    }
    RemoveNoDup(k.delay, n);
  }

  lemma WakeKeepsLists(k: Kernel, n: NodeId, timedOut: bool)
    requires Inv(k) && Waiting(k, n)
    ensures ListsInv(Wake(k, n, timedOut))
  {
    var k' := Wake(k, n, timedOut);
    assert k'.waits == Unlink(k, n).waits && k'.delay == Unlink(k, n).delay;
    UnlinkedEverywhere(k, n);
    forall l, m | l in k'.waits && m in k'.waits[l]
      ensures Waiting(k', m) && k'.nodes[m].home == Some(l)
    {
      StillWaiting(k, n, timedOut, m);
    }
    forall m | m in k'.delay ensures Waiting(k', m) && k'.nodes[m].timed {
      StillWaiting(k, n, timedOut, m);
    }
  }

  lemma StillWaiting(k: Kernel, n: NodeId, timedOut: bool, m: NodeId)
    requires Inv(k) && Waiting(k, n) && Waiting(k, m) && m != n
    ensures Waiting(Wake(k, n, timedOut), m)
    ensures Wake(k, n, timedOut).nodes[m] == k.nodes[m]
  {
  }

  lemma OtherWaitingKept(k: Kernel, n: NodeId, timedOut: bool)
    requires Inv(k) && Waiting(k, n)
    ensures forall m :: Waiting(Wake(k, n, timedOut), m) <==> Waiting(k, m) && m != n
  {
    WakeEffect(k, n, timedOut);
  }

  lemma WakeKeepsBlocked(k: Kernel, n: NodeId, timedOut: bool)
    requires Inv(k) && Waiting(k, n)
    ensures BlockedInv(Wake(k, n, timedOut))
  {
    WakeEffect(k, n, timedOut);
    var k' := Wake(k, n, timedOut);
    forall t | t in k'.tasks && k'.tasks[t].state == Blocked
      ensures var m := k'.tasks[t].awaiting; m in k'.nodes && k'.nodes[m].task == t && Parked(k', m)
    {
      var m := k.tasks[t].awaiting;
      assert m in k.nodes && k.nodes[m].task == t && Parked(k, m);
      assert m != n;
    }
  }

  lemma WakeKeepsNodes(k: Kernel, n: NodeId, timedOut: bool)
    requires Inv(k) && Waiting(k, n)
    requires timedOut ==> k.nodes[n].timed
    ensures NodesInv(Wake(k, n, timedOut))
  {
    WakeEffect(k, n, timedOut);
    OtherWaitingKept(k, n, timedOut);
  }

  /** Waking keeps the invariant: the node leaves every list at once and its task becomes
      Ready at the end of its own list. */
  lemma WakeKeepsInv(k: Kernel, n: NodeId, timedOut: bool)
    requires Inv(k) && Waiting(k, n)
    requires timedOut ==> k.nodes[n].timed
    ensures Inv(Wake(k, n, timedOut))
  {
    WakeKeepsReady(k, n, timedOut);
    WakeKeepsLists(k, n, timedOut);
    WakeKeepsBlocked(k, n, timedOut);
    WakeKeepsNodes(k, n, timedOut);
  }

  lemma WakeFrame(k: Kernel, n: NodeId)
    requires Inv(k) && Waiting(k, n) && k.nodes[n].home.Some?
    ensures Frame(k, Wake(k, n, false), {k.nodes[n].home.value})
  {
    WakeEffect(k, n, false);
  }

  lemma WakeSched(k: Kernel, n: NodeId, timedOut: bool)
    requires Inv(k) && Waiting(k, n)
    ensures Sched(k, Wake(k, n, timedOut), None)
  {
    WakeEffect(k, n, timedOut);
  }

  // ---------------------------------------------------------------- delivering

  lemma DeliverKeepsInv(k: Kernel, n: NodeId, payload: Payload)
    requires Inv(k) && Waiting(k, n)
    ensures Inv(Deliver(k, n, payload)) && Sched(k, Deliver(k, n, payload), None)
    ensures forall m :: Waiting(Deliver(k, n, payload), m) <==> Waiting(k, m)
  {
    var k' := Deliver(k, n, payload);
    assert forall m :: Waiting(k', m) <==> Waiting(k, m);
    assert ReadyInv(k') by { DeliverKeepsReady(k, n, payload); }
    assert BlockedInv(k') by { DeliverKeepsBlocked(k, n, payload); }
  }

  lemma DeliverKeepsReady(k: Kernel, n: NodeId, payload: Payload)
    requires ReadyInv(k) && n in k.nodes
    ensures ReadyInv(Deliver(k, n, payload))
  {
    var k' := Deliver(k, n, payload);
    forall q, i | 0 <= q < |k'.ready| && 0 <= i < |k'.ready[q]| ensures ReadyAt(k', k'.ready[q][i], q) {
      assert ReadyAt(k, k.ready[q][i], q);
    }
  }

  lemma DeliverKeepsBlocked(k: Kernel, n: NodeId, payload: Payload)
    requires BlockedInv(k) && n in k.nodes
    ensures BlockedInv(Deliver(k, n, payload))
  {
    var k' := Deliver(k, n, payload);
    forall t | t in k'.tasks && k'.tasks[t].state == Blocked
      ensures var m := k'.tasks[t].awaiting; m in k'.nodes && k'.nodes[m].task == t && Parked(k', m)
    {
      var m := k.tasks[t].awaiting;
      assert m in k.nodes && k.nodes[m].task == t && Parked(k, m);
    }
  }

  lemma DeliverFrame(k: Kernel, n: NodeId, payload: Payload, l: ListId)
    requires Inv(k) && Waiting(k, n) && k.nodes[n].home == Some(l)
    ensures Frame(k, Deliver(k, n, payload), {l})
  {
  }

  // ---------------------------------------------------------------- blocking

  lemma {:induction false} DelayPositionSplits(nodes: map<NodeId, WaitNode>, delay: seq<NodeId>, deadline: Tick)
    requires forall n :: n in delay ==> n in nodes
    ensures var i := DelayPosition(nodes, delay, deadline);
            && (forall j :: 0 <= j < i ==> DeadlineLe(nodes[delay[j]].deadline, deadline))
            && (i < |delay| ==> !DeadlineLe(nodes[delay[i]].deadline, deadline))
  {
    if delay != [] {
      DelayPositionSplits(nodes, delay[1..], deadline);
    }
  }

  ghost predicate CanBlock(k: Kernel, home: Option<ListId>, timeout: Option<Tick>) {
    Inv(k) && InTask(k) && (home.Some? || timeout.Some?)
  }

  lemma BlockEffect(k: Kernel, home: Option<ListId>, payload: Payload, timeout: Option<Tick>)
    requires CanBlock(k, home, timeout)
    ensures var t := k.current.value; var n := k.nextId;
            var k' := Block(k, home, payload, timeout);
            && n !in k.nodes
            && k'.tasks == k.tasks[t := k.tasks[t].(state := Blocked, awaiting := n)]
            && k'.nodes == k.nodes[n := Episode(k, t, home, payload, timeout)]
            && k'.nextId == n + 1
            && (forall l :: Some(l) != home ==> Listed(k', l) == Listed(k, l))
            && (home.Some? ==> Listed(k', home.value) == Listed(k, home.value) + [n])
            && k'.waits.Keys == k.waits.Keys + (if home.Some? then {home.value} else {})
            && k' == k.(tasks := k'.tasks, nodes := k'.nodes, nextId := n + 1, waits := k'.waits, delay := k'.delay)
  {
  }

  lemma FreshUnlinked(k: Kernel)
    requires Inv(k)
    ensures k.nextId !in k.nodes && k.nextId !in k.delay
    ensures forall l, n :: n in Listed(k, l) ==> n in k.nodes && n < k.nextId
  {
    forall l, n | n in Listed(k, l) ensures n in k.nodes && n < k.nextId {
      assert n in k.waits[l];
    }
  }

  lemma DelayInsertMembers(nodes: map<NodeId, WaitNode>, delay: seq<NodeId>, n: NodeId, deadline: Tick)
    requires forall m :: m in delay ==> m in nodes
    requires NoDup(delay) && n !in delay
    ensures var d := DelayInsert(nodes, delay, n, deadline);
            NoDup(d) && forall m :: m in d <==> m in delay || m == n
  {
    var i := DelayPosition(nodes, delay, deadline);
    InsertNoDup(delay, i, n);
    InsertMembers(delay, i, n);
  }

  lemma DelayIsSound(k: Kernel)
    requires Inv(k)
    ensures NoDup(k.delay) && forall n :: n in k.delay ==> n in k.nodes
  {
  }

  lemma BlockDelayed(k: Kernel, home: Option<ListId>, payload: Payload, timeout: Option<Tick>)
    requires CanBlock(k, home, timeout)
    ensures var d := Block(k, home, payload, timeout).delay;
            NoDup(d) && forall m :: m in d <==> m in k.delay || (timeout.Some? && m == k.nextId)
  {
    hide Inv, DelayInsert;
    FreshUnlinked(k);
    DelayIsSound(k);
    if timeout.Some? {
      DelayInsertMembers(k.nodes, k.delay, k.nextId, Wrap(k.tick + timeout.value));
    }
  }

  lemma BlockWaiting(k: Kernel, home: Option<ListId>, payload: Payload, timeout: Option<Tick>)
    requires CanBlock(k, home, timeout)
    ensures forall m :: Waiting(Block(k, home, payload, timeout), m) <==> Waiting(k, m) || m == k.nextId
  {
    BlockEffect(k, home, payload, timeout);
  }

  lemma BlockKeepsReady(k: Kernel, home: Option<ListId>, payload: Payload, timeout: Option<Tick>)
    requires CanBlock(k, home, timeout)
    ensures ReadyInv(Block(k, home, payload, timeout))
  {
    BlockEffect(k, home, payload, timeout);
    var k' := Block(k, home, payload, timeout);
    forall q, i | 0 <= q < |k'.ready| && 0 <= i < |k'.ready[q]| ensures ReadyAt(k', k'.ready[q][i], q) {
      assert ReadyAt(k, k.ready[q][i], q);
    }
  }

  lemma BlockWaits(k: Kernel, home: Option<ListId>, payload: Payload, timeout: Option<Tick>, l: ListId)
    requires CanBlock(k, home, timeout)
    requires l in Block(k, home, payload, timeout).waits
    ensures var s := Block(k, home, payload, timeout).waits[l];
            s == Listed(k, l) + (if home == Some(l) then [k.nextId] else []) && NoDup(s)
  {
    var k' := Block(k, home, payload, timeout);
    BlockEffect(k, home, payload, timeout);
    assert k'.waits[l] == Listed(k', l);
    if home == Some(l) {
      FreshUnlinked(k);
      AppendNoDup(Listed(k, l), k.nextId);
    }
  }

  lemma BlockKeepsLists(k: Kernel, home: Option<ListId>, payload: Payload, timeout: Option<Tick>)
    requires CanBlock(k, home, timeout)
    ensures ListsInv(Block(k, home, payload, timeout))
  {
    var k' := Block(k, home, payload, timeout);
    forall l | l in k'.waits ensures NoDup(k'.waits[l]) {
      BlockWaits(k, home, payload, timeout, l);
    }
    BlockDelayed(k, home, payload, timeout);
    BlockEffect(k, home, payload, timeout);
    BlockWaiting(k, home, payload, timeout);
    forall l, n | l in k'.waits && n in k'.waits[l] ensures Waiting(k', n) && k'.nodes[n].home == Some(l) {
      BlockWaits(k, home, payload, timeout, l);
      assert n != k.nextId ==> n in Listed(k, l);
    }
  }

  lemma BlockKeepsBlocked(k: Kernel, home: Option<ListId>, payload: Payload, timeout: Option<Tick>)
    requires CanBlock(k, home, timeout)
    ensures BlockedInv(Block(k, home, payload, timeout))
  {
    BlockEffect(k, home, payload, timeout);
    BlockDelayed(k, home, payload, timeout);
    var k' := Block(k, home, payload, timeout);
    forall t | t in k'.tasks && k'.tasks[t].state == Blocked
      ensures var m := k'.tasks[t].awaiting; m in k'.nodes && k'.nodes[m].task == t && Parked(k', m)
    {
      if t != k.current.value {
        var m := k.tasks[t].awaiting;
        assert m in k.nodes && k.nodes[m].task == t && Parked(k, m);
        if k.nodes[m].home.Some? {
          BlockWaits(k, home, payload, timeout, k.nodes[m].home.value);
        }
      }
    }
  }

  lemma BlockKeepsInv(k: Kernel, home: Option<ListId>, payload: Payload, timeout: Option<Tick>)
    requires CanBlock(k, home, timeout)
    ensures Inv(Block(k, home, payload, timeout))
  {
    BlockKeepsReady(k, home, payload, timeout);
    BlockKeepsLists(k, home, payload, timeout);
    BlockKeepsBlocked(k, home, payload, timeout);
    BlockEffect(k, home, payload, timeout);
    BlockWaiting(k, home, payload, timeout);
  }

  lemma BlockFrame(k: Kernel, home: Option<ListId>, payload: Payload, timeout: Option<Tick>)
    requires CanBlock(k, home, timeout)
    ensures Frame(k, Block(k, home, payload, timeout), if home.Some? then {home.value} else {})
    ensures Sched(k, Block(k, home, payload, timeout), k.current)
  {
    BlockEffect(k, home, payload, timeout);
  }

  // ---------------------------------------------------------------- start, yield, finish, dispatch

  lemma StartKeepsInv(k: Kernel, priority: nat)
    requires Inv(k)
    ensures Inv(Start(k, priority)) && Frame(k, Start(k, priority), {}) && Sched(k, Start(k, priority), None)
  {
    hide ListsInv, BlockedInv, NodesInv, Frame, Sched, ReadyInv;
    StartEffect(k, priority);
    StartIsSched(k, priority);
    AppendKeepsReady(k, Start(k, priority), k.nextId);
    TasksGrow(k, Start(k, priority));
  }

  lemma StartIsSched(k: Kernel, priority: nat)
    requires Inv(k)
    ensures Frame(k, Start(k, priority), {}) && Sched(k, Start(k, priority), None)
  {
    hide ListsInv, BlockedInv;
  }

  /** A started task is Ready at the end of the list of its priority, which is the lowest one
      if the given priority does not exist. */
  lemma StartEffect(k: Kernel, priority: nat)
    requires Inv(k)
    ensures var k' := Start(k, priority); var t := k.nextId;
            && t !in k.tasks && t in k'.tasks && k'.tasks == k.tasks[t := Task(k'.tasks[t].prio, Ready, 0)]
            && (if priority < |k.ready| then k'.tasks[t].prio == priority else k'.tasks[t].prio + 1 == |k.ready|)
            && k'.ready == k.ready[k'.tasks[t].prio := k.ready[k'.tasks[t].prio] + [t]]
            && k'.nodes == k.nodes && k'.waits == k.waits && k'.delay == k.delay && k'.nextId == t + 1
            && k'.current == k.current && k'.runningPrio == k.runningPrio
  {
    hide ListsInv, BlockedInv;
  }

  /** A yielding task is Ready at the end of its own list; all else is as it was. */
  lemma YieldEffect(k: Kernel)
    requires Inv(k) && InTask(k)
    ensures var k' := Yield(k); var t := k.current.value; var p := k.tasks[t].prio;
            && k'.tasks == k.tasks[t := k.tasks[t].(state := Ready)]
            && k'.ready == k.ready[p := k.ready[p] + [t]]
            && k'.nodes == k.nodes && k'.waits == k.waits && k'.delay == k.delay
  {
  }

  /** The lists part of the invariant only looks at Blocked tasks. */
  lemma TasksGrow(k: Kernel, k': Kernel)
    requires ListsInv(k) && BlockedInv(k) && NodesInv(k)
    requires k'.nodes == k.nodes && k'.waits == k.waits && k'.delay == k.delay && k'.nextId >= k.nextId
    requires forall t :: t in k.tasks && k.tasks[t].state == Blocked ==> t in k'.tasks && k'.tasks[t] == k.tasks[t]
    requires forall t :: t in k'.tasks && k'.tasks[t].state == Blocked ==> t in k.tasks && k'.tasks[t] == k.tasks[t]
    ensures ListsInv(k') && BlockedInv(k') && NodesInv(k')
  {
    assert forall m :: Waiting(k', m) <==> Waiting(k, m);
    forall t | t in k'.tasks && k'.tasks[t].state == Blocked
      ensures var m := k'.tasks[t].awaiting; m in k'.nodes && k'.nodes[m].task == t && Parked(k', m)
    {
      var m := k.tasks[t].awaiting;
      assert m in k.nodes && k.nodes[m].task == t && Parked(k, m);
    }
  }

  lemma YieldKeepsInv(k: Kernel)
    requires Inv(k) && InTask(k)
    ensures Inv(Yield(k)) && Frame(k, Yield(k), {}) && Sched(k, Yield(k), k.current)
    ensures Yield(k).tasks[k.current.value].state == Ready
  {
    YieldIsSched(k);
    hide Sched;
    AppendKeepsReady(k, Yield(k), k.current.value);
    TasksGrow(k, Yield(k));
  }

  lemma YieldIsSched(k: Kernel)
    requires Inv(k) && InTask(k)
    ensures Frame(k, Yield(k), {}) && Sched(k, Yield(k), k.current)
  {
    hide ListsInv, BlockedInv;
  }

  lemma FinishKeepsInv(k: Kernel)
    requires Inv(k) && InTask(k)
    ensures Inv(Finish(k)) && Frame(k, Finish(k), {}) && Sched(k, Finish(k), k.current)
  {
    var k' := Finish(k);
    forall q, i | 0 <= q < |k'.ready| && 0 <= i < |k'.ready[q]| ensures ReadyAt(k', k'.ready[q][i], q) {
      assert ReadyAt(k, k.ready[q][i], q);
    }
    TasksGrow(k, k');
  }

  lemma HeadsAreTasks(k: Kernel)
    requires ReadyInv(k)
    ensures forall p :: 0 <= p < |k.ready| && k.ready[p] != [] ==> ReadyAt(k, k.ready[p][0], p)
  {
  }

  lemma DispatchEffect(k: Kernel, limit: nat)
    requires Inv(k) && limit <= |k.ready|
    requires Urgent(k.ready, limit) < limit
    ensures forall p :: 0 <= p < |k.ready| && k.ready[p] != [] ==> k.ready[p][0] in k.tasks
    ensures var p := Urgent(k.ready, limit); var t := k.ready[p][0]; var k' := Dispatch(k, limit);
            && ReadyAt(k, t, p)
            && k'.current == Some(t) && k'.runningPrio == p && InTask(k')
            && k'.tasks == k.tasks[t := k.tasks[t].(state := Running)]
            && k'.ready == k.ready[p := k.ready[p][1..]]
            && k' == k.(tasks := k'.tasks, ready := k'.ready, current := k'.current, runningPrio := p)
  {
    HeadsAreTasks(k);
  }

  lemma DispatchKeepsReady(k: Kernel, limit: nat)
    requires Inv(k) && limit <= |k.ready|
    requires Urgent(k.ready, limit) < limit
    requires forall p :: 0 <= p < |k.ready| && k.ready[p] != [] ==> k.ready[p][0] in k.tasks
    ensures ReadyInv(Dispatch(k, limit))
  {
    DispatchEffect(k, limit);
    var p := Urgent(k.ready, limit);
    var t := k.ready[p][0];
    var k' := Dispatch(k, limit);
    forall q, i | 0 <= q < |k'.ready| && 0 <= i < |k'.ready[q]| ensures ReadyAt(k', k'.ready[q][i], q) {
      var j := if q == p then i + 1 else i;
      assert k.ready[q][j] == k'.ready[q][i];
      assert ReadyAt(k, k.ready[q][j], q);
      assert k.ready[q][j] != t;
    }
    forall u | u in k'.tasks && k'.tasks[u].state == Ready ensures u in k'.ready[k'.tasks[u].prio] {
      var q := k.tasks[u].prio;
      var i :| 0 <= i < |k.ready[q]| && k.ready[q][i] == u;
      assert q == p ==> k'.ready[p][i - 1] == u;
      assert q != p ==> k'.ready[q][i] == u;
    }
  }

  /** Dispatching takes the head of the most urgent list and makes it the running task. */
  lemma DispatchKeepsInv(k: Kernel, limit: nat)
    requires Inv(k) && limit <= |k.ready|
    requires Urgent(k.ready, limit) < limit
    ensures forall p :: 0 <= p < |k.ready| && k.ready[p] != [] ==> k.ready[p][0] in k.tasks
    ensures Inv(Dispatch(k, limit)) && Frame(k, Dispatch(k, limit), {})
  {
    hide ListsInv, BlockedInv, NodesInv, ReadyInv, Dispatch;
    DispatchEffect(k, limit);
    DispatchKeepsReady(k, limit);
    TasksGrow(k, Dispatch(k, limit));
  }

  // ---------------------------------------------------------------- composition

  lemma FrameTrans(a: Kernel, b: Kernel, c: Kernel, own: set<ListId>)
    requires Frame(a, b, own) && Frame(b, c, own)
    ensures Frame(a, c, own)
  {
  }

  lemma FrameWiden(a: Kernel, b: Kernel, own: set<ListId>, wider: set<ListId>)
    requires Frame(a, b, own) && own <= wider
    ensures Frame(a, b, wider)
  {
  }

  lemma SchedTrans(a: Kernel, b: Kernel, c: Kernel, self: Option<TaskId>)
    requires Sched(a, b, None) && Sched(b, c, self)
    ensures Sched(a, c, self)
  {
    forall p | 0 <= p < |a.ready| ensures a.ready[p] <= c.ready[p] {
      assert a.ready[p] <= b.ready[p] <= c.ready[p];
    }
    if a.preemptive && a.runningPrio != NO_RUNNING_TASK {
      forall p | 0 <= p < |a.ready| && p < a.runningPrio && c.ready[p] != a.ready[p] ensures c.pendingPreempt {
        assert b.ready[p] != a.ready[p] || c.ready[p] != b.ready[p];
      }
    }
  }
}
