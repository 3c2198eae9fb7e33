/** What a critical section can do to the kernel, said in terms of lists, tasks and nodes. */
module Effects {
  import opened Sequences
  import opened Time
  import opened Kernel
  import opened KernelProofs
  import opened Requests

  /** Nothing but the supply of numbers has changed. */
  ghost predicate Untouched(k: Kernel, k': Kernel) {
    k.nextId <= k'.nextId && k' == k.(nextId := k'.nextId)
  }

  /** The scheduler's registers and clocks are as they were. */
  ghost predicate SameRegisters(k: Kernel, k': Kernel) {
    && k'.current == k.current && k'.runningPrio == k.runningPrio
    && k'.tick == k.tick && k'.clock == k.clock && k'.preemptive == k.preemptive
  }

  /** A node that the current task waits at from now on. */
  ghost predicate FreshNode(k: Kernel, node: WaitNode, home: Option<ListId>, timeout: Option<Tick>) {
    && k.current == Some(node.task) && node.home == home
    && node.wakes == 0 && !node.timedOut
    && (node.timed <==> timeout.Some?)
    && (timeout.Some? ==> node.due == k.clock + timeout.value)
  }

  /** The current task, and no other, is Blocked at a new node, which is last on its wait list,
      if it has one, and on the delay list exactly if a timeout was given. */
  ghost predicate Suspends(k: Kernel, k': Kernel, home: Option<ListId>, timeout: Option<Tick>) {
    var n := k.nextId;
    && n !in k.nodes && n in k'.nodes && k'.nodes - {n} == k.nodes && FreshNode(k, k'.nodes[n], home, timeout)
    && k.current.Some? && k.current.value in k.tasks && k.current.value in k'.tasks
    && k'.tasks - {k.current.value} == k.tasks - {k.current.value}
    && k'.tasks[k.current.value].state == Blocked && k'.tasks[k.current.value].awaiting == n
    && (forall l :: Listed(k', l) == if home == Some(l) then Listed(k, l) + [n] else Listed(k, l))
    && n !in k.delay && (n in k'.delay <==> timeout.Some?) && Remove(k'.delay, n) == k.delay
    && k'.ready == k.ready && k'.pendingPreempt == k.pendingPreempt && SameRegisters(k, k')
  }

  /** The task, and no other, is Ready at the end of the list of its priority, and the handler is
      pended exactly if that is above the running task. */
  ghost predicate Readies(k: Kernel, k': Kernel, t: TaskId)
    requires t in k.tasks
  {
    var p := k.tasks[t].prio;
    && t in k'.tasks && k'.tasks - {t} == k.tasks - {t} && k'.tasks[t] == k.tasks[t].(state := Ready)
    && |k'.ready| == |k.ready|
    && (forall q :: 0 <= q < |k.ready| ==> k'.ready[q] == if q == p then k.ready[q] + [t] else k.ready[q])
    && (k'.pendingPreempt <==>
          k.pendingPreempt || (k.preemptive && k.runningPrio != NO_RUNNING_TASK && p < k.runningPrio))
  }

  /** The waiter, and no other, is woken by its event: it is off every list and its task Ready. */
  ghost predicate Wakes(k: Kernel, k': Kernel, n: NodeId, payload: Payload) {
    && n in k.nodes && n in k'.nodes && k'.nodes - {n} == k.nodes - {n}
    && k'.nodes[n] == k.nodes[n].(payload := payload, timedOut := false, wakes := 1)
    && k.nodes[n].task in k.tasks && Readies(k, k', k.nodes[n].task)
    && (forall l :: Listed(k', l) == Remove(Listed(k, l), n))
    && k'.delay == Remove(k.delay, n)
    && SameRegisters(k, k')
  }

  // ---------------------------------------------------------------- the operations of the kernel

  lemma StampTouchesNothing(k: Kernel)
    ensures Untouched(k, Stamp(k))
  {
  }

  lemma BlockSuspends(k: Kernel, home: Option<ListId>, payload: Payload, timeout: Option<Tick>)
    requires CanBlock(k, home, timeout)
    ensures var k' := Block(k, home, payload, timeout);
            Suspends(k, k', home, timeout) && k'.nodes[k.nextId].payload == payload
  {
    hide Inv, DelayInsert, Wrap;
    FreshUnlinked(k);
    DelayIsSound(k);
    InsertedDelay(k, timeout);
    BlockEffect(k, home, payload, timeout);
    EpisodeIsFresh(k, home, payload, timeout);
    BlockDelay(k, home, payload, timeout);
    hide Block;
  }

  lemma EpisodeIsFresh(k: Kernel, home: Option<ListId>, payload: Payload, timeout: Option<Tick>)
    requires k.current.Some?
    ensures FreshNode(k, Episode(k, k.current.value, home, payload, timeout), home, timeout)
    ensures Episode(k, k.current.value, home, payload, timeout).payload == payload
  {
  }

  lemma BlockDelay(k: Kernel, home: Option<ListId>, payload: Payload, timeout: Option<Tick>)
    requires CanBlock(k, home, timeout) && forall m :: m in k.delay ==> m in k.nodes
    ensures Block(k, home, payload, timeout).delay
            == if timeout.Some? then DelayInsert(k.nodes, k.delay, k.nextId, Wrap(k.tick + timeout.value)) else k.delay
  {
    hide Inv, DelayInsert, Wrap;
  }

  lemma InsertedDelay(k: Kernel, timeout: Option<Tick>)
    requires (forall m :: m in k.delay ==> m in k.nodes) && k.nextId !in k.delay
    ensures timeout.Some? ==>
      var d := DelayInsert(k.nodes, k.delay, k.nextId, Wrap(k.tick + timeout.value));
      k.nextId in d && Remove(d, k.nextId) == k.delay
  {
    hide Wrap;
    if timeout.Some? {
      InsertRemoved(k.delay, DelayPosition(k.nodes, k.delay, Wrap(k.tick + timeout.value)), k.nextId);
    }
  }

  lemma InsertRemoved(s: seq<NodeId>, i: nat, n: NodeId)
    requires i <= |s| && n !in s
    ensures n in InsertAt(s, i, n) && Remove(InsertAt(s, i, n), n) == s
  {
    var t := InsertAt(s, i, n);
    assert t[i] == n;
    assert t == s[..i] + ([n] + s[i..]);
    RemoveAppend(s[..i], [n] + s[i..], n);
    assert ([n] + s[i..])[1..] == s[i..] && s[..i] + s[i..] == s;
  }

  lemma WakeWakes(k: Kernel, n: NodeId)
    requires Inv(k) && Waiting(k, n)
    ensures Wakes(k, Wake(k, n, false), n, k.nodes[n].payload)
  {
    hide ReadyInv, BlockedInv, ListsInv, NodesInv, Readies;
    WakeEffect(k, n, false);
    WakeReadies(k, n);
    WakeLists(k, n);
    assert k.nodes[n].(payload := k.nodes[n].payload) == k.nodes[n];
  }

  lemma WakeReadies(k: Kernel, n: NodeId)
    requires Inv(k) && Waiting(k, n)
    ensures Readies(k, Wake(k, n, false), k.nodes[n].task) && SameRegisters(k, Wake(k, n, false))
  {
    hide ListsInv, BlockedInv, NodesInv;
    WakeMakesReady(k, n, false);
  }

  lemma WakeLists(k: Kernel, n: NodeId)
    requires Inv(k) && Waiting(k, n)
    ensures forall l :: Listed(Wake(k, n, false), l) == Remove(Listed(k, l), n)
  {
    hide ListsInv, BlockedInv, NodesInv;
    WakeEffect(k, n, false);
    forall l ensures Listed(Wake(k, n, false), l) == Remove(Listed(k, l), n) {
      assert l in Wake(k, n, false).waits.Keys <==> l in k.waits.Keys;
    }
  }

  /** Handing something over through the waiter's payload pointer, then waking it. */
  lemma DeliverWakes(k: Kernel, n: NodeId, payload: Payload)
    requires Inv(k) && Waiting(k, n)
    ensures Inv(Deliver(k, n, payload)) && Waiting(Deliver(k, n, payload), n)
    ensures Wakes(k, Wake(Deliver(k, n, payload), n, false), n, payload)
  {
    DeliverKeepsInv(k, n, payload);
    WaitingNode(k, n);
    hide Inv, Waiting, Wakes;
    WakeWakes(Deliver(k, n, payload), n);
    AfterDelivery(k, Wake(Deliver(k, n, payload), n, false), n, payload);
  }

  lemma WaitingNode(k: Kernel, n: NodeId)
    requires Waiting(k, n)
    ensures n in k.nodes && k.nodes[n].task in k.tasks
  {
  }

  lemma AfterDelivery(k: Kernel, k': Kernel, n: NodeId, payload: Payload)
    requires n in k.nodes && Wakes(Deliver(k, n, payload), k', n, payload)
    ensures Wakes(k, k', n, payload)
  {
    hide Readies;
    ReadiesAfterDelivery(k, k', n, payload);
    assert Deliver(k, n, payload).nodes - {n} == k.nodes - {n};
    forall l ensures Listed(Deliver(k, n, payload), l) == Listed(k, l) {
    }
  }

  lemma ReadiesAfterDelivery(k: Kernel, k': Kernel, n: NodeId, payload: Payload)
    requires n in k.nodes && k.nodes[n].task in k.tasks && Readies(Deliver(k, n, payload), k', k.nodes[n].task)
    ensures Readies(k, k', k.nodes[n].task)
  {
  }

  lemma ThenStamped(k: Kernel, k': Kernel, n: NodeId, payload: Payload)
    requires Wakes(k, k', n, payload)
    ensures Wakes(k, Stamp(k'), n, payload)
  {
  }
}
