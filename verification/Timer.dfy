/** The wrapping timer of the kernel refines an unbounded clock. */
module Timer {
  import opened Sequences
  import opened Time
  import opened Kernel
  import opened KernelProofs
  import opened Waking

  /** The longest timeout whose deadline the signed comparison still orders truly. */
  const MAX_TIMEOUT: int := HALF_SPAN - 1

  ghost predicate InWindow(k: Kernel, n: NodeId) {
    && n in k.nodes
    && k.nodes[n].deadline == Wrap(k.nodes[n].due)
    && k.clock <= k.nodes[n].due <= k.clock + MAX_TIMEOUT
  }

  /** True deadline order; nodes are numbered in the order in which they block, so equal
      deadlines are in FIFO order. */
  ghost predicate Before(nodes: map<NodeId, WaitNode>, m: NodeId, n: NodeId) {
    && m in nodes && n in nodes
    && (nodes[m].due < nodes[n].due || (nodes[m].due == nodes[n].due && m < n))
  }

  ghost predicate Ordered(nodes: map<NodeId, WaitNode>, s: seq<NodeId>) {
    forall i, j :: 0 <= i < j < |s| ==> Before(nodes, s[i], s[j])
  }

  ghost predicate TimeInv(k: Kernel) {
    && k.tick == Wrap(k.clock)
    && (forall n {:trigger n in k.delay} :: n in k.delay ==> InWindow(k, n))
    && Ordered(k.nodes, k.delay)
  }

  ghost predicate DueBy(nodes: map<NodeId, WaitNode>, n: NodeId, instant: int) {
    n in nodes && nodes[n].due <= instant
  }

  ghost predicate DueAfter(nodes: map<NodeId, WaitNode>, n: NodeId, instant: int) {
    n in nodes && nodes[n].due > instant
  }

  // ---------------------------------------------------------------- arming a deadline

  lemma ComparesTruly(k: Kernel, n: NodeId, instant: int)
    requires InWindow(k, n) && k.clock <= instant <= k.clock + MAX_TIMEOUT
    ensures DeadlineLe(k.nodes[n].deadline, Wrap(instant)) <==> k.nodes[n].due <= instant
  {
    DeadlineLeExact(k.nodes[n].due, instant);
  }

  ghost predicate SplitsAt(k: Kernel, i: nat, instant: int)
    requires i <= |k.delay|
  {
    && (forall j :: 0 <= j < i ==> DueBy(k.nodes, k.delay[j], instant))
    && (forall j :: i <= j < |k.delay| ==> DueAfter(k.nodes, k.delay[j], instant))
  }

  /** Where the wrapped comparison splits the delay list, the true deadlines split it too. */
  lemma SplitIsTrue(k: Kernel, i: nat, instant: int)
    requires TimeInv(k) && i <= |k.delay|
    requires k.clock <= instant <= k.clock + MAX_TIMEOUT
    requires forall j :: 0 <= j < i ==> k.delay[j] in k.nodes && DeadlineLe(k.nodes[k.delay[j]].deadline, Wrap(instant))
    requires i < |k.delay| ==> k.delay[i] in k.nodes && !DeadlineLe(k.nodes[k.delay[i]].deadline, Wrap(instant))
    ensures SplitsAt(k, i, instant)
  {
    forall j | 0 <= j < i ensures DueBy(k.nodes, k.delay[j], instant) {
      assert k.delay[j] in k.delay;
      ComparesTruly(k, k.delay[j], instant);
    }
    if i < |k.delay| {
      assert k.delay[i] in k.delay;
      ComparesTruly(k, k.delay[i], instant);
    }
    forall j | i <= j < |k.delay| ensures DueAfter(k.nodes, k.delay[j], instant) {
      assert i < j ==> Before(k.nodes, k.delay[i], k.delay[j]);
    }
  }

  lemma DelayedAreNodes(k: Kernel)
    requires ListsInv(k)
    ensures forall n :: n in k.delay ==> n in k.nodes
  {
  }

  lemma SameInstant(k: Kernel, timeout: Tick)
    requires k.tick == Wrap(k.clock)
    ensures Wrap(k.tick + timeout) == Wrap(k.clock + timeout)
  {
  }

  /** The scan of the delay list stops at the first node whose true deadline is later. */
  lemma PositionIsTrue(k: Kernel, timeout: Tick)
    requires ListsInv(k) && TimeInv(k) && timeout <= MAX_TIMEOUT
    ensures Wrap(k.tick + timeout) == Wrap(k.clock + timeout)
    ensures (forall n :: n in k.delay ==> n in k.nodes)
    ensures SplitsAt(k, DelayPosition(k.nodes, k.delay, Wrap(k.tick + timeout)), k.clock + timeout)
  {
    hide ListsInv, Ordered, InWindow, DeadlineLe, SplitsAt, Wrap;
    DelayedAreNodes(k);
    SameInstant(k, timeout);
    DelayPositionSplits(k.nodes, k.delay, Wrap(k.tick + timeout));
    forall j | 0 <= j < |k.delay| ensures k.delay[j] in k.nodes {
      assert k.delay[j] in k.delay;
    }
    SplitIsTrue(k, DelayPosition(k.nodes, k.delay, Wrap(k.tick + timeout)), k.clock + timeout);
  }

  lemma OrderedInsert(nodes: map<NodeId, WaitNode>, nodes': map<NodeId, WaitNode>, s: seq<NodeId>, i: nat, n: NodeId)
    requires Ordered(nodes, s) && i <= |s| && n in nodes'
    requires forall j :: 0 <= j < |s| ==> s[j] in nodes && s[j] in nodes' && nodes'[s[j]] == nodes[s[j]] && s[j] < n
    requires forall j :: 0 <= j < i ==> DueBy(nodes, s[j], nodes'[n].due)
    requires forall j :: i <= j < |s| ==> DueAfter(nodes, s[j], nodes'[n].due)
    ensures Ordered(nodes', InsertAt(s, i, n))
  {
    var r := InsertAt(s, i, n);
    forall a, b | 0 <= a < b < |r| ensures Before(nodes', r[a], r[b]) {
      var a' := if a < i then a else a - 1;
      var b' := if b < i then b else b - 1;
      assert a != i ==> r[a] == s[a'];
      assert b != i ==> r[b] == s[b'];
      if a != i && b != i {
        assert Before(nodes, s[a'], s[b']);
      }
    }
  }

  lemma ListsPart(k: Kernel)
    requires Inv(k)
    ensures ListsInv(k)
  {
  }

  lemma ArmedInOrder(k: Kernel, home: Option<ListId>, payload: Payload, timeout: Tick)
    requires CanBlock(k, home, Some(timeout)) && TimeInv(k) && timeout <= MAX_TIMEOUT
    ensures Ordered(Block(k, home, payload, Some(timeout)).nodes, Block(k, home, payload, Some(timeout)).delay)
  {
    hide Inv, ListsInv, DeadlineLe, InWindow, Wrap;
    ListsPart(k);
    DelayIsSound(k);
    FreshUnlinked(k);
    NodesAreOlder(k);
    PositionIsTrue(k, timeout);
    var i := DelayPosition(k.nodes, k.delay, Wrap(k.tick + timeout));
    forall j | 0 <= j < |k.delay| ensures k.delay[j] in k.nodes && k.delay[j] < k.nextId {
      assert k.delay[j] in k.delay;
    }
    OrderedInsert(k.nodes, Block(k, home, payload, Some(timeout)).nodes, k.delay, i, k.nextId);
  }

  lemma NodesAreOlder(k: Kernel)
    requires Inv(k)
    ensures forall n :: n in k.delay ==> n < k.nextId
  {
  }

  lemma ArmedInWindow(k: Kernel, home: Option<ListId>, payload: Payload, timeout: Tick)
    requires CanBlock(k, home, Some(timeout)) && TimeInv(k) && timeout <= MAX_TIMEOUT
    ensures var k' := Block(k, home, payload, Some(timeout));
            forall n {:trigger n in k'.delay} :: n in k'.delay ==> InWindow(k', n)
  {
    hide Inv, ListsInv, DeadlineLe, Ordered, DelayInsert;
    DelayIsSound(k);
    ListsPart(k);
    PositionIsTrue(k, timeout);
    BlockDelayed(k, home, payload, Some(timeout));
    FreshUnlinked(k);
  }

  /** Blocking with a timeout inserts the new deadline at its true place. */
  lemma BlockKeepsTime(k: Kernel, home: Option<ListId>, payload: Payload, timeout: Option<Tick>)
    requires CanBlock(k, home, timeout) && TimeInv(k)
    requires timeout.Some? ==> timeout.value <= MAX_TIMEOUT
    ensures TimeInv(Block(k, home, payload, timeout))
  {
    hide Inv, Ordered, InWindow, DelayInsert;
    DelayIsSound(k);
    if timeout.Some? {
      ArmedInOrder(k, home, payload, timeout.value);
      ArmedInWindow(k, home, payload, timeout.value);
    } else {
      FreshUnlinked(k);
      SameDelayKeepsTime(k, Block(k, home, payload, timeout));
    }
  }

  /** The timer invariant looks at the delay list, its nodes and the clock only. */
  lemma SameDelayKeepsTime(k: Kernel, k': Kernel)
    requires TimeInv(k)
    requires k'.tick == k.tick && k'.clock == k.clock && k'.delay == k.delay
    requires forall n {:trigger n in k.delay} :: n in k.delay ==>
      n in k'.nodes && k'.nodes[n].due == k.nodes[n].due && k'.nodes[n].deadline == k.nodes[n].deadline
    ensures TimeInv(k')
  {
    forall i, j | 0 <= i < j < |k.delay| ensures Before(k'.nodes, k.delay[i], k.delay[j]) {
      assert k.delay[i] in k.delay && k.delay[j] in k.delay;
      assert Before(k.nodes, k.delay[i], k.delay[j]);
    }
  }

  lemma {:induction false} OrderedRemove(nodes: map<NodeId, WaitNode>, s: seq<NodeId>, n: NodeId)
    requires Ordered(nodes, s)
    ensures Ordered(nodes, Remove(s, n))
  {
    if s != [] && s[0] != n {
      OrderedRemove(nodes, s[1..], n);
      var r := Remove(s[1..], n);
      forall j | 0 <= j < |r| ensures Before(nodes, s[0], r[j]) {
        assert r[j] in s[1..];
      }
    }
  }

  lemma WakeKeepsTime(k: Kernel, n: NodeId, timedOut: bool)
    requires Inv(k) && Waiting(k, n) && TimeInv(k)
    ensures TimeInv(Wake(k, n, timedOut))
  {
    WakeEffect(k, n, timedOut);
    OrderedRemove(k.nodes, k.delay, n);
    SameDelayKeepsTime(k.(delay := Remove(k.delay, n)), Wake(k, n, timedOut));
  }

  // ---------------------------------------------------------------- ticking

  /** How many nodes at the front of the delay list compare as due. */
  function DueCount(nodes: map<NodeId, WaitNode>, delay: seq<NodeId>, now: Tick): (c: nat)
    requires forall n :: n in delay ==> n in nodes
    ensures c <= |delay|
  {
    if delay == [] || !DeadlineLe(nodes[delay[0]].deadline, now) then 0
    else 1 + DueCount(nodes, delay[1..], now)
  }

  function Advance(k: Kernel): Kernel {
    k.(tick := Wrap(k.tick + 1), clock := k.clock + 1)
  }

  lemma AdvanceKeepsInv(k: Kernel)
    requires Inv(k)
    ensures Inv(Advance(k)) && Frame(k, Advance(k), {}) && Sched(k, Advance(k), None)
    ensures forall n :: Waiting(Advance(k), n) <==> Waiting(k, n)
  {
    var k' := Advance(k);
    forall q, i | 0 <= q < |k'.ready| && 0 <= i < |k'.ready[q]| ensures ReadyAt(k', k'.ready[q][i], q) {
      assert ReadyAt(k, k.ready[q][i], q);
    }
    TasksGrow(k, k');
  }

  function DueNodes(k: Kernel): (ns: seq<NodeId>)
    requires Inv(k)
    ensures AllWaiting(Advance(k), ns) && AllTimed(Advance(k), ns)
  {
    AdvanceKeepsInv(k);
    k.delay[..DueCount(k.nodes, k.delay, Wrap(k.tick + 1))]
  }

  /** `tick_isr`: advance the counter, then wake everything at the front that compares as due. */
  function TickIsr(k: Kernel): Kernel
    requires Inv(k)
  {
    AdvanceKeepsInv(k);
    WakeAll(Advance(k), DueNodes(k), true)
  }

  lemma {:induction false} DueCountSplits(nodes: map<NodeId, WaitNode>, delay: seq<NodeId>, now: Tick)
    requires forall n :: n in delay ==> n in nodes
    ensures var c := DueCount(nodes, delay, now);
            && (forall j :: 0 <= j < c ==> DeadlineLe(nodes[delay[j]].deadline, now))
            && (c < |delay| ==> !DeadlineLe(nodes[delay[c]].deadline, now))
  {
    if delay != [] {
      DueCountSplits(nodes, delay[1..], now);
    }
  }

  /** The nodes a tick takes off the front are those whose true deadline has arrived. */
  lemma DueIsTrue(k: Kernel)
    requires Inv(k) && TimeInv(k)
    ensures SplitsAt(k, |DueNodes(k)|, k.clock + 1)
  {
    DelayedAreNodes(k);
    DueCountSplits(k.nodes, k.delay, Wrap(k.tick + 1));
    assert Wrap(k.tick + 1) == Wrap(k.clock + 1);
    SplitIsTrue(k, DueCount(k.nodes, k.delay, Wrap(k.tick + 1)), k.clock + 1);
  }

  lemma WaitingTimedIsDelayed(k: Kernel, n: NodeId)
    requires Inv(k) && n in k.nodes && k.nodes[n].wakes == 0
    ensures k.nodes[n].timed <==> n in k.delay
  {
    assert Waiting(k, n);
    assert k.nodes[n].task in k.tasks;
  }

  /** A waiter is among the due nodes exactly when it has a deadline and that has arrived. */
  lemma DueNodesExact(k: Kernel, n: NodeId)
    requires Inv(k) && TimeInv(k)
    requires n in k.nodes
    ensures n in DueNodes(k) <==> k.nodes[n].wakes == 0 && k.nodes[n].timed && k.nodes[n].due <= k.clock + 1
  {
    DueIsTrue(k);
    var ns := DueNodes(k);
    if n in ns {
      var j :| 0 <= j < |ns| && ns[j] == n;
      assert n == k.delay[j] && n in k.delay && DueBy(k.nodes, k.delay[j], k.clock + 1);
    } else if k.nodes[n].wakes == 0 && k.nodes[n].timed {
      WaitingTimedIsDelayed(k, n);
      var j :| 0 <= j < |k.delay| && k.delay[j] == n;
      assert forall i :: 0 <= i < |ns| ==> k.delay[i] == ns[i];
      assert DueAfter(k.nodes, k.delay[j], k.clock + 1);
    }
  }

  lemma TickEffect(k: Kernel)
    requires Inv(k)
    ensures var k' := TickIsr(k);
            && Inv(k') && NodesAfter(k, k', DueNodes(k), true)
            && k'.clock == k.clock + 1 && k'.tick == Wrap(k.tick + 1) && k'.nextId == k.nextId
            && k'.delay == k.delay[|DueNodes(k)|..] && k'.tasks.Keys == k.tasks.Keys
            && Sched(k, k', None)
  {
    AdvanceKeepsInv(k);
    WakeAllNodes(Advance(k), DueNodes(k), true);
    WakeAllLists(Advance(k), DueNodes(k), true);
    WakeAllSched(Advance(k), DueNodes(k), true);
    WakeAllTasks(Advance(k), DueNodes(k), true);
    SchedTrans(k, Advance(k), TickIsr(k), None);
    WithoutPrefix(k.delay, |DueNodes(k)|);
  }

  lemma SuffixKeepsTime(k: Kernel, k': Kernel, c: nat)
    requires TimeInv(k) && c <= |k.delay| && SplitsAt(k, c, k.clock + 1)
    requires k'.clock == k.clock + 1 && k'.tick == Wrap(k.tick + 1) && k'.delay == k.delay[c..]
    requires forall j :: c <= j < |k.delay| ==>
      k.delay[j] in k.nodes && k.delay[j] in k'.nodes && k'.nodes[k.delay[j]] == k.nodes[k.delay[j]]
    ensures TimeInv(k')
  {
    var s := k'.delay;
    forall i, j | 0 <= i < j < |s| ensures Before(k'.nodes, s[i], s[j]) {
      assert Before(k.nodes, k.delay[c + i], k.delay[c + j]);
    }
    forall n | n in s ensures InWindow(k', n) {
      var j :| 0 <= j < |s| && s[j] == n;
      assert k.delay[c + j] in k.delay && DueAfter(k.nodes, k.delay[c + j], k.clock + 1);
    }
  }

  lemma TickKeepsTime(k: Kernel)
    requires Inv(k) && TimeInv(k)
    ensures TimeInv(TickIsr(k))
  {
    var c := |DueNodes(k)|;
    TickEffect(k);
    DueIsTrue(k);
    forall j | c <= j < |k.delay|
      ensures k.delay[j] in k.nodes && k.delay[j] in TickIsr(k).nodes
      ensures TickIsr(k).nodes[k.delay[j]] == k.nodes[k.delay[j]]
    {
      assert k.delay[j] in k.delay && k.delay[j] in k.nodes;
      DueNodesExact(k, k.delay[j]);
    }
    SuffixKeepsTime(k, TickIsr(k), c);
  }

  /** What a tick does to one node: a timed waiter whose true deadline has arrived is woken
      and told so; every other node, waiting or already woken, is left as it is. */
  ghost predicate Timely(k: Kernel, k': Kernel, n: NodeId)
    requires n in k.nodes && n in k'.nodes
  {
    var node := k.nodes[n];
    k'.nodes[n] ==
      if node.wakes == 0 && node.timed && node.due <= k'.clock then node.(timedOut := true, wakes := 1) else node
  }

  /** A tick wakes exactly the waiters whose true deadline has arrived, none early and none
      left behind, through any number of wraps of the counter. */
  lemma TickIsExact(k: Kernel)
    requires Inv(k) && TimeInv(k)
    ensures var k' := TickIsr(k);
            && Inv(k') && TimeInv(k') && k'.clock == k.clock + 1
            && k'.nodes.Keys == k.nodes.Keys
            && forall n {:trigger n in k'.nodes} :: n in k.nodes ==> n in k'.nodes && Timely(k, k', n)
  {
    TickEffect(k);
    TickKeepsTime(k);
    forall n | n in k.nodes ensures n in TickIsr(k).nodes && Timely(k, TickIsr(k), n) {
      DueNodesExact(k, n);
    }
  }
}
