/** In which order the tasks that one critical section wakes join the ready lists. */
module WakeOrder {
  import opened Kernel
  import opened KernelProofs
  import opened Waking
  import opened Timer
  import opened System
  import opened Runs
  import E = EventGroup

  // ---------------------------------------------------------------- a tick

  lemma AdvanceSame(k: Kernel)
    requires Inv(k)
    ensures Advance(k).nodes == k.nodes && Advance(k).tasks == k.tasks && Advance(k).ready == k.ready
    ensures Known(k, DueNodes(k)) && Known(Advance(k), DueNodes(k))
  {
    WaitingKnown(Advance(k), DueNodes(k));
  }

  lemma DueOrdered(k: Kernel)
    requires Inv(k) && TimeInv(k)
    ensures Ordered(k.nodes, DueNodes(k))
  {
    var due := DueNodes(k);
    forall i, j | 0 <= i < j < |due| ensures Before(k.nodes, due[i], due[j]) {
      assert due[i] == k.delay[i] && due[j] == k.delay[j];
    }
  }

  /** A tick appends to each ready list the tasks of that priority whose true deadline has come,
      in the order of their deadlines, FIFO among equals, and changes nothing else in it. */
  lemma TickReadiesInOrder(k: Kernel, p: nat)
    requires Inv(k) && TimeInv(k) && p < |k.ready|
    ensures var due := DueNodes(k);
            && Known(k, due) && Ordered(k.nodes, due)
            && (forall n :: n in k.nodes ==>
                  (n in due <==> k.nodes[n].wakes == 0 && k.nodes[n].timed && k.nodes[n].due <= k.clock + 1))
            && |TickIsr(k).ready| == |k.ready| && TickIsr(k).ready[p] == k.ready[p] + TasksAt(k, due, p)
  {
    hide Inv, TimeInv, Ordered, DueNodes;
    AdvanceKeepsInv(k);
    AdvanceSame(k);
    DueOrdered(k);
    WakeAllReady(Advance(k), DueNodes(k), true, p);
    TasksAtSame(Advance(k), k, DueNodes(k), p);
    forall n | n in k.nodes
      ensures n in DueNodes(k) <==> k.nodes[n].wakes == 0 && k.nodes[n].timed && k.nodes[n].due <= k.clock + 1
    {
      DueNodesExact(k, n);
    }
  }

  lemma OrderedIndices(nodes: map<NodeId, WaitNode>, s: seq<NodeId>, i: nat, j: nat)
    requires Ordered(nodes, s) && i < |s| && j < |s| && Before(nodes, s[i], s[j])
    ensures i < j
  {
  }

  /** Among the waiters of one priority that a tick wakes, the one with the earlier deadline, or
      that was armed first for the same one, comes first, and all come after those that were
      ready before. */
  lemma EarlierFirst(k: Kernel, m: NodeId, n: NodeId, p: nat) returns (a: nat, b: nat)
    requires Inv(k) && TimeInv(k) && m in DueNodes(k) && n in DueNodes(k) && Before(k.nodes, m, n)
    requires Known(k, DueNodes(k)) && p < |k.ready|
    requires k.tasks[k.nodes[m].task].prio == p == k.tasks[k.nodes[n].task].prio
    ensures |TickIsr(k).ready| == |k.ready|
    ensures |k.ready[p]| <= a < b < |TickIsr(k).ready[p]|
    ensures TickIsr(k).ready[p][a] == k.nodes[m].task && TickIsr(k).ready[p][b] == k.nodes[n].task
  {
    hide Inv, TimeInv, DueNodes;
    TickReadiesInOrder(k, p);
    var due := DueNodes(k);
    var i :| 0 <= i < |due| && due[i] == m;
    var j :| 0 <= j < |due| && due[j] == n;
    OrderedIndices(k.nodes, due, i, j);
    a, b := TasksAtOrder(k, due, p, i, j);
    a, b := |k.ready[p]| + a, |k.ready[p]| + b;
  }

  // ---------------------------------------------------------------- a set

  /** The waiters that `set` wakes, in waiting order. */
  function Firing(k: Kernel, ns: seq<NodeId>, bits: bv32): (r: seq<NodeId>)
    ensures forall n :: n in r <==> n in ns && E.Fires(k, n, bits)
  {
    if ns == [] then []
    else (if E.Fires(k, ns[0], bits) then [ns[0]] else []) + Firing(k, ns[1..], bits)
  }

  lemma {:induction false} FiringSame(k: Kernel, k1: Kernel, ns: seq<NodeId>, bits: bv32)
    requires forall i :: 0 <= i < |ns| ==> (E.Fires(k1, ns[i], bits) <==> E.Fires(k, ns[i], bits))
    ensures Firing(k1, ns, bits) == Firing(k, ns, bits)
  {
    hide E.Fires;
    if ns != [] {
      assert forall i :: 0 <= i < |ns| - 1 ==> ns[1..][i] == ns[i + 1];
      FiringSame(k, k1, ns[1..], bits);
    }
  }

  lemma FiringKnown(k: Kernel, ns: seq<NodeId>, bits: bv32)
    requires AllWaiting(k, ns)
    ensures Known(k, Firing(k, ns, bits))
  {
    hide E.Fires;
    var r := Firing(k, ns, bits);
    forall i | 0 <= i < |r| ensures r[i] in k.nodes && k.nodes[r[i]].task in k.tasks {
      assert r[i] in r && r[i] in ns;
    }
  }

  /** One turn of the loop in `set`. */
  lemma VisitReadies(k: Kernel, n: NodeId, bits: bv32, p: nat)
    requires Inv(k) && Waiting(k, n) && p < |k.ready|
    ensures var k1 := E.Visit(k, n, bits); var t := k.nodes[n].task;
            && |k1.ready| == |k.ready|
            && k1.ready[p] == k.ready[p] + (if E.Fires(k, n, bits) && k.tasks[t].prio == p then [t] else [])
            && (forall u {:trigger u in k1.tasks} :: u in k.tasks ==>
                  u in k1.tasks && k1.tasks[u].prio == k.tasks[u].prio)
            && (forall m {:trigger m in k1.nodes} :: m in k.nodes ==>
                  m in k1.nodes && k1.nodes[m].task == k.nodes[m].task)
  {
    hide E.Met, ListsInv, BlockedInv, NodesInv;
    if E.Fires(k, n, bits) {
      var info := k.nodes[n].payload.(result := bits);
      DeliverKeepsInv(k, n, info);
      WakeEffect(Deliver(k, n, info), n, false);
    }
  }

  lemma {:induction false} VisitAllReadies(k: Kernel, ns: seq<NodeId>, bits: bv32, p: nat)
    requires Inv(k) && AllWaiting(k, ns) && p < |k.ready|
    ensures Known(k, Firing(k, ns, bits))
    ensures |E.VisitAll(k, ns, bits).ready| == |k.ready|
    ensures E.VisitAll(k, ns, bits).ready[p] == k.ready[p] + TasksAt(k, Firing(k, ns, bits), p)
    decreases |ns|
  {
    hide Inv, AllWaiting, Waiting, E.Fires, E.Visit;
    FiringKnown(k, ns, bits);
    if ns != [] {
      E.VisitRest(k, ns, bits);
      var k1 := E.Visit(k, ns[0], bits);
      VisitReadies(k, ns[0], bits, p);
      VisitAllReadies(k1, ns[1..], bits, p);
      E.RestFires(k, ns, bits);
      FiringSame(k, k1, ns[1..], bits);
      FiringStep(k, k1, ns, bits, p);
    }
  }

  lemma FiringStep(k: Kernel, k1: Kernel, ns: seq<NodeId>, bits: bv32, p: nat)
    requires ns != [] && Known(k, Firing(k, ns, bits)) && Known(k1, Firing(k, ns[1..], bits))
    requires ns[0] in k.nodes && k.nodes[ns[0]].task in k.tasks
    requires forall u {:trigger u in k1.tasks} :: u in k.tasks ==> u in k1.tasks && k1.tasks[u].prio == k.tasks[u].prio
    requires forall m {:trigger m in k1.nodes} :: m in k.nodes ==> m in k1.nodes && k1.nodes[m].task == k.nodes[m].task
    ensures var t := k.nodes[ns[0]].task;
            (if E.Fires(k, ns[0], bits) && k.tasks[t].prio == p then [t] else [])
              + TasksAt(k1, Firing(k, ns[1..], bits), p)
            == TasksAt(k, Firing(k, ns, bits), p)
  {
    hide E.Fires;
    var rest := Firing(k, ns[1..], bits);
    if E.Fires(k, ns[0], bits) {
      assert Firing(k, ns, bits)[1..] == rest;
      assert Known(k, rest) by { assert forall i :: 0 <= i < |rest| ==> rest[i] == Firing(k, ns, bits)[i + 1]; }
    } else {
      assert Firing(k, ns, bits) == rest;
    }
    TasksAtSame(k, k1, rest, p);
  }

  /** `set` appends to each ready list the tasks of that priority that it wakes, in the order in
      which they began to wait, and changes nothing else in it. */
  lemma SetReadiesInOrder(k: Kernel, g: E.Group, l: ListId, bits: bv32, p: nat)
    requires Inv(k) && p < |k.ready|
    ensures var fired := Firing(k, Listed(k, l), g.bits | bits); var k' := E.Set(k, g, l, bits).0;
            Known(k, fired) && |k'.ready| == |k.ready| && k'.ready[p] == k.ready[p] + TasksAt(k, fired, p)
  {
    hide Inv, E.VisitAll, AllWaiting, E.Set, Firing;
    E.SetVisits(k, g, l, bits);
    VisitAllReadies(k, Listed(k, l), g.bits | bits, p);
  }

  // ---------------------------------------------------------------- over runs

  /** In every run with bounded timeouts, each tick readies the waiters it wakes in the order of
      their true deadlines. */
  lemma TicksReadyInOrder(states: seq<Sys>, ops: seq<Op>, i: nat, p: nat)
    requires Run(states, ops) && i < |ops| && ops[i] == TimerTick && p < |states[i].k.ready|
    requires forall j :: 0 <= j < i ==> ShortOp(ops[j])
    ensures Inv(states[i].k)
    ensures var k, k' := states[i].k, states[i + 1].k;
            && Known(k, DueNodes(k)) && Ordered(k.nodes, DueNodes(k))
            && |k'.ready| == |k.ready| && k'.ready[p] == k.ready[p] + TasksAt(k, DueNodes(k), p)
  {
    hide Inv, TimeInv, Ordered, DueNodes, TickIsr, Apply, Enabled, Initial;
    RunsAreValid(states, ops, i);
    RunsArePunctual(states, ops, i);
    assert Follows(states[i], ops[i], states[i + 1]);
    TickStep(states[i]);
    TickReadiesInOrder(states[i].k, p);
  }
}
