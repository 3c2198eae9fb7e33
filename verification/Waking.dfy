/** Waking several waiters in one critical section: what a tick and `EventGroup::set` do. */
module Waking {
  import opened Sequences
  import opened Kernel
  import opened KernelProofs

  ghost predicate AllWaiting(k: Kernel, ns: seq<NodeId>) {
    NoDup(ns) && forall n {:trigger n in ns} :: n in ns ==> Waiting(k, n)
  }

  ghost predicate AllTimed(k: Kernel, ns: seq<NodeId>)
    requires AllWaiting(k, ns)
  {
    forall n {:trigger n in ns} :: n in ns ==> k.nodes[n].timed
  }

  lemma RestWaiting(k: Kernel, ns: seq<NodeId>, timedOut: bool)
    requires Inv(k) && AllWaiting(k, ns) && ns != []
    requires timedOut ==> AllTimed(k, ns)
    ensures Waiting(k, ns[0]) && (timedOut ==> k.nodes[ns[0]].timed)
    ensures var k1 := Wake(k, ns[0], timedOut);
            Inv(k1) && AllWaiting(k1, ns[1..]) && (timedOut ==> AllTimed(k1, ns[1..]))
  {
    var n := ns[0];
    assert n in ns;
    WakeKeepsInv(k, n, timedOut);
    forall m | m in ns[1..] ensures Waiting(Wake(k, n, timedOut), m) && (timedOut ==> k.nodes[m].timed) {
      assert m in ns && m != n;
      StillWaiting(k, n, timedOut, m);
    }
    WakeEffect(k, n, timedOut);
  }

  function WakeAll(k: Kernel, ns: seq<NodeId>, timedOut: bool): Kernel
    requires Inv(k) && AllWaiting(k, ns)
    requires timedOut ==> AllTimed(k, ns)
    decreases |ns|
  {
    if ns == [] then k
    else
      RestWaiting(k, ns, timedOut);
      WakeAll(Wake(k, ns[0], timedOut), ns[1..], timedOut)
  }

  /** `s` without any element of `xs`, order kept. */
  function Without<T(==)>(s: seq<T>, xs: seq<T>): (r: seq<T>)
    ensures forall y :: y in r ==> y in s
    ensures forall y :: y in s && y !in xs ==> y in r
    decreases |xs|
  {
    if xs == [] then s else Without(Remove(s, xs[0]), xs[1..])
  }

  lemma {:induction false} WithoutNoDup<T>(s: seq<T>, xs: seq<T>)
    requires NoDup(s)
    ensures NoDup(Without(s, xs)) && forall y :: y in Without(s, xs) <==> y in s && y !in xs
    decreases |xs|
  {
    if xs != [] {
      RemoveNoDup(s, xs[0]);
      WithoutNoDup(Remove(s, xs[0]), xs[1..]);
    }
  }

  lemma {:induction false} WithoutPrefix<T>(s: seq<T>, c: nat)
    requires NoDup(s) && c <= |s|
    ensures Without(s, s[..c]) == s[c..]
  {
    if c != 0 {
      assert Remove(s, s[0]) == s[1..];
      assert s[..c][1..] == s[1..][..c - 1];
      WithoutPrefix(s[1..], c - 1);
    }
  }

  ghost predicate Known(k: Kernel, ns: seq<NodeId>) {
    forall i :: 0 <= i < |ns| ==> ns[i] in k.nodes && k.nodes[ns[i]].task in k.tasks
  }

  /** The tasks of the given nodes that have priority `p`, in order. */
  function TasksAt(k: Kernel, ns: seq<NodeId>, p: nat): seq<TaskId>
    requires Known(k, ns)
  {
    if ns == [] then []
    else
      var t := k.nodes[ns[0]].task;
      (if k.tasks[t].prio == p then [t] else []) + TasksAt(k, ns[1..], p)
  }

  lemma {:induction false} TasksAtSame(k: Kernel, k': Kernel, ns: seq<NodeId>, p: nat)
    requires Known(k, ns) && Known(k', ns)
    requires forall i :: 0 <= i < |ns| ==> k'.nodes[ns[i]].task == k.nodes[ns[i]].task
    requires forall t {:trigger t in k'.tasks} :: t in k.tasks ==> t in k'.tasks && k'.tasks[t].prio == k.tasks[t].prio
    ensures TasksAt(k, ns, p) == TasksAt(k', ns, p)
  {
    if ns != [] {
      assert forall i :: 0 <= i < |ns| - 1 ==> ns[1..][i] == ns[i + 1];
      TasksAtSame(k, k', ns[1..], p);
    }
  }

  lemma WaitingKnown(k: Kernel, ns: seq<NodeId>)
    requires AllWaiting(k, ns)
    ensures Known(k, ns)
  {
    forall i | 0 <= i < |ns| ensures ns[i] in k.nodes && k.nodes[ns[i]].task in k.tasks {
      assert ns[i] in ns;
    }
  }

  ghost predicate NodesAfter(k: Kernel, k': Kernel, ns: seq<NodeId>, timedOut: bool) {
    && k'.nodes.Keys == k.nodes.Keys
    && forall n {:trigger n in k'.nodes} :: n in k.nodes ==>
         k'.nodes[n] == if n in ns then k.nodes[n].(timedOut := timedOut, wakes := 1) else k.nodes[n]
  }

  /** Waking many keeps the invariant and touches exactly the given nodes. */
  lemma {:induction false} WakeAllNodes(k: Kernel, ns: seq<NodeId>, timedOut: bool)
    requires Inv(k) && AllWaiting(k, ns)
    requires timedOut ==> AllTimed(k, ns)
    ensures var k' := WakeAll(k, ns, timedOut);
            Inv(k') && NodesAfter(k, k', ns, timedOut) && k'.nextId == k.nextId
            && k'.tick == k.tick && k'.clock == k.clock
    decreases |ns|
  {
    hide NodesAfter;
    if ns == [] {
      NoneAfter(k, timedOut);
    } else {
      RestWaiting(k, ns, timedOut);
      var k1 := Wake(k, ns[0], timedOut);
      WakeEffect(k, ns[0], timedOut);
      WakeAllNodes(k1, ns[1..], timedOut);
      OneMoreAfter(k, k1, WakeAll(k1, ns[1..], timedOut), ns, timedOut);
    }
  }

  lemma NoneAfter(k: Kernel, timedOut: bool)
    ensures NodesAfter(k, k, [], timedOut)
  {
  }

  lemma OneMoreAfter(k: Kernel, k1: Kernel, k': Kernel, ns: seq<NodeId>, timedOut: bool)
    requires ns != [] && ns[0] in k.nodes
    requires k1.nodes == k.nodes[ns[0] := k.nodes[ns[0]].(timedOut := timedOut, wakes := 1)]
    requires NodesAfter(k1, k', ns[1..], timedOut)
    ensures NodesAfter(k, k', ns, timedOut)
  {
    assert forall n :: n in ns <==> n == ns[0] || n in ns[1..];
  }

  lemma {:induction false} WakeAllTasks(k: Kernel, ns: seq<NodeId>, timedOut: bool)
    requires Inv(k) && AllWaiting(k, ns)
    requires timedOut ==> AllTimed(k, ns)
    ensures WakeAll(k, ns, timedOut).tasks.Keys == k.tasks.Keys
    decreases |ns|
  {
    hide ListsInv, BlockedInv, NodesInv;
    if ns != [] {
      RestWaiting(k, ns, timedOut);
      WakeEffect(k, ns[0], timedOut);
      WakeAllTasks(Wake(k, ns[0], timedOut), ns[1..], timedOut);
    }
  }

  lemma {:induction false} WakeAllSched(k: Kernel, ns: seq<NodeId>, timedOut: bool)
    requires Inv(k) && AllWaiting(k, ns)
    requires timedOut ==> AllTimed(k, ns)
    ensures Sched(k, WakeAll(k, ns, timedOut), None)
    decreases |ns|
  {
    if ns != [] {
      RestWaiting(k, ns, timedOut);
      var k1 := Wake(k, ns[0], timedOut);
      WakeSched(k, ns[0], timedOut);
      WakeAllSched(k1, ns[1..], timedOut);
      SchedTrans(k, k1, WakeAll(k, ns, timedOut), None);
    }
  }

  lemma {:induction false} WakeAllLists(k: Kernel, ns: seq<NodeId>, timedOut: bool)
    requires Inv(k) && AllWaiting(k, ns)
    requires timedOut ==> AllTimed(k, ns)
    ensures var k' := WakeAll(k, ns, timedOut);
            k'.delay == Without(k.delay, ns) && forall l :: Listed(k', l) == Without(Listed(k, l), ns)
    decreases |ns|
  {
    hide ListsInv, BlockedInv, NodesInv, NodesAfter;
    if ns != [] {
      RestWaiting(k, ns, timedOut);
      var k1 := Wake(k, ns[0], timedOut);
      WakeEffect(k, ns[0], timedOut);
      WakeAllLists(k1, ns[1..], timedOut);
      forall l ensures Listed(k1, l) == Remove(Listed(k, l), ns[0]) {
      }
    }
  }

  /** Each ready list gains the woken tasks of its priority, in waking order. */
  lemma {:induction false} WakeAllReady(k: Kernel, ns: seq<NodeId>, timedOut: bool, p: nat)
    requires Inv(k) && AllWaiting(k, ns) && p < |k.ready|
    requires timedOut ==> AllTimed(k, ns)
    ensures Known(k, ns)
    ensures |WakeAll(k, ns, timedOut).ready| == |k.ready|
    ensures WakeAll(k, ns, timedOut).ready[p] == k.ready[p] + TasksAt(k, ns, p)
    decreases |ns|
  {
    WaitingKnown(k, ns);
    if ns != [] {
      RestWaiting(k, ns, timedOut);
      var k1 := Wake(k, ns[0], timedOut);
      WakeAllReady(k1, ns[1..], timedOut, p);
      WakeEffect(k, ns[0], timedOut);
      WakeReadyStep(k, k1, ns, timedOut, p);
    }
  }

  lemma WakeReadyStep(k: Kernel, k1: Kernel, ns: seq<NodeId>, timedOut: bool, p: nat)
    requires p < |k.ready| && ns != [] && Known(k, ns) && Known(k1, ns[1..])
    requires var t := k.nodes[ns[0]].task; var q := k.tasks[t].prio;
             && q < |k.ready| && k1.tasks == k.tasks[t := k.tasks[t].(state := Ready)]
             && k1.ready == k.ready[q := k.ready[q] + [t]]
    requires k1.nodes == k.nodes[ns[0] := k.nodes[ns[0]].(timedOut := timedOut, wakes := 1)]
    ensures k1.ready[p] + TasksAt(k1, ns[1..], p) == k.ready[p] + TasksAt(k, ns, p)
  {
    assert forall i :: 0 <= i < |ns| - 1 ==> ns[1..][i] == ns[i + 1];
    TasksAtSame(k, k1, ns[1..], p);
  }

  /** Where the tasks of two nodes come in it. */
  lemma {:induction false} TasksAtOrder(k: Kernel, ns: seq<NodeId>, p: nat, i: nat, j: nat) returns (a: nat, b: nat)
    requires Known(k, ns) && i < j < |ns|
    requires k.tasks[k.nodes[ns[i]].task].prio == p == k.tasks[k.nodes[ns[j]].task].prio
    ensures a < b < |TasksAt(k, ns, p)|
    ensures TasksAt(k, ns, p)[a] == k.nodes[ns[i]].task && TasksAt(k, ns, p)[b] == k.nodes[ns[j]].task
  {
    assert Known(k, ns[1..]) by { assert forall c :: 0 <= c < |ns| - 1 ==> ns[1..][c] == ns[c + 1]; }
    var first := if k.tasks[k.nodes[ns[0]].task].prio == p then 1 else 0;
    if i == 0 {
      var c := TasksAtHas(k, ns[1..], p, j - 1);
      a, b := 0, c + 1;
    } else {
      var c, d := TasksAtOrder(k, ns[1..], p, i - 1, j - 1);
      a, b := c + first, d + first;
    }
  }

  lemma {:induction false} TasksAtHas(k: Kernel, ns: seq<NodeId>, p: nat, j: nat) returns (b: nat)
    requires Known(k, ns) && j < |ns| && k.tasks[k.nodes[ns[j]].task].prio == p
    ensures b < |TasksAt(k, ns, p)| && TasksAt(k, ns, p)[b] == k.nodes[ns[j]].task
  {
    if j == 0 {
      b := 0;
    } else {
      assert Known(k, ns[1..]) by { assert forall c :: 0 <= c < |ns| - 1 ==> ns[1..][c] == ns[c + 1]; }
      var c := TasksAtHas(k, ns[1..], p, j - 1);
      b := if k.tasks[k.nodes[ns[0]].task].prio == p then c + 1 else c;
    }
  }
}
