/** Histories of one wait list: who asked, in which order, and who was served. */
module Requests {
  import opened Sequences
  import opened Time
  import opened Kernel
  import opened KernelProofs

  ghost predicate Expired(nodes: map<NodeId, WaitNode>, id: NodeId) {
    id in nodes && nodes[id].timedOut
  }

  /** The requests that have not timed out, in order of arrival. */
  ghost function Survivors(nodes: map<NodeId, WaitNode>, arrivals: seq<NodeId>): seq<NodeId> {
    if arrivals == [] then []
    else (if Expired(nodes, arrivals[0]) then [] else [arrivals[0]]) + Survivors(nodes, arrivals[1..])
  }

  lemma {:induction false} SurvivorsMembers(nodes: map<NodeId, WaitNode>, arrivals: seq<NodeId>)
    ensures forall id :: id in Survivors(nodes, arrivals) <==> id in arrivals && !Expired(nodes, id)
  {
    if arrivals != [] {
      SurvivorsMembers(nodes, arrivals[1..]);
    }
  }

  lemma {:induction false} SurvivorsAppend(nodes: map<NodeId, WaitNode>, arrivals: seq<NodeId>, id: NodeId)
    requires !Expired(nodes, id)
    ensures Survivors(nodes, arrivals + [id]) == Survivors(nodes, arrivals) + [id]
  {
    if arrivals == [] {
      assert arrivals + [id] == [id];
    } else {
      assert (arrivals + [id])[1..] == arrivals[1..] + [id];
      SurvivorsAppend(nodes, arrivals[1..], id);
    }
  }

  lemma {:induction false} SurvivorsSame(nodes: map<NodeId, WaitNode>, nodes': map<NodeId, WaitNode>,
                                         arrivals: seq<NodeId>)
    requires forall id :: id in arrivals ==> (Expired(nodes', id) <==> Expired(nodes, id))
    ensures Survivors(nodes', arrivals) == Survivors(nodes, arrivals)
  {
    if arrivals != [] {
      SurvivorsSame(nodes, nodes', arrivals[1..]);
    }
  }

  lemma {:induction false} SurvivorsExpire(
      nodes: map<NodeId, WaitNode>, nodes': map<NodeId, WaitNode>, arrivals: seq<NodeId>, n: NodeId)
    requires NoDup(arrivals) && !Expired(nodes, n) && Expired(nodes', n)
    requires forall id :: id in arrivals && id != n ==> (Expired(nodes', id) <==> Expired(nodes, id))
    ensures Survivors(nodes', arrivals) == Remove(Survivors(nodes, arrivals), n)
  {
    if arrivals != [] {
      var first, rest := arrivals[0], arrivals[1..];
      assert first in arrivals;
      if first == n {
        assert n !in rest;
        SurvivorsSame(nodes, nodes', rest);
        assert Survivors(nodes, arrivals)[1..] == Survivors(nodes, rest);
      } else {
        SurvivorsExpire(nodes, nodes', rest, n);
        var head: seq<NodeId> := if Expired(nodes, first) then [] else [first];
        RemoveAppend(head, Survivors(nodes, rest), n);
      }
    }
  }

  lemma {:induction false} SurvivorsNoDup(nodes: map<NodeId, WaitNode>, arrivals: seq<NodeId>)
    requires NoDup(arrivals)
    ensures NoDup(Survivors(nodes, arrivals))
  {
    if arrivals != [] {
      assert arrivals[0] !in arrivals[1..];
      SurvivorsMembers(nodes, arrivals[1..]);
      SurvivorsNoDup(nodes, arrivals[1..]);
    }
  }

  /** First come, first served: the requests that have not timed out, in order of arrival,
      are those already served, in the order of service, then those on the wait list. */
  ghost predicate Fair(k: Kernel, l: ListId, arrivals: seq<NodeId>, served: seq<NodeId>) {
    && Recorded(k, l, arrivals)
    && Survivors(k.nodes, arrivals) == served + Listed(k, l)
  }

  /** The requests of a list, each once; those that had to wait are its nodes. */
  ghost predicate Recorded(k: Kernel, l: ListId, arrivals: seq<NodeId>) {
    && NoDup(arrivals)
    && (forall id {:trigger id in arrivals} :: id in arrivals ==> id < k.nextId)
    && (forall n {:trigger n in k.nodes} :: n in k.nodes ==> (k.nodes[n].home == Some(l) <==> n in arrivals))
  }

  /** A request that is served at once or refused takes a number, too. */
  function Stamp(k: Kernel): Kernel {
    k.(nextId := k.nextId + 1)
  }

  lemma StampKeepsInv(k: Kernel)
    requires Inv(k)
    ensures Inv(Stamp(k)) && Frame(k, Stamp(k), {}) && Sched(k, Stamp(k), None)
    ensures forall n :: Waiting(Stamp(k), n) <==> Waiting(k, n)
  {
    var k' := Stamp(k);
    forall q, i | 0 <= q < |k'.ready| && 0 <= i < |k'.ready[q]| ensures ReadyAt(k', k'.ready[q][i], q) {
      assert ReadyAt(k, k.ready[q][i], q);
    }
    TasksGrow(k, k');
  }

  lemma ListedWait(k: Kernel, l: ListId)
    requires Inv(k)
    ensures forall n :: n in Listed(k, l) ==> Waiting(k, n) && k.nodes[n].home == Some(l) && k.nodes[n].wakes == 0
    ensures NoDup(Listed(k, l))
  {
    forall n | n in Listed(k, l) ensures Waiting(k, n) && k.nodes[n].home == Some(l) && k.nodes[n].wakes == 0 {
      assert n in k.waits[l];
      assert n in k.nodes;
    }
  }

  lemma FirstWaits(k: Kernel, l: ListId)
    requires Inv(k) && Listed(k, l) != []
    ensures Waiting(k, Listed(k, l)[0]) && k.nodes[Listed(k, l)[0]].home == Some(l)
  {
    assert Listed(k, l)[0] in k.waits[l];
  }

  lemma FairFrame(k: Kernel, k': Kernel, own: set<ListId>, l: ListId, arrivals: seq<NodeId>, served: seq<NodeId>)
    requires Fair(k, l, arrivals, served) && Frame(k, k', own) && l !in own
    ensures Fair(k', l, arrivals, served)
  {
    SurvivorsSame(k.nodes, k'.nodes, arrivals);
  }

  lemma RecordedWoken(k: Kernel, k': Kernel, n: NodeId, l: ListId, arrivals: seq<NodeId>)
    requires Recorded(k, l, arrivals) && n in k.nodes && k'.nextId == k.nextId
    requires n in k'.nodes && k'.nodes == k.nodes[n := k'.nodes[n]] && k'.nodes[n].home == k.nodes[n].home
    ensures Recorded(k', l, arrivals)
  {
  }

  lemma ArrivedOnce(k: Kernel, l: ListId, arrivals: seq<NodeId>)
    requires Recorded(k, l, arrivals)
    ensures NoDup(arrivals) && forall n {:trigger n in k.nodes} :: n in k.nodes ==>
              (k.nodes[n].home == Some(l) <==> n in arrivals)
  {
  }

  lemma FairExpire(k: Kernel, n: NodeId, l: ListId, arrivals: seq<NodeId>, served: seq<NodeId>)
    requires Inv(k) && Waiting(k, n) && Fair(k, l, arrivals, served)
    ensures Fair(Wake(k, n, true), l, arrivals, served)
  {
    hide ListsInv, BlockedInv;
    var k' := Wake(k, n, true);
    WakeEffect(k, n, true);
    RecordedWoken(k, k', n, l, arrivals);
    assert n in k.nodes && !Expired(k.nodes, n);
    hide NodesInv, Recorded;
    ArrivedOnce(k, l, arrivals);
    if k.nodes[n].home == Some(l) {
      SurvivorsExpire(k.nodes, k'.nodes, arrivals, n);
      SurvivorsNoDup(k.nodes, arrivals);
      ListedAtHome(k, n, l);
      RemoveAppend(served, Listed(k, l), n);
      NotInBoth(served, Listed(k, l), n);
    } else {
      SurvivorsSame(k.nodes, k'.nodes, arrivals);
    }
  }

  lemma NotInBoth<T>(a: seq<T>, b: seq<T>, x: T)
    requires NoDup(a + b) && x in b
    ensures x !in a
  {
    var j :| 0 <= j < |b| && b[j] == x;
    forall i | 0 <= i < |a| ensures a[i] != x {
      assert (a + b)[i] == a[i] && (a + b)[|a| + j] == x;
    }
  }

  lemma ListedAtHome(k: Kernel, n: NodeId, l: ListId)
    requires Inv(k) && Waiting(k, n) && k.nodes[n].home == Some(l)
    ensures n in Listed(k, l)
  {
    assert k.nodes[n].task in k.tasks;
  }

  lemma FairBlock(k: Kernel, l: ListId, payload: Payload, timeout: Option<Tick>, arrivals: seq<NodeId>,
                  served: seq<NodeId>)
    requires CanBlock(k, Some(l), timeout) && Fair(k, l, arrivals, served)
    ensures Fair(Block(k, Some(l), payload, timeout), l, arrivals + [k.nextId], served)
  {
    var n := k.nextId;
    var k' := Block(k, Some(l), payload, timeout);
    BlockEffect(k, Some(l), payload, timeout);
    RecordedBlock(k, k', l, arrivals);
    SurvivorsSame(k.nodes, k'.nodes, arrivals);
    SurvivorsAppend(k'.nodes, arrivals, n);
    assert served + Listed(k', l) == (served + Listed(k, l)) + [n];
  }

  lemma RecordedBlock(k: Kernel, k': Kernel, l: ListId, arrivals: seq<NodeId>)
    requires Recorded(k, l, arrivals)
    requires k.nextId !in k.nodes && k'.nextId == k.nextId + 1
    requires exists node: WaitNode :: k'.nodes == k.nodes[k.nextId := node] && node.home == Some(l)
    ensures Recorded(k', l, arrivals + [k.nextId])
  {
    AppendNoDup(arrivals, k.nextId);
  }

  /** Served on the spot: only possible with nobody waiting. */
  lemma FairImmediate(k: Kernel, l: ListId, arrivals: seq<NodeId>, served: seq<NodeId>)
    requires Inv(k) && Fair(k, l, arrivals, served) && Listed(k, l) == []
    ensures Fair(Stamp(k), l, arrivals + [k.nextId], served + [k.nextId])
  {
    AppendNoDup(arrivals, k.nextId);
    SurvivorsAppend(k.nodes, arrivals, k.nextId);
    assert Listed(Stamp(k), l) == [];
  }

  lemma FairHandoff(k: Kernel, l: ListId, arrivals: seq<NodeId>, served: seq<NodeId>)
    requires Inv(k) && Listed(k, l) != [] && Fair(k, l, arrivals, served)
    ensures var w := Listed(k, l)[0]; Waiting(k, w) && Fair(Wake(k, w, false), l, arrivals, served + [w])
    ensures Listed(Wake(k, Listed(k, l)[0], false), l) == Listed(k, l)[1..]
  {
    FirstWaits(k, l);
    var w := Listed(k, l)[0];
    var k' := Wake(k, w, false);
    hide ListsInv, BlockedInv, Recorded;
    WakeEffect(k, w, false);
    RecordedWoken(k, k', w, l, arrivals);
    assert Listed(k', l) == Listed(k, l)[1..];
    SurvivorsSame(k.nodes, k'.nodes, arrivals);
    assert served + Listed(k, l) == (served + [w]) + Listed(k, l)[1..];
  }

  /** A request that waited was served exactly if, once woken, it is not told of a timeout. */
  lemma OutcomeIsTruthful(k: Kernel, l: ListId, arrivals: seq<NodeId>, served: seq<NodeId>, n: NodeId)
    requires Inv(k) && Fair(k, l, arrivals, served)
    requires n in k.nodes && k.nodes[n].home == Some(l) && k.nodes[n].wakes == 1
    ensures n in served <==> !k.nodes[n].timedOut
  {
    ListedWait(k, l);
    SurvivorsMembers(k.nodes, arrivals);
  }
}
