/** What each step of the system does to a rendezvous. */
module BarrierSteps {
  import opened Sequences
  import opened Time
  import opened Kernel
  import opened KernelProofs
  import opened Waking
  import opened Timer
  import opened Requests
  import opened EventGroup
  import opened Barrier

  predicate IsSync(p: Payload, whole: bv32) {
    p.Condition? && p.want == whole && p.all && p.clear
  }

  /** Node `n` is where participant `i` waits for the others. */
  ghost predicate Rests(k: Kernel, r: Rendezvous, n: NodeId, i: nat)
    requires i < |r.members|
  {
    && n in k.nodes && k.nodes[n].task == r.members[i]
    && !k.nodes[n].timed && IsSync(k.nodes[n].payload, r.whole)
  }

  /** Participant `i` has arrived in the present round and waits. */
  ghost predicate Arrived(k: Kernel, r: Rendezvous, i: nat)
    requires i < |r.members|
  {
    exists n :: n in Listed(k, GroupWaiters(r.group)) && Rests(k, r, n, i)
  }

  ghost function Arrivals(k: Kernel, r: Rendezvous): (a: seq<bool>)
    ensures |a| == |r.members|
  {
    seq(|r.members|, i requires 0 <= i < |r.members| => Arrived(k, r, i))
  }

  /** Nobody but a waiting participant asks to clear a bit of the rendezvous. */
  ghost predicate Tame(k: Kernel, r: Rendezvous, n: NodeId) {
    && n in k.nodes && k.nodes[n].payload.Condition?
    && (k.nodes[n].payload.clear && !Disjoint(k.nodes[n].payload.want, r.whole) ==>
          exists i :: 0 <= i < |r.members| && Rests(k, r, n, i))
  }

  ghost predicate AllTame(k: Kernel, r: Rendezvous) {
    forall n :: n in Listed(k, GroupWaiters(r.group)) ==> Tame(k, r, n)
  }

  /** The bits of the rendezvous that are set are those of the participants that have arrived. */
  ghost predicate BarrierOn(k: Kernel, g: Group, r: Rendezvous) {
    Valid(r) && Shown(g.bits, r, Arrivals(k, r)) && AllTame(k, r)
  }

  // ---------------------------------------------------------------- steps elsewhere

  lemma SameNodes(k: Kernel, k': Kernel, r: Rendezvous, n: NodeId)
    requires n in k.nodes && n in k'.nodes && k'.nodes[n] == k.nodes[n]
    ensures Tame(k, r, n) ==> Tame(k', r, n)
    ensures forall i :: 0 <= i < |r.members| ==> (Rests(k', r, n, i) <==> Rests(k, r, n, i))
  {
    var payload := k.nodes[n].payload;
    if payload.Condition? && payload.clear && !Disjoint(payload.want, r.whole) && Tame(k, r, n) {
      var i :| 0 <= i < |r.members| && Rests(k, r, n, i);
      assert Rests(k', r, n, i);
    }
  }

  ghost predicate Resting(k: Kernel, r: Rendezvous, n: NodeId) {
    exists i :: 0 <= i < |r.members| && Rests(k, r, n, i)
  }

  /** The list may lose nodes at which no participant waits. */
  lemma LosesOthers(k: Kernel, k': Kernel, r: Rendezvous)
    requires AllTame(k, r)
    requires forall n :: n in Listed(k', GroupWaiters(r.group)) ==>
      n in Listed(k, GroupWaiters(r.group)) && n in k.nodes && n in k'.nodes && k'.nodes[n] == k.nodes[n]
    requires forall n :: n in Listed(k, GroupWaiters(r.group)) && Resting(k, r, n) ==>
               n in Listed(k', GroupWaiters(r.group))
    ensures AllTame(k', r) && Arrivals(k', r) == Arrivals(k, r)
  {
    var l := GroupWaiters(r.group);
    forall n | n in Listed(k', l) ensures Tame(k', r, n) {
      SameNodes(k, k', r, n);
    }
    forall i | 0 <= i < |r.members| ensures Arrived(k', r, i) <==> Arrived(k, r, i) {
      if Arrived(k, r, i) {
        var n :| n in Listed(k, l) && Rests(k, r, n, i);
        assert Resting(k, r, n) && n in Listed(k', l);
        SameNodes(k, k', r, n);
        assert Rests(k', r, n, i);
      }
      if Arrived(k', r, i) {
        var n :| n in Listed(k', l) && Rests(k', r, n, i);
        SameNodes(k, k', r, n);
        assert Rests(k, r, n, i);
      }
    }
  }

  lemma ElsewhereKeeps(k: Kernel, k': Kernel, own: set<ListId>, r: Rendezvous)
    requires Inv(k) && AllTame(k, r) && Frame(k, k', own) && GroupWaiters(r.group) !in own
    ensures AllTame(k', r) && Arrivals(k', r) == Arrivals(k, r)
  {
    ListedWait(k, GroupWaiters(r.group));
    LosesOthers(k, k', r);
  }

  /** Participants wait without a deadline: a tick never takes one off the list. */
  lemma TickKeeps(k: Kernel, r: Rendezvous)
    requires Inv(k) && AllTame(k, r)
    ensures AllTame(TickIsr(k), r) && Arrivals(TickIsr(k), r) == Arrivals(k, r)
  {
    var l := GroupWaiters(r.group);
    var k1 := Advance(k);
    var ns := DueNodes(k);
    AdvanceKeepsInv(k);
    WakeAllLists(k1, ns, true);
    TickEffect(k);
    ListedWait(k, l);
    WithoutNoDup(Listed(k, l), ns);
    assert Listed(k1, l) == Listed(k, l);
    LosesOthers(k, TickIsr(k), r);
  }

  // ---------------------------------------------------------------- set

  lemma {:induction false} QuietMembers(k: Kernel, ns: seq<NodeId>, bits: bv32, n: NodeId)
    ensures n in Quiet(k, ns, bits) <==> n in ns && !Fires(k, n, bits)
  {
    if ns != [] {
      QuietMembers(k, ns[1..], bits, n);
    }
  }

  lemma RestingFires(k: Kernel, r: Rendezvous, n: NodeId, bits: bv32)
    ensures Resting(k, r, n) ==> (Fires(k, n, bits) <==> Holds(r.whole, true, bits))
  {
  }

  lemma NobodyElseClears(k: Kernel, r: Rendezvous, bits: bv32)
    requires AllTame(k, r) && !Holds(r.whole, true, bits)
    ensures Unwanted(k, Listed(k, GroupWaiters(r.group)), bits, r.whole)
  {
    var ns := Listed(k, GroupWaiters(r.group));
    forall n | n in ns ensures Disjoint(ClearOf(k, n, bits), r.whole) {
      assert Tame(k, r, n);
      NoneWanted(r.whole);
      RestingFires(k, r, n, bits);
    }
  }

  lemma SetLosesQuiet(k: Kernel, g: Group, r: Rendezvous, bits: bv32, n: NodeId)
    requires Inv(k)
    ensures var l := GroupWaiters(r.group); var k' := Set(k, g, l, bits).0;
            n in Listed(k', l) <==> n in Listed(k, l) && !Fires(k, n, g.bits | bits)
    ensures var l := GroupWaiters(r.group); var k' := Set(k, g, l, bits).0;
            n in Listed(k', l) ==> n in k.nodes && n in k'.nodes && k'.nodes[n] == k.nodes[n]
  {
    var l := GroupWaiters(r.group);
    SetIsExact(k, g, l, bits);
    QuietMembers(k, Listed(k, l), g.bits | bits, n);
    ListedWait(k, l);
    if n in Listed(k, l) && !Fires(k, n, g.bits | bits) {
      assert n in Set(k, g, l, bits).0.nodes;
    }
  }

  lemma SetLoses(k: Kernel, g: Group, r: Rendezvous, bits: bv32)
    requires Inv(k)
    ensures var l := GroupWaiters(r.group); var k' := Set(k, g, l, bits).0;
            forall n {:trigger n in Listed(k', l)} {:trigger n in Listed(k, l)} ::
              && (n in Listed(k', l) <==> n in Listed(k, l) && !Fires(k, n, g.bits | bits))
              && (n in Listed(k', l) ==> n in k.nodes && n in k'.nodes && k'.nodes[n] == k.nodes[n])
  {
    forall n {
      SetLosesQuiet(k, g, r, bits, n);
    }
  }

  lemma SetKeepsArrivals(k: Kernel, g: Group, r: Rendezvous, bits: bv32)
    requires Inv(k) && AllTame(k, r) && !Holds(r.whole, true, g.bits | bits)
    ensures var k' := Set(k, g, GroupWaiters(r.group), bits).0; AllTame(k', r) && Arrivals(k', r) == Arrivals(k, r)
  {
    var l := GroupWaiters(r.group);
    var k' := Set(k, g, l, bits).0;
    SetLoses(k, g, r, bits);
    forall n | n in Listed(k, l) && Resting(k, r, n) ensures n in Listed(k', l) {
      RestingFires(k, r, n, g.bits | bits);
    }
    LosesOthers(k, k', r);
  }

  /** As long as somebody is missing, raising bits releases no participant and clears no bit
      of the rendezvous. */
  lemma SetIncomplete(k: Kernel, g: Group, r: Rendezvous, bits: bv32)
    requires Inv(k) && AllTame(k, r) && !Holds(r.whole, true, g.bits | bits)
    ensures AllTame(Set(k, g, GroupWaiters(r.group), bits).0, r)
    ensures Arrivals(Set(k, g, GroupWaiters(r.group), bits).0, r) == Arrivals(k, r)
    ensures SameOn(Set(k, g, GroupWaiters(r.group), bits).1.bits, g.bits | bits, r.whole)
  {
    SetKeepsArrivals(k, g, r, bits);
    NobodyElseClears(k, r, g.bits | bits);
    SetClearsUnion(k, g, GroupWaiters(r.group), bits, r.whole);
  }

  /** Participant `i` waits no longer: it has been woken with the snapshot `bits`. */
  ghost predicate Released(k: Kernel, k': Kernel, r: Rendezvous, i: nat, bits: bv32)
    requires i < |r.members|
  {
    forall n :: n in Listed(k, GroupWaiters(r.group)) && Rests(k, r, n, i) ==>
      n in k'.nodes && k'.nodes[n].wakes == 1 && WaitForResumes(None, k'.nodes[n]) == Some(bits)
  }

  ghost predicate AllReleased(k: Kernel, k': Kernel, r: Rendezvous, bits: bv32) {
    forall i :: 0 <= i < |r.members| ==> !Arrived(k', r, i) && Released(k, k', r, i, bits)
  }

  lemma NobodyRests(k: Kernel, r: Rendezvous)
    requires forall n :: n in Listed(k, GroupWaiters(r.group)) ==> !Resting(k, r, n)
    ensures forall i :: 0 <= i < |r.members| ==> !Arrived(k, r, i)
  {
    forall n, i | n in Listed(k, GroupWaiters(r.group)) && 0 <= i < |r.members| ensures !Rests(k, r, n, i) {
      assert Rests(k, r, n, i) ==> Resting(k, r, n);
    }
  }

  lemma SetLeavesNobody(k: Kernel, g: Group, r: Rendezvous, bits: bv32)
    requires Inv(k) && AllTame(k, r) && Holds(r.whole, true, g.bits | bits)
    ensures var k' := Set(k, g, GroupWaiters(r.group), bits).0;
            AllTame(k', r) && forall i :: 0 <= i < |r.members| ==> !Arrived(k', r, i)
  {
    var l := GroupWaiters(r.group);
    var k' := Set(k, g, l, bits).0;
    SetLoses(k, g, r, bits);
    forall n | n in Listed(k', l) ensures Tame(k', r, n) && !Resting(k', r, n) {
      SameNodes(k, k', r, n);
      RestingFires(k, r, n, g.bits | bits);
    }
    NobodyRests(k', r);
  }

  lemma SetReleases(k: Kernel, g: Group, r: Rendezvous, bits: bv32, i: nat, n: NodeId)
    requires Inv(k) && Holds(r.whole, true, g.bits | bits)
    requires i < |r.members| && n in Listed(k, GroupWaiters(r.group)) && Rests(k, r, n, i)
    ensures var k' := Set(k, g, GroupWaiters(r.group), bits).0;
            n in k'.nodes && k'.nodes[n].wakes == 1 && WaitForResumes(None, k'.nodes[n]) == Some(g.bits | bits)
  {
    var l := GroupWaiters(r.group);
    SetIsExact(k, g, l, bits);
    RestingFires(k, r, n, g.bits | bits);
    assert Visited(k, Set(k, g, l, bits).0, n, n in Listed(k, l), g.bits | bits);
  }

  /** Once the last bit is raised every waiting participant is released, with one snapshot. */
  lemma SetComplete(k: Kernel, g: Group, r: Rendezvous, bits: bv32)
    requires Inv(k) && AllTame(k, r) && Holds(r.whole, true, g.bits | bits)
    ensures AllTame(Set(k, g, GroupWaiters(r.group), bits).0, r)
    ensures AllReleased(k, Set(k, g, GroupWaiters(r.group), bits).0, r, g.bits | bits)
  {
    hide Inv, Set, AllTame, Holds, Meet;
    SetLeavesNobody(k, g, r, bits);
    forall i, n | 0 <= i < |r.members| && n in Listed(k, GroupWaiters(r.group)) && Rests(k, r, n, i)
      ensures var k' := Set(k, g, GroupWaiters(r.group), bits).0;
              n in k'.nodes && k'.nodes[n].wakes == 1 && WaitForResumes(None, k'.nodes[n]) == Some(g.bits | bits)
    {
      SetReleases(k, g, r, bits, i, n);
    }
  }

  // ---------------------------------------------------------------- blocking on the group

  /** A new waiter is an arrival exactly if it is a participant waiting for the whole mask. */
  lemma BlockArrives(k: Kernel, r: Rendezvous, payload: Payload, timeout: Option<Tick>, i: nat)
    requires Inv(k) && InTask(k) && i < |r.members|
    ensures var k' := Block(k, Some(GroupWaiters(r.group)), payload, timeout);
            Arrived(k', r, i) <==>
              Arrived(k, r, i) || (IsSync(payload, r.whole) && timeout == None && k.current == Some(r.members[i]))
  {
    var l := GroupWaiters(r.group);
    var k' := Block(k, Some(l), payload, timeout);
    BlockEffect(k, Some(l), payload, timeout);
    ListedWait(k, l);
    if Arrived(k, r, i) {
      var n :| n in Listed(k, l) && Rests(k, r, n, i);
      SameNodes(k, k', r, n);
      assert n in Listed(k', l) && Rests(k', r, n, i);
    }
    if IsSync(payload, r.whole) && timeout == None && k.current == Some(r.members[i]) {
      assert k.nextId in Listed(k', l) && Rests(k', r, k.nextId, i);
    }
    if Arrived(k', r, i) {
      var n :| n in Listed(k', l) && Rests(k', r, n, i);
      if n != k.nextId {
        SameNodes(k, k', r, n);
        assert n in Listed(k, l) && Rests(k, r, n, i);
      }
    }
  }

  lemma BlockStaysTame(k: Kernel, r: Rendezvous, payload: Payload, timeout: Option<Tick>)
    requires Inv(k) && InTask(k) && AllTame(k, r) && payload.Condition?
    requires payload.clear && !Disjoint(payload.want, r.whole) ==>
      IsSync(payload, r.whole) && timeout == None && k.current.value in r.members
    ensures AllTame(Block(k, Some(GroupWaiters(r.group)), payload, timeout), r)
  {
    var l := GroupWaiters(r.group);
    var k' := Block(k, Some(l), payload, timeout);
    BlockEffect(k, Some(l), payload, timeout);
    ListedWait(k, l);
    forall n | n in Listed(k', l) ensures Tame(k', r, n) {
      if n != k.nextId {
        assert n in Listed(k, l);
        SameNodes(k, k', r, n);
      } else if payload.clear && !Disjoint(payload.want, r.whole) {
        var i :| 0 <= i < |r.members| && r.members[i] == k.current.value;
        assert Rests(k', r, n, i);
      }
    }
  }

  lemma NotSync(want: bv32, all: bool, clear: bool, r: Rendezvous)
    requires Valid(r) && (clear ==> Disjoint(want, r.whole))
    ensures !IsSync(Condition(want, all, clear, 0), r.whole)
  {
    WholeNonZero(r);
    NotDisjointSelf(r.whole);
  }

  /** A waiter for anything else does not count as an arrival. */
  lemma ForeignWait(k: Kernel, r: Rendezvous, want: bv32, all: bool, clear: bool, timeout: Option<Tick>)
    requires Inv(k) && InTask(k) && AllTame(k, r) && Valid(r) && (clear ==> Disjoint(want, r.whole))
    ensures var k' := Block(k, Some(GroupWaiters(r.group)), Condition(want, all, clear, 0), timeout);
            AllTame(k', r) && Arrivals(k', r) == Arrivals(k, r)
  {
    var p := Condition(want, all, clear, 0);
    NotSync(want, all, clear, r);
    BlockStaysTame(k, r, p, timeout);
    forall i | 0 <= i < |r.members|
      ensures Arrived(Block(k, Some(GroupWaiters(r.group)), p, timeout), r, i) <==> Arrived(k, r, i)
    {
      BlockArrives(k, r, p, timeout, i);
    }
  }

  lemma StampArrives(k: Kernel, r: Rendezvous)
    requires Inv(k) && AllTame(k, r)
    ensures AllTame(Stamp(k), r) && Arrivals(Stamp(k), r) == Arrivals(k, r)
  {
    StampKeepsInv(k);
    ElsewhereKeeps(k, Stamp(k), {}, r);
  }
}
