/** The code of event groups over their bits and the shared kernel. */
module EventGroupCode {
  import opened Sequences
  import opened Time
  import opened Kernel
  import opened Waking
  import opened Requests
  import opened Scheduling
  import opened Bits
  import E = EventGroup

  lemma {:induction false} ClearMaskSame(k: Kernel, k1: Kernel, ns: seq<NodeId>, bits: bv32)
    requires forall i :: 0 <= i < |ns| ==> ns[i] in k.nodes && ns[i] in k1.nodes && k1.nodes[ns[i]] == k.nodes[ns[i]]
    ensures E.ClearMask(k1, ns, bits) == E.ClearMask(k, ns, bits)
  {
    if ns != [] {
      assert forall i :: 0 <= i < |ns| - 1 ==> ns[1..][i] == ns[i + 1];
      ClearMaskSame(k, k1, ns[1..], bits);
    }
  }

  lemma VisitLeavesRest(k: Kernel, rest: seq<NodeId>, bits: bv32)
    requires Inv(k) && AllWaiting(k, rest) && rest != [] && Waiting(k, rest[0])
    ensures E.ClearMask(E.Visit(k, rest[0], bits), rest[1..], bits) == E.ClearMask(k, rest[1..], bits)
    ensures forall i :: 0 < i < |rest| ==>
      && rest[i] in k.nodes && rest[i] in E.Visit(k, rest[0], bits).nodes
      && E.Visit(k, rest[0], bits).nodes[rest[i]] == k.nodes[rest[i]]
  {
    E.VisitNodes(k, rest[0], bits);
    forall i | 0 < i < |rest|
      ensures rest[i] in k.nodes && rest[i] in E.Visit(k, rest[0], bits).nodes
      ensures E.Visit(k, rest[0], bits).nodes[rest[i]] == k.nodes[rest[i]]
    {
      assert rest[i] in rest;
    }
    ClearMaskSame(k, E.Visit(k, rest[0], bits), rest[1..], bits);
  }

  ghost predicate AreConditions(k: Kernel, ns: seq<NodeId>) {
    forall i :: 0 <= i < |ns| ==> ns[i] in k.nodes && k.nodes[ns[i]].payload.Condition?
  }

  /** The state of the traversal: the nodes passed over, then those still to visit. */
  ghost predicate Between(k: Kernel, l: ListId, kept: seq<NodeId>, rest: seq<NodeId>) {
    Inv(k) && Listed(k, l) == kept + rest && AllWaiting(k, rest) && AreConditions(k, rest)
  }

  lemma BetweenIs(k: Kernel, l: ListId, kept: seq<NodeId>, rest: seq<NodeId>)
    requires Between(k, l, kept, rest)
    ensures Inv(k) && AllWaiting(k, rest) && Listed(k, l) == kept + rest
  {
  }

  /** One turn of the traversal. */
  lemma VisitStep(k: Kernel, l: ListId, kept: seq<NodeId>, rest: seq<NodeId>, bits: bv32)
    requires Between(k, l, kept, rest) && rest != []
    ensures Waiting(k, rest[0]) && rest[0] in k.nodes && k.nodes[rest[0]].payload.Condition?
    ensures var k1 := E.Visit(k, rest[0], bits);
            && Between(k1, l, if E.Fires(k, rest[0], bits) then kept else kept + [rest[0]], rest[1..])
            && E.VisitAll(k, rest, bits) == E.VisitAll(k1, rest[1..], bits)
            && E.ClearMask(k, rest, bits) == Or(E.ClearOf(k, rest[0], bits), E.ClearMask(k1, rest[1..], bits))
  {
    hide Inv, E.Visit, E.Fires, E.ClearOf;
    E.VisitRest(k, rest, bits);
    E.VisitList(k, l, kept, rest, bits);
    VisitLeavesRest(k, rest, bits);
  }

  lemma TraversalStarts(k: Kernel, g: E.Group, l: ListId)
    requires Inv(k) && E.GroupInv(k, g, l)
    ensures Between(k, l, [], Listed(k, l))
  {
    ListedWait(k, l);
    forall i | 0 <= i < |Listed(k, l)|
      ensures Listed(k, l)[i] in k.nodes && k.nodes[Listed(k, l)[i]].payload.Condition?
    {
      assert E.Unmet(k, Listed(k, l)[i], g.bits);
    }
  }

  lemma Associative(a: bv32, b: bv32, c: bv32)
    ensures Or(Or(a, b), c) == Or(a, Or(b, c))
  {
  }

  lemma NothingGathered(a: bv32)
    ensures Or(0, a) == a && Or(a, 0) == a
  {
  }

  /** The masks gathered so far and those still to come. */
  ghost predicate Gathered(mask: bv32, k: Kernel, rest: seq<NodeId>, bits: bv32, total: bv32) {
    Or(mask, E.ClearMask(k, rest, bits)) == total
  }

  lemma TraversalEnds(k: Kernel, bits: bv32, mask: bv32, total: bv32)
    requires Inv(k) && Gathered(mask, k, [], bits, total)
    ensures E.VisitAll(k, [], bits) == k && mask == total
  {
    NothingGathered(mask);
  }

  lemma GatherStart(k: Kernel, ns: seq<NodeId>, bits: bv32)
    ensures Gathered(0, k, ns, bits, E.ClearMask(k, ns, bits))
  {
    NothingGathered(E.ClearMask(k, ns, bits));
  }

  lemma GatherStep(mask: bv32, k: Kernel, rest: seq<NodeId>, k1: Kernel, bits: bv32, total: bv32)
    requires rest != [] && Gathered(mask, k, rest, bits, total)
    requires E.ClearMask(k, rest, bits) == Or(E.ClearOf(k, rest[0], bits), E.ClearMask(k1, rest[1..], bits))
    ensures Gathered(Or(mask, E.ClearOf(k, rest[0], bits)), k1, rest[1..], bits, total)
  {
    hide E.ClearOf, E.ClearMask, Or;
    Associative(mask, E.ClearOf(k, rest[0], bits), E.ClearMask(k1, rest[1..], bits));
  }

  lemma SetIs(k: Kernel, g: E.Group, l: ListId, more: bv32, k': Kernel, total: bv32)
    requires Inv(k) && AllWaiting(k, Listed(k, l))
    requires k' == E.VisitAll(k, Listed(k, l), g.bits | more) && total == E.ClearMask(k, Listed(k, l), g.bits | more)
    ensures E.Set(k, g, l, more) == (k', E.Group(E.Cleared(g.bits | more, total)))
  {
    hide E.VisitAll, E.ClearMask, E.Cleared, Inv, AllWaiting;
  }

  lemma SetStaysValid(k: Kernel, g: E.Group, l: ListId, more: bv32)
    requires Inv(k) && E.GroupInv(k, g, l)
    ensures var r := E.Set(k, g, l, more); Inv(r.0) && E.GroupInv(r.0, r.1, l)
  {
    hide E.Set, E.GroupInv, Frame, Sched;
    E.SetKeeps(k, g, l, more);
  }

  class Group {
    const kernel: Scheduler
    const waiters: ListId
    var bits: bv32

    constructor (kernel: Scheduler, waiters: ListId)
      requires Inv(kernel.State()) && Listed(kernel.State(), waiters) == []
      requires forall n :: n in kernel.nodes ==> kernel.nodes[n].home != Some(waiters)
      ensures this.kernel == kernel && this.waiters == waiters && Valid() && bits == 0
    {
      this.kernel, this.waiters, bits := kernel, waiters, 0;
    }

    ghost function State(): E.Group
      reads this
    {
      E.Group(bits)
    }

    ghost predicate Valid()
      reads this, kernel
    {
      Inv(kernel.State()) && E.GroupInv(kernel.State(), State(), waiters)
    }

    /** One waiter: if its condition holds it is given the snapshot and woken. */
    method Visit(n: NodeId) returns (fired: bool, clear: bv32)
      requires Inv(kernel.State()) && Waiting(kernel.State(), n) && n in kernel.nodes
      requires kernel.nodes[n].payload.Condition?
      modifies kernel
      ensures kernel.State() == E.Visit(old(kernel.State()), n, bits)
      ensures kernel.resumePoints == old(kernel.resumePoints)
      ensures fired == E.Fires(old(kernel.State()), n, bits) && clear == E.ClearOf(old(kernel.State()), n, bits)
    {
      var info := kernel.nodes[n].payload;
      fired := E.Met(info, bits);
      clear := 0;
      if fired {
        if info.clear {
          clear := info.want;
        }
        kernel.Write(n, info.(result := bits));
        kernel.WakeNode(n, false);
      }
    }

    /** The loop of `set`: every waiter is visited, though those that fire leave the list. */
    method VisitWaiters() returns (toClear: bv32)
      requires Between(kernel.State(), waiters, [], Listed(kernel.State(), waiters))
      modifies kernel
      ensures kernel.State() == E.VisitAll(old(kernel.State()), Listed(old(kernel.State()), waiters), bits)
      ensures toClear == E.ClearMask(old(kernel.State()), Listed(old(kernel.State()), waiters), bits)
      ensures kernel.resumePoints == old(kernel.resumePoints)
    {
      hide Or, Between, Gathered, E.VisitAll, E.Visit, E.ClearOf, E.ClearMask, Waiting, AllWaiting, Inv;
      ghost var k := kernel.State();
      ghost var total := E.ClearMask(k, Listed(k, waiters), bits);
      ghost var kept, rest := [], Listed(k, waiters);
      BetweenIs(k, waiters, kept, rest);
      GatherStart(k, rest, bits);
      toClear := 0;
      var i := 0;
      while waiters in kernel.waits && i < |kernel.waits[waiters]|
        invariant Between(kernel.State(), waiters, kept, rest) && i == |kept|
        invariant Inv(kernel.State()) && AllWaiting(kernel.State(), rest)
        invariant Listed(kernel.State(), waiters) == kept + rest
        invariant E.VisitAll(kernel.State(), rest, bits) == E.VisitAll(k, Listed(k, waiters), bits)
        invariant Gathered(toClear, kernel.State(), rest, bits, total)
        invariant kernel.resumePoints == old(kernel.resumePoints)
        decreases |rest|
      {
        ghost var k1 := kernel.State();
        VisitStep(k1, waiters, kept, rest, bits);
        var fired, clear := Visit(kernel.waits[waiters][i]);
        GatherStep(toClear, k1, rest, kernel.State(), bits, total);
        toClear := Or(toClear, clear);
        if !fired {
          i := i + 1;
          kept := kept + [rest[0]];
        }
        rest := rest[1..];
        BetweenIs(kernel.State(), waiters, kept, rest);
      }
      assert rest == [];
      TraversalEnds(kernel.State(), bits, toClear, total);
    }

    method SetLocked(more: bv32)
      requires Inv(kernel.State()) && AllWaiting(kernel.State(), Listed(kernel.State(), waiters))
      requires Between(kernel.State(), waiters, [], Listed(kernel.State(), waiters))
      modifies this, kernel
      ensures (kernel.State(), State()) == E.Set(old(kernel.State()), old(State()), waiters, more)
      ensures kernel.resumePoints == old(kernel.resumePoints)
    {
      hide Inv, E.Set, E.VisitAll, E.ClearMask, E.Cleared, Between, AllWaiting;
      bits := bits | more;
      var toClear := VisitWaiters();
      SetIs(old(kernel.State()), old(State()), waiters, more, kernel.State(), toClear);
      bits := E.Cleared(bits, toClear);
    }

    /** `set`: raise the bits, visit every waiter, and clear only afterwards. */
    method Set(more: bv32)
      requires Valid()
      modifies this, kernel
      ensures Valid() && (kernel.State(), State()) == E.Set(old(kernel.State()), old(State()), waiters, more)
      ensures kernel.resumePoints == old(kernel.resumePoints)
    {
      hide Inv, E.Set, E.GroupInv, Between, AllWaiting;
      SetStaysValid(kernel.State(), State(), waiters, more);
      TraversalStarts(kernel.State(), State(), waiters);
      BetweenIs(kernel.State(), waiters, [], Listed(kernel.State(), waiters));
      SetLocked(more);
    }

    method Clear(less: bv32) returns (was: bv32)
      requires Valid()
      modifies this
      ensures Valid() && (State(), was) == E.Clear(old(State()), less)
    {
      E.ClearKeeps(kernel.State(), State(), waiters, less);
      was := bits;
      bits := E.Cleared(bits, less);
    }

    /** The suspension point of `wait_any`, `wait_all` and their timed forms. */
    method Wait(want: bv32, all: bool, clear: bool, timeout: Option<Tick>, point: Handle) returns (got: Option<bv32>)
      requires Valid() && InTask(kernel.State())
      modifies this, kernel
      ensures Valid()
      ensures (kernel.State(), State(), got)
              == E.Wait(old(kernel.State()), old(State()), waiters, want, all, clear, timeout)
      ensures kernel.resumePoints == StoredIf(got == None, old(kernel.resumePoints), old(kernel.current), point)
    {
      hide Inv, InTask, E.GroupInv, E.Holds;
      E.WaitKeeps(kernel.State(), State(), waiters, want, all, clear, timeout);
      if E.Holds(want, all, bits) {
        got := Some(bits);
        if clear {
          bits := E.Cleared(bits, want);
        }
        var id := kernel.TakeNumber();
      } else {
        got := None;
        var n := kernel.BlockCurrent(Some(waiters), Condition(want, all, clear, 0), timeout, point);
      }
    }

    /** The second half of `sync`: pass, or wait for the others. */
    method Meet(candidate: bv32, want: bv32, point: Handle) returns (got: Option<bv32>)
      requires Inv(kernel.State()) && InTask(kernel.State())
      modifies this, kernel
      ensures (kernel.State(), State(), got) == E.Meet(old(kernel.State()), old(State()), waiters, candidate, want)
      ensures kernel.resumePoints == StoredIf(got == None, old(kernel.resumePoints), old(kernel.current), point)
    {
      hide Inv, InTask, E.Holds;
      if E.Holds(want, true, candidate) {
        got := Some(candidate);
        bits := E.Cleared(bits, want);
        var id := kernel.TakeNumber();
      } else {
        got := None;
        var n := kernel.BlockCurrent(Some(waiters), Condition(want, true, true, 0), None, point);
      }
    }

    /** `sync`: the condition is decided by the bits before anybody's clear-on-exit. */
    method Sync(more: bv32, want: bv32, point: Handle) returns (got: Option<bv32>)
      requires Valid() && InTask(kernel.State())
      modifies this, kernel
      ensures Valid()
      ensures (kernel.State(), State(), got) == E.Sync(old(kernel.State()), old(State()), waiters, more, want)
      ensures kernel.resumePoints == StoredIf(got == None, old(kernel.resumePoints), old(kernel.current), point)
    {
      hide Inv, InTask, E.Set, E.Meet, E.GroupInv;
      SyncStaysValid(kernel.State(), State(), waiters, more, want);
      E.SetKeepsInv(kernel.State(), State(), waiters, more);
      var candidate := bits | more;
      Set(more);
      got := Meet(candidate, want, point);
    }
  }

  lemma SyncStaysValid(k: Kernel, g: E.Group, l: ListId, more: bv32, want: bv32)
    requires Inv(k) && InTask(k) && E.GroupInv(k, g, l)
    ensures var r := E.Sync(k, g, l, more, want); Inv(r.0) && E.GroupInv(r.0, r.1, l)
  {
    hide E.Sync, E.GroupInv, Frame, Sched;
    E.SyncKeeps(k, g, l, more, want);
  }
}
