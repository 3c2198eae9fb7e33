/** Arriving at a rendezvous, and using its group for other things at the same time. */
module Arriving {
  import opened Sequences
  import opened Time
  import opened Kernel
  import opened Requests
  import opened EventGroup
  import opened Barrier
  import opened BarrierSteps

  // ---------------------------------------------------------------- arriving

  lemma ArrivedUnmet(k: Kernel, g: Group, r: Rendezvous, i: nat)
    requires GroupInv(k, g, GroupWaiters(r.group)) && i < |r.members| && Arrived(k, r, i)
    ensures !Holds(r.whole, true, g.bits)
  {
    var n :| n in Listed(k, GroupWaiters(r.group)) && Rests(k, r, n, i);
    assert Unmet(k, n, g.bits);
  }

  /** Not everybody can be waiting: the bits would have released them. */
  lemma SomebodyMissing(k: Kernel, g: Group, r: Rendezvous)
    requires GroupInv(k, g, GroupWaiters(r.group)) && BarrierOn(k, g, r)
    ensures !Holds(r.whole, true, g.bits)
    ensures exists i :: 0 <= i < |r.members| && !Arrived(k, r, i)
  {
    var a := Arrivals(k, r);
    ShownComplete(r, g.bits, a);
    assert a[0] == Arrived(k, r, 0);
    if Arrived(k, r, 0) { ArrivedUnmet(k, g, r, 0); }
    var i :| 0 <= i < |a| && !a[i];
    assert !Arrived(k, r, i);
  }

  lemma MemberIsNotWaiting(k: Kernel, r: Rendezvous, i: nat)
    requires Inv(k) && InTask(k) && i < |r.members| && k.current == Some(r.members[i])
    ensures !Arrived(k, r, i)
  {
    ListedWait(k, GroupWaiters(r.group));
  }

  ghost predicate OthersArrived(k: Kernel, r: Rendezvous, i: nat) {
    forall j :: 0 <= j < |r.members| && j != i ==> Arrived(k, r, j)
  }

  /** The arrival of participant `i` completes the mask exactly if all others have arrived. */
  lemma JoinCompletes(k: Kernel, g: Group, r: Rendezvous, i: nat)
    requires BarrierOn(k, g, r) && i < |r.members|
    ensures Shown(g.bits | r.masks[i], r, Arrivals(k, r)[i := true])
    ensures Holds(r.whole, true, g.bits | r.masks[i]) <==> OthersArrived(k, r, i)
  {
    var a := Arrivals(k, r);
    ShownJoin(r, g.bits, a, i);
    ShownComplete(r, g.bits | r.masks[i], a[i := true]);
    assert forall j :: 0 <= j < |a| ==> (a[i := true][j] <==> j == i || Arrived(k, r, j));
  }

  /** The end of a `sync` that completed the mask. */
  lemma MeetPassesAll(k: Kernel, g: Group, r: Rendezvous, candidate: bv32)
    requires Inv(k) && InTask(k) && Valid(r) && AllTame(k, r) && Holds(r.whole, true, candidate)
    requires forall i :: 0 <= i < |r.members| ==> !Arrived(k, r, i)
    ensures var (k', g', got) := Meet(k, g, GroupWaiters(r.group), candidate, r.whole);
            got == Some(candidate) && k' == Stamp(k) && Arrivals(k', r) == Arrivals(k, r)
            && BarrierOn(k', g', r) && Disjoint(g'.bits, r.whole)
  {
    StampArrives(k, r);
    ShownCleared(r, g.bits, Arrivals(k, r));
    ClearedSelf(r.whole);
    ClearedApart(g.bits, r.whole, r.whole);
  }

  lemma ClearedSelf(m: bv32)
    ensures Within(m, m)
  {
  }

  /** `sync` is `set`, then passing or waiting by the bits before anybody's clear-on-exit. */
  lemma SyncParts(k: Kernel, g: Group, l: ListId, bits: bv32, want: bv32)
    requires Inv(k) && InTask(k)
    ensures var s := Set(k, g, l, bits);
            && Inv(s.0) && InTask(s.0) && s.0.current == k.current
            && Sync(k, g, l, bits, want) == Meet(s.0, s.1, l, g.bits | bits, want)
  {
    hide Set, Meet, Inv, InTask;
    SetKeepsInv(k, g, l, bits);
  }

  /** A `sync` that raises `m` passes, releases all participants and clears the mask. */
  ghost predicate PassesAll(k: Kernel, g: Group, r: Rendezvous, m: bv32)
    requires Inv(k) && InTask(k)
  {
    var (k', g', got) := Sync(k, g, GroupWaiters(r.group), m, r.whole);
    && got == Some(g.bits | m) && Holds(r.whole, true, g.bits | m)
    && AllReleased(k, k', r, g.bits | m)
    && Disjoint(g'.bits, r.whole) && BarrierOn(k', g', r)
  }

  lemma LastPasses(k: Kernel, g: Group, r: Rendezvous, bits: bv32)
    requires Inv(k) && InTask(k) && Valid(r) && AllTame(k, r) && Holds(r.whole, true, g.bits | bits)
    ensures PassesAll(k, g, r, bits)
  {
    hide Sync, Set, Meet, Valid, Shown, AllTame, Inv, InTask, GroupInv, BarrierOn, Within, Disjoint, SameOn, Reflects;
    hide Holds;
    var s := Set(k, g, GroupWaiters(r.group), bits);
    SyncParts(k, g, GroupWaiters(r.group), bits, r.whole);
    SetComplete(k, g, r, bits);
    MeetPassesAll(s.0, s.1, r, g.bits | bits);
    ReleasedStays(k, s.0, r, g.bits | bits);
  }

  /** The last to arrive passes at once and releases all others, everybody with the same
      snapshot; it contains the whole mask, which is cleared. */
  lemma LastArrival(k: Kernel, g: Group, r: Rendezvous, i: nat)
    requires Inv(k) && InTask(k) && BarrierOn(k, g, r)
    requires i < |r.members| && k.current == Some(r.members[i]) && OthersArrived(k, r, i)
    ensures PassesAll(k, g, r, r.masks[i])
  {
    hide PassesAll, AllTame, Inv, InTask, Shown, IsUnion, Within, Disjoint, Holds;
    JoinCompletes(k, g, r, i);
    LastPasses(k, g, r, r.masks[i]);
  }

  lemma ReleasedStays(k: Kernel, k1: Kernel, r: Rendezvous, b: bv32)
    requires AllReleased(k, k1, r, b) && Arrivals(Stamp(k1), r) == Arrivals(k1, r)
    ensures AllReleased(k, Stamp(k1), r, b)
  {
    forall i | 0 <= i < |r.members| ensures !Arrived(Stamp(k1), r, i) && Released(k, Stamp(k1), r, i, b) {
      assert Arrivals(Stamp(k1), r)[i] == Arrivals(k1, r)[i];
    }
  }

  lemma OneMore(k: Kernel, r: Rendezvous, i: nat)
    requires Inv(k) && InTask(k) && i < |r.members| && k.current == Some(r.members[i]) && NoDup(r.members)
    ensures var k' := Block(k, Some(GroupWaiters(r.group)), Condition(r.whole, true, true, 0), None);
            Arrivals(k', r) == Arrivals(k, r)[i := true]
  {
    forall j | 0 <= j < |r.members|
      ensures Arrived(Block(k, Some(GroupWaiters(r.group)), Condition(r.whole, true, true, 0), None), r, j)
              <==> j == i || Arrived(k, r, j)
    {
      BlockArrives(k, r, Condition(r.whole, true, true, 0), None, j);
      assert r.members[j] == r.members[i] <==> j == i;
    }
  }

  /** The end of a `sync` that did not complete the mask. */
  lemma MeetWaitsAs(k: Kernel, g: Group, r: Rendezvous, candidate: bv32, i: nat)
    requires Inv(k) && InTask(k) && Valid(r) && AllTame(k, r) && !Holds(r.whole, true, candidate)
    requires i < |r.members| && k.current == Some(r.members[i])
    requires Shown(g.bits, r, Arrivals(k, r)[i := true])
    ensures var (k', g', got) := Meet(k, g, GroupWaiters(r.group), candidate, r.whole);
            got == None && Arrivals(k', r) == Arrivals(k, r)[i := true] && BarrierOn(k', g', r)
  {
    BlockStaysTame(k, r, Condition(r.whole, true, true, 0), None);
    OneMore(k, r, i);
  }

  lemma EarlyWaits(k: Kernel, g: Group, r: Rendezvous, i: nat, m: bv32)
    requires Inv(k) && InTask(k) && Valid(r) && AllTame(k, r)
    requires i < |r.members| && k.current == Some(r.members[i]) && !Holds(r.whole, true, g.bits | m)
    requires Shown(g.bits | m, r, Arrivals(k, r)[i := true])
    ensures var (k', g', got) := Sync(k, g, GroupWaiters(r.group), m, r.whole);
            got == None && Arrivals(k', r) == Arrivals(k, r)[i := true] && BarrierOn(k', g', r)
  {
    hide Sync, Set, Meet, Valid, Shown, AllTame, Inv, InTask, GroupInv, BarrierOn, Within, Disjoint, SameOn, Reflects;
    hide Holds;
    var s := Set(k, g, GroupWaiters(r.group), m);
    SyncParts(k, g, GroupWaiters(r.group), m, r.whole);
    SetIncomplete(k, g, r, m);
    ShownSame(r, s.1.bits, g.bits | m, Arrivals(k, r)[i := true]);
    MeetWaitsAs(s.0, s.1, r, g.bits | m, i);
  }

  /** Before that, whoever arrives waits; nobody is released. */
  lemma EarlyArrival(k: Kernel, g: Group, r: Rendezvous, i: nat)
    requires Inv(k) && InTask(k) && BarrierOn(k, g, r)
    requires i < |r.members| && k.current == Some(r.members[i]) && !OthersArrived(k, r, i)
    ensures var (k', g', got) := Sync(k, g, GroupWaiters(r.group), r.masks[i], r.whole);
            got == None && Arrivals(k', r) == Arrivals(k, r)[i := true] && BarrierOn(k', g', r)
  {
    hide IsUnion, NonZero, Sync, Set, Meet, Shown, AllTame, Inv, InTask, Within, Disjoint, SameOn, Reflects, Holds;
    JoinCompletes(k, g, r, i);
    EarlyWaits(k, g, r, i, r.masks[i]);
  }

  // ---------------------------------------------------------------- other uses of the group

  lemma StillShown(k: Kernel, g: Group, r: Rendezvous, bits: bv32)
    requires Inv(k) && Valid(r) && Shown(g.bits, r, Arrivals(k, r)) && AllTame(k, r)
    requires !Holds(r.whole, true, g.bits | bits) && SameOn(g.bits | bits, g.bits, r.whole)
    ensures Shown(Set(k, g, GroupWaiters(r.group), bits).1.bits, r, Arrivals(k, r))
  {
    hide Set, Meet, Valid, Shown, AllTame, Inv, GroupInv, AllReleased, Within, Disjoint, SameOn, Reflects, Holds;
    var left := Set(k, g, GroupWaiters(r.group), bits).1.bits;
    SetIncomplete(k, g, r, bits);
    SameOnTrans(left, g.bits | bits, g.bits, r.whole);
    ShownSame(r, left, g.bits, Arrivals(k, r));
  }

  lemma SetUndisturbed(k: Kernel, g: Group, r: Rendezvous, bits: bv32)
    requires Inv(k) && Valid(r) && Shown(g.bits, r, Arrivals(k, r)) && AllTame(k, r)
    requires !Holds(r.whole, true, g.bits | bits) && SameOn(g.bits | bits, g.bits, r.whole)
    ensures var (k', g') := Set(k, g, GroupWaiters(r.group), bits);
            BarrierOn(k', g', r) && Arrivals(k', r) == Arrivals(k, r)
  {
    hide Set, Meet, Valid, Shown, AllTame, Inv, GroupInv, AllReleased, Within, Disjoint, SameOn, Reflects, Holds;
    SetIncomplete(k, g, r, bits);
    StillShown(k, g, r, bits);
  }

  /** Bits outside the rendezvous neither complete nor disturb it. */
  lemma ForeignSet(k: Kernel, g: Group, r: Rendezvous, bits: bv32)
    requires Inv(k) && GroupInv(k, g, GroupWaiters(r.group)) && BarrierOn(k, g, r) && Disjoint(bits, r.whole)
    ensures var (k', g') := Set(k, g, GroupWaiters(r.group), bits);
            BarrierOn(k', g', r) && Arrivals(k', r) == Arrivals(k, r)
  {
    hide Set, Meet, Valid, Shown, AllTame, Inv, GroupInv, AllReleased, Within, Disjoint, SameOn, Reflects, Holds;
    SomebodyMissing(k, g, r);
    RaiseApart(g.bits, bits, r.whole);
    SameOnHolds(g.bits | bits, g.bits, r.whole);
    SetUndisturbed(k, g, r, bits);
  }

  lemma Unchanged(k: Kernel, k': Kernel, g: Group, g': Group, r: Rendezvous)
    requires BarrierOn(k, g, r) && AllTame(k', r) && Arrivals(k', r) == Arrivals(k, r)
    requires SameOn(g'.bits, g.bits, r.whole)
    ensures BarrierOn(k', g', r)
  {
    ShownSame(r, g'.bits, g.bits, Arrivals(k, r));
  }

  lemma ForeignWaitOn(k: Kernel, g: Group, r: Rendezvous, want: bv32, all: bool, clear: bool, timeout: Option<Tick>)
    requires Inv(k) && InTask(k) && BarrierOn(k, g, r) && (clear ==> Disjoint(want, r.whole))
    ensures var k' := Block(k, Some(GroupWaiters(r.group)), Condition(want, all, clear, 0), timeout);
            BarrierOn(k', g, r) && Arrivals(k', r) == Arrivals(k, r)
  {
    hide Valid, Shown, AllTame, Inv, InTask, Disjoint, Block;
    ForeignWait(k, r, want, all, clear, timeout);
  }

  lemma ForeignMeet(k: Kernel, g: Group, r: Rendezvous, candidate: bv32, want: bv32)
    requires Inv(k) && InTask(k) && BarrierOn(k, g, r) && Disjoint(want, r.whole)
    ensures var (k', g', got) := Meet(k, g, GroupWaiters(r.group), candidate, want);
            BarrierOn(k', g', r) && Arrivals(k', r) == Arrivals(k, r)
  {
    hide BarrierOn, Inv, InTask, Disjoint, Holds, Cleared;
    if Holds(want, true, candidate) {
      Taking(k, g, r, want, true);
    } else {
      ForeignWaitOn(k, g, r, want, true, true, None);
    }
  }

  /** A rendezvous of other tasks, or on other bits, in the same group. */
  lemma ForeignSync(k: Kernel, g: Group, r: Rendezvous, bits: bv32, want: bv32)
    requires Inv(k) && InTask(k) && GroupInv(k, g, GroupWaiters(r.group)) && BarrierOn(k, g, r)
    requires Disjoint(bits, r.whole) && Disjoint(want, r.whole)
    ensures var (k', g', got) := Sync(k, g, GroupWaiters(r.group), bits, want);
            BarrierOn(k', g', r) && Arrivals(k', r) == Arrivals(k, r)
  {
    hide Sync, Set, Meet, Valid, Shown, AllTame, Inv, InTask, GroupInv, BarrierOn, Within, Disjoint, SameOn, Reflects;
    hide Holds;
    var s := Set(k, g, GroupWaiters(r.group), bits);
    SyncParts(k, g, GroupWaiters(r.group), bits, want);
    ForeignSet(k, g, r, bits);
    ForeignMeet(s.0, s.1, r, g.bits | bits, want);
  }

  lemma Taking(k: Kernel, g: Group, r: Rendezvous, want: bv32, clear: bool)
    requires Inv(k) && BarrierOn(k, g, r) && (clear ==> Disjoint(want, r.whole))
    ensures BarrierOn(Stamp(k), if clear then Group(Cleared(g.bits, want)) else g, r)
    ensures Arrivals(Stamp(k), r) == Arrivals(k, r)
  {
    hide Valid, Shown, AllTame, Inv, Within, Disjoint, SameOn, Reflects, Holds, Cleared;
    StampArrives(k, r);
    if clear {
      ClearApart(g.bits, want, r.whole);
      Unchanged(k, Stamp(k), g, Group(Cleared(g.bits, want)), r);
    }
  }

  /** Watching the bits of the rendezvous is harmless unless it clears them. */
  lemma Watching(k: Kernel, g: Group, r: Rendezvous, want: bv32, all: bool, clear: bool, timeout: Option<Tick>)
    requires Inv(k) && InTask(k) && BarrierOn(k, g, r) && (clear ==> Disjoint(want, r.whole))
    ensures var (k', g', got) := Wait(k, g, GroupWaiters(r.group), want, all, clear, timeout);
            BarrierOn(k', g', r) && Arrivals(k', r) == Arrivals(k, r)
  {
    hide BarrierOn, Inv, InTask, Disjoint, Holds, Cleared;
    if Holds(want, all, g.bits) {
      Taking(k, g, r, want, clear);
    } else {
      ForeignWaitOn(k, g, r, want, all, clear, timeout);
    }
  }

  lemma ForeignClear(k: Kernel, g: Group, r: Rendezvous, bits: bv32)
    requires BarrierOn(k, g, r) && Disjoint(bits, r.whole)
    ensures BarrierOn(k, Clear(g, bits).0, r)
  {
    hide Valid, Shown, Within, Disjoint, SameOn, Reflects, Holds;
    ClearApart(g.bits, bits, r.whole);
    Unchanged(k, k, g, Clear(g, bits).0, r);
  }
}
