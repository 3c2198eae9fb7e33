/** A rendezvous of tasks on an event group, and what the bits of the group say about it. */
module Barrier {
  import opened Sequences
  import opened Kernel
  import opened EventGroup

  /** Participant `members[i]` raises `masks[i]` and waits for `whole`. */
  datatype Rendezvous = Rendezvous(group: nat, members: seq<TaskId>, masks: seq<bv32>, whole: bv32)

  ghost predicate AllWithin(masks: seq<bv32>, b: bv32) {
    forall i :: 0 <= i < |masks| ==> Within(masks[i], b)
  }

  /** `whole` is the least mask that contains all of `masks`. */
  ghost predicate IsUnion(masks: seq<bv32>, whole: bv32) {
    AllWithin(masks, whole) && forall b {:trigger AllWithin(masks, b)} :: AllWithin(masks, b) ==> Within(whole, b)
  }

  predicate NonZero(m: bv32) {
    m != 0
  }

  /** Distinct participants with disjoint masks that together make up the wait mask. */
  ghost predicate Valid(r: Rendezvous) {
    && |r.members| == |r.masks| > 0
    && NoDup(r.members)
    && (forall i :: 0 <= i < |r.masks| ==> NonZero(r.masks[i]))
    && (forall i, j :: 0 <= i < |r.masks| && 0 <= j < |r.masks| && i != j ==> Disjoint(r.masks[i], r.masks[j]))
    && IsUnion(r.masks, r.whole)
  }

  /** All bits of a participant's mask are set if it has arrived, none if it has not. */
  predicate Reflects(bits: bv32, m: bv32, arrived: bool) {
    if arrived then Within(m, bits) else Disjoint(bits, m)
  }

  ghost predicate Shown(bits: bv32, r: Rendezvous, arrived: seq<bool>) {
    |arrived| == |r.masks| && forall i :: 0 <= i < |r.masks| ==> Reflects(bits, r.masks[i], arrived[i])
  }

  function UnionOf(masks: seq<bv32>): bv32 {
    if masks == [] then 0 else masks[0] | UnionOf(masks[1..])
  }

  lemma OrContains(a: bv32, b: bv32)
    ensures Within(a, a | b)
  {
  }

  lemma OrContainsSecond(a: bv32, b: bv32)
    ensures Within(b, a | b)
  {
  }

  lemma OrIsLeast(a: bv32, b: bv32, c: bv32)
    requires Within(a, c) && Within(b, c)
    ensures Within(a | b, c)
  {
    AndOver(a, b, c);
  }

  lemma NothingWithin(b: bv32)
    ensures Within(0, b)
  {
  }

  lemma UnionContains(masks: seq<bv32>, i: nat)
    requires i < |masks|
    ensures Within(masks[i], UnionOf(masks))
    decreases |masks|
  {
    hide Within;
    if i == 0 {
      OrContains(masks[0], UnionOf(masks[1..]));
    } else {
      UnionContains(masks[1..], i - 1);
      OrContainsSecond(masks[0], UnionOf(masks[1..]));
      WithinTrans(masks[i], UnionOf(masks[1..]), UnionOf(masks));
    }
  }

  lemma {:induction false} UnionLeast(masks: seq<bv32>, b: bv32)
    requires AllWithin(masks, b)
    ensures Within(UnionOf(masks), b)
    decreases |masks|
  {
    hide Within;
    if masks == [] {
      NothingWithin(b);
    } else {
      assert AllWithin(masks[1..], b);
      UnionLeast(masks[1..], b);
      OrIsLeast(masks[0], UnionOf(masks[1..]), b);
    }
  }

  /** Any masks have a union, and with it as wait mask their rendezvous can be valid. */
  lemma UnionExists(masks: seq<bv32>)
    ensures IsUnion(masks, UnionOf(masks))
  {
    hide Within, UnionOf;
    forall i | 0 <= i < |masks| ensures Within(masks[i], UnionOf(masks)) {
      UnionContains(masks, i);
    }
    forall b | AllWithin(masks, b) ensures Within(UnionOf(masks), b) {
      UnionLeast(masks, b);
    }
  }

  /** Distinct participants with disjoint non-zero masks have a valid rendezvous, and only one:
      its wait mask is determined. */
  lemma RendezvousExists(group: nat, members: seq<TaskId>, masks: seq<bv32>, whole: bv32)
    requires |members| == |masks| > 0 && NoDup(members)
    requires forall i :: 0 <= i < |masks| ==> NonZero(masks[i])
    requires forall i, j :: 0 <= i < |masks| && 0 <= j < |masks| && i != j ==> Disjoint(masks[i], masks[j])
    ensures Valid(Rendezvous(group, members, masks, whole)) <==> whole == UnionOf(masks)
  {
    hide Within, UnionOf, NonZero, Disjoint;
    UnionExists(masks);
    if IsUnion(masks, whole) {
      assert Within(whole, UnionOf(masks)) && Within(UnionOf(masks), whole);
      MutuallyWithin(whole, UnionOf(masks));
    }
  }

  lemma MutuallyWithin(a: bv32, b: bv32)
    requires Within(a, b) && Within(b, a)
    ensures a == b
  {
  }

  // ---------------------------------------------------------------- single masks

  lemma RaiseApart(bits: bv32, more: bv32, mask: bv32)
    requires Disjoint(more, mask)
    ensures SameOn(bits | more, bits, mask)
  {
  }

  lemma ClearApart(bits: bv32, less: bv32, mask: bv32)
    requires Disjoint(less, mask)
    ensures SameOn(Cleared(bits, less), bits, mask)
  {
  }

  lemma NotDisjointSelf(w: bv32)
    ensures Disjoint(w, w) <==> !NonZero(w)
  {
  }

  lemma WithinNonZero(m: bv32, w: bv32)
    requires Within(m, w) && NonZero(m)
    ensures NonZero(w)
  {
  }

  lemma SameOnTrans(a: bv32, b: bv32, c: bv32, mask: bv32)
    requires SameOn(a, b, mask) && SameOn(b, c, mask)
    ensures SameOn(a, c, mask)
  {
  }

  lemma ReflectsSame(a: bv32, b: bv32, mask: bv32, m: bv32, arrived: bool)
    requires SameOn(a, b, mask) && Within(m, mask) && Reflects(b, m, arrived)
    ensures Reflects(a, m, arrived)
  {
  }

  lemma RaiseOwn(bits: bv32, m: bv32)
    ensures Reflects(bits | m, m, true)
  {
  }

  lemma RaiseOther(bits: bv32, m: bv32, other: bv32, arrived: bool)
    requires Disjoint(m, other) && Reflects(bits, other, arrived)
    ensures Reflects(bits | m, other, arrived)
  {
  }

  lemma ClearedApart(bits: bv32, mask: bv32, m: bv32)
    requires Within(m, mask)
    ensures Reflects(Cleared(bits, mask), m, false)
  {
  }

  lemma NotBoth(bits: bv32, m: bv32)
    requires Within(m, bits) && Disjoint(bits, m)
    ensures !NonZero(m)
  {
  }

  lemma HoldsIsWithin(want: bv32, bits: bv32)
    ensures Holds(want, true, bits) <==> Within(want, bits)
  {
  }

  lemma SameOnHolds(a: bv32, b: bv32, want: bv32)
    requires SameOn(a, b, want)
    ensures Holds(want, true, a) <==> Holds(want, true, b)
  {
  }

  // ---------------------------------------------------------------- the whole rendezvous

  lemma WholeNonZero(r: Rendezvous)
    requires Valid(r)
    ensures NonZero(r.whole)
  {
    WithinNonZero(r.masks[0], r.whole);
  }

  lemma ShownSame(r: Rendezvous, a: bv32, b: bv32, arrived: seq<bool>)
    requires Valid(r) && SameOn(a, b, r.whole) && Shown(b, r, arrived)
    ensures Shown(a, r, arrived)
  {
    hide Within, Disjoint, Reflects, SameOn, NonZero;
    forall i | 0 <= i < |r.masks| ensures Reflects(a, r.masks[i], arrived[i]) {
      ReflectsSame(a, b, r.whole, r.masks[i], arrived[i]);
    }
  }

  lemma RaiseReflects(r: Rendezvous, bits: bv32, arrived: seq<bool>, i: nat, j: nat)
    requires Valid(r) && Shown(bits, r, arrived) && i < |r.masks| && j < |r.masks|
    ensures Reflects(bits | r.masks[i], r.masks[j], j == i || arrived[j])
  {
    hide Within, Disjoint, Reflects, IsUnion, NonZero;
    if j == i {
      RaiseOwn(bits, r.masks[i]);
    } else {
      RaiseOther(bits, r.masks[i], r.masks[j], arrived[j]);
    }
  }

  lemma ShownJoin(r: Rendezvous, bits: bv32, arrived: seq<bool>, i: nat)
    requires Valid(r) && Shown(bits, r, arrived) && i < |r.masks|
    ensures Shown(bits | r.masks[i], r, arrived[i := true])
  {
    hide Within, Disjoint, Reflects, Valid;
    forall j | 0 <= j < |r.masks| ensures Reflects(bits | r.masks[i], r.masks[j], j == i || arrived[j]) {
      RaiseReflects(r, bits, arrived, i, j);
    }
    NowShown(r, bits | r.masks[i], arrived, i);
  }

  lemma NowShown(r: Rendezvous, raised: bv32, arrived: seq<bool>, i: nat)
    requires |arrived| == |r.masks| && i < |r.masks|
    requires forall j :: 0 <= j < |r.masks| ==> Reflects(raised, r.masks[j], j == i || arrived[j])
    ensures Shown(raised, r, arrived[i := true])
  {
    hide Reflects;
  }

  lemma ShownCleared(r: Rendezvous, bits: bv32, nobody: seq<bool>)
    requires Valid(r) && |nobody| == |r.masks| && forall i :: 0 <= i < |nobody| ==> !nobody[i]
    ensures Shown(Cleared(bits, r.whole), r, nobody)
  {
    hide Within, Disjoint, Reflects, Cleared, NonZero;
    forall i | 0 <= i < |r.masks| ensures Reflects(Cleared(bits, r.whole), r.masks[i], nobody[i]) {
      ClearedApart(bits, r.whole, r.masks[i]);
    }
  }

  /** The bits show the whole mask exactly when everybody has arrived. */
  lemma ShownComplete(r: Rendezvous, bits: bv32, arrived: seq<bool>)
    requires Valid(r) && Shown(bits, r, arrived)
    ensures Holds(r.whole, true, bits) <==> forall i :: 0 <= i < |arrived| ==> arrived[i]
  {
    HoldsIsWithin(r.whole, bits);
    if Within(r.whole, bits) {
      forall i | 0 <= i < |arrived| ensures arrived[i] {
        WithinTrans(r.masks[i], r.whole, bits);
        if !arrived[i] { NotBoth(bits, r.masks[i]); }
      }
    }
    if forall i :: 0 <= i < |arrived| ==> arrived[i] {
      assert AllWithin(r.masks, bits) by {
        forall i | 0 <= i < |r.masks| ensures Within(r.masks[i], bits) {
          assert Reflects(bits, r.masks[i], arrived[i]);
        }
      }
    }
  }
}
