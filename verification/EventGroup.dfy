/** Event groups (include/rtos/event_group.hpp): 32 flags, waiting for any or all of a mask,
    and the rendezvous `sync`. */
module EventGroup {
  import opened Sequences
  import opened Time
  import opened Kernel
  import opened KernelProofs
  import opened Waking
  import opened Requests
  import opened Evolution
  import opened Bits
  import opened Effects

  datatype Group = Group(bits: bv32)

  // ---------------------------------------------------------------- operations

  predicate Holds(want: bv32, all: bool, bits: bv32) {
    if all then bits & want == want else bits & want != 0
  }

  /** The condition flag by flag: all the wanted ones are set, or some of them is. */
  ghost predicate Satisfied(want: bv32, all: bool, bits: bv32) {
    if all then Covers(bits, want) else Shares(bits, want)
  }

  lemma HoldsExactly(want: bv32, all: bool, bits: bv32)
    ensures Holds(want, all, bits) <==> Satisfied(want, all, bits)
  {
    CoversIs(bits, want);
    SharesIs(bits, want);
    hide Covers, Shares;
  }

  predicate Met(info: Payload, bits: bv32)
    requires info.Condition?
  {
    Holds(info.want, info.all, bits)
  }

  /** The nodes of `ns` whose condition holds on `bits`. */
  predicate Fires(k: Kernel, n: NodeId, bits: bv32) {
    n in k.nodes && k.nodes[n].payload.Condition? && Met(k.nodes[n].payload, bits)
  }

  ghost predicate Conditions(k: Kernel, ns: seq<NodeId>) {
    && AllWaiting(k, ns)
    && forall i :: 0 <= i < |ns| ==> ns[i] in k.nodes && k.nodes[ns[i]].payload.Condition?
  }

  /** One turn of the loop in `set`: wake the waiter with the snapshot if its condition holds. */
  function Visit(k: Kernel, n: NodeId, bits: bv32): Kernel
    requires Inv(k) && Waiting(k, n)
  {
    if Fires(k, n, bits) then
      DeliverKeepsInv(k, n, k.nodes[n].payload.(result := bits));
      Wake(Deliver(k, n, k.nodes[n].payload.(result := bits)), n, false)
    else k
  }

  /** All turns of the loop. */
  function VisitAll(k: Kernel, ns: seq<NodeId>, bits: bv32): Kernel
    requires Inv(k) && AllWaiting(k, ns)
    decreases |ns|
  {
    if ns == [] then k
    else
      VisitRest(k, ns, bits);
      VisitAll(Visit(k, ns[0], bits), ns[1..], bits)
  }

  /** The mask one waiter asks to clear. */
  function ClearOf(k: Kernel, n: NodeId, bits: bv32): bv32 {
    if Fires(k, n, bits) && k.nodes[n].payload.clear then k.nodes[n].payload.want else 0
  }

  /** The clear-on-exit masks of the waiters that fire, together. */
  function ClearMask(k: Kernel, ns: seq<NodeId>, bits: bv32): bv32 {
    if ns == [] then 0
    else Or(ClearOf(k, ns[0], bits), ClearMask(k, ns[1..], bits))
  }

  function Cleared(bits: bv32, mask: bv32): bv32 {
    And(bits, Not(mask))
  }

  /** `set`: raise the bits, wake everybody whose condition now holds, then clear. */
  function Set(k: Kernel, g: Group, l: ListId, bits: bv32): (Kernel, Group)
    requires Inv(k)
  {
    var b := g.bits | bits;
    ListedWait(k, l);
    (VisitAll(k, Listed(k, l), b), Group(Cleared(b, ClearMask(k, Listed(k, l), b))))
  }

  function Clear(g: Group, bits: bv32): (Group, bv32) {
    (Group(Cleared(g.bits, bits)), g.bits)
  }

  /** `wait_any`, `wait_all` and their timed forms; a value means that it did not block. */
  function Wait(k: Kernel, g: Group, l: ListId, want: bv32, all: bool, clear: bool, timeout: Option<Tick>)
      : (Kernel, Group, Option<bv32>)
    requires Inv(k) && InTask(k)
  {
    if Met(Condition(want, all, clear, 0), g.bits)
    then (Stamp(k), if clear then Group(Cleared(g.bits, want)) else g, Some(g.bits))
    else (Block(k, Some(l), Condition(want, all, clear, 0), timeout), g, None)
  }

  /** The end of `sync`: pass or wait, depending on the bits before anybody's clear-on-exit. */
  function Meet(k: Kernel, g: Group, l: ListId, candidate: bv32, want: bv32): (Kernel, Group, Option<bv32>)
    requires Inv(k) && InTask(k)
  {
    if Holds(want, true, candidate)
    then (Stamp(k), Group(Cleared(g.bits, want)), Some(candidate))
    else (Block(k, Some(l), Condition(want, true, true, 0), None), g, None)
  }

  /** `sync`: raise the own bits and wait for all of `want`. */
  function Sync(k: Kernel, g: Group, l: ListId, bits: bv32, want: bv32): (Kernel, Group, Option<bv32>)
    requires Inv(k) && InTask(k)
  {
    var (k1, g1) := Set(k, g, l, bits);
    SetKeepsInv(k, g, l, bits);
    Meet(k1, g1, l, g.bits | bits, want)
  }

  /** What a wait reports when the task runs again. */
  function WaitForResumes(got: Option<bv32>, node: WaitNode): Option<bv32> {
    if got.Some? then got else if node.timedOut || !node.payload.Condition? then None else Some(node.payload.result)
  }

  // ---------------------------------------------------------------- invariant

  ghost predicate Unmet(k: Kernel, n: NodeId, bits: bv32) {
    n in k.nodes && k.nodes[n].payload.Condition? && !Met(k.nodes[n].payload, bits)
  }

  ghost predicate WokenBySet(k: Kernel, n: NodeId, l: ListId)
    requires n in k.nodes
  {
    k.nodes[n].home == Some(l) && k.nodes[n].wakes == 1 && !k.nodes[n].timedOut
  }

  /** The snapshot handed to a waiter satisfies its condition. */
  ghost predicate Answered(k: Kernel, n: NodeId)
    requires n in k.nodes
  {
    k.nodes[n].payload.Condition? && Met(k.nodes[n].payload, k.nodes[n].payload.result)
  }

  /** No waiter's condition holds on the present bits; whoever was woken by a `set` was given
      a snapshot on which its condition holds. */
  ghost predicate GroupInv(k: Kernel, g: Group, l: ListId) {
    && (forall i :: 0 <= i < |Listed(k, l)| ==> Unmet(k, Listed(k, l)[i], g.bits))
    && (forall n {:trigger n in k.nodes} :: n in k.nodes && WokenBySet(k, n, l) ==> Answered(k, n))
  }

  // ---------------------------------------------------------------- bits

  predicate Within(a: bv32, b: bv32) {
    a & b == a
  }

  /** Conditions are monotone: more bits never make one false. */
  lemma HoldsMonotone(want: bv32, all: bool, a: bv32, b: bv32)
    requires Within(a, b) && Holds(want, all, a)
    ensures Holds(want, all, b)
  {
  }

  lemma ClearedWithin(b: bv32, m: bv32)
    ensures Within(Cleared(b, m), b)
  {
  }

  lemma WithinTrans(a: bv32, b: bv32, c: bv32)
    requires Within(a, b) && Within(b, c)
    ensures Within(a, c)
  {
  }

  // ---------------------------------------------------------------- the loop of set

  lemma VisitInv(k: Kernel, n: NodeId, bits: bv32)
    requires Inv(k) && Waiting(k, n)
    ensures Inv(Visit(k, n, bits))
  {
    if Fires(k, n, bits) {
      var p := k.nodes[n].payload.(result := bits);
      DeliverKeepsInv(k, n, p);
      WakeKeepsInv(Deliver(k, n, p), n, false);
    }
  }

  lemma VisitNodes(k: Kernel, n: NodeId, bits: bv32)
    requires Inv(k) && Waiting(k, n)
    ensures Visit(k, n, bits).nodes ==
            if Fires(k, n, bits)
            then var node := k.nodes[n];
                 k.nodes[n := node.(payload := node.payload.(result := bits), wakes := 1, timedOut := false)]
            else k.nodes
    ensures forall m :: Waiting(Visit(k, n, bits), m) <==> Waiting(k, m) && !(m == n && Fires(k, n, bits))
  {
    hide ReadyInv, ListsInv, BlockedInv, NodesInv;
    if Fires(k, n, bits) {
      var p := k.nodes[n].payload.(result := bits);
      DeliverKeepsInv(k, n, p);
      WakeEffect(Deliver(k, n, p), n, false);
      OtherWaitingKept(Deliver(k, n, p), n, false);
    }
  }

  lemma VisitLists(k: Kernel, n: NodeId, bits: bv32, l: ListId)
    requires Inv(k) && Waiting(k, n)
    ensures Listed(Visit(k, n, bits), l) == if Fires(k, n, bits) then Remove(Listed(k, l), n) else Listed(k, l)
  {
    hide Met;
    if Fires(k, n, bits) {
      var p := k.nodes[n].payload.(result := bits);
      DeliverKeepsInv(k, n, p);
      WakeEffect(Deliver(k, n, p), n, false);
    }
  }

  lemma VisitRest(k: Kernel, ns: seq<NodeId>, bits: bv32)
    requires Inv(k) && AllWaiting(k, ns) && ns != []
    ensures Waiting(k, ns[0]) && Inv(Visit(k, ns[0], bits)) && AllWaiting(Visit(k, ns[0], bits), ns[1..])
  {
    assert ns[0] in ns;
    VisitInv(k, ns[0], bits);
    VisitNodes(k, ns[0], bits);
    forall m | m in ns[1..] ensures Waiting(Visit(k, ns[0], bits), m) {
      assert m in ns && m != ns[0];
    }
  }

  lemma EvolveVisit(k: Kernel, n: NodeId, bits: bv32, l: ListId)
    requires Inv(k) && Waiting(k, n) && k.nodes[n].home == Some(l)
    ensures Evolves(k, Visit(k, n, bits), {l}, None, true)
  {
    if Fires(k, n, bits) {
      var p := k.nodes[n].payload.(result := bits);
      EvolveDeliver(k, n, p, l);
      EvolveWake(Deliver(k, n, p), n, l);
      EvolveTrans(k, Deliver(k, n, p), Visit(k, n, bits), {l}, None, true);
    } else {
      EvolveRefl(k);
      EvolveWiden(k, k, {}, None, true, {l}, None, true);
    }
  }

  ghost predicate AtHome(k: Kernel, ns: seq<NodeId>, l: ListId) {
    forall i :: 0 <= i < |ns| ==> ns[i] in k.nodes && k.nodes[ns[i]].home == Some(l)
  }

  lemma {:induction false} EvolveVisitAll(k: Kernel, ns: seq<NodeId>, bits: bv32, l: ListId)
    requires Inv(k) && AllWaiting(k, ns) && AtHome(k, ns, l)
    ensures Evolves(k, VisitAll(k, ns, bits), {l}, None, true)
    decreases |ns|
  {
    if ns == [] {
      EvolveRefl(k);
      EvolveWiden(k, k, {}, None, true, {l}, None, true);
    } else {
      VisitRest(k, ns, bits);
      var k1 := Visit(k, ns[0], bits);
      EvolveVisit(k, ns[0], bits, l);
      AtHomeRest(k, k1, ns, l);
      EvolveVisitAll(k1, ns[1..], bits, l);
      EvolveTrans(k, k1, VisitAll(k, ns, bits), {l}, None, true);
    }
  }

  lemma AtHomeRest(k: Kernel, k1: Kernel, ns: seq<NodeId>, l: ListId)
    requires ns != [] && AtHome(k, ns, l) && Frame(k, k1, {l})
    ensures AtHome(k1, ns[1..], l)
  {
    forall i | 0 <= i < |ns| - 1 ensures ns[1..][i] in k1.nodes && k1.nodes[ns[1..][i]].home == Some(l) {
      var n := ns[i + 1];
      assert ns[1..][i] == n && n in k.nodes && n in k1.nodes && k1.nodes[n].home == k.nodes[n].home;
    }
  }

  lemma ListedAtHomes(k: Kernel, l: ListId)
    requires Inv(k)
    ensures AllWaiting(k, Listed(k, l)) && AtHome(k, Listed(k, l), l)
  {
    ListedWait(k, l);
    forall i | 0 <= i < |Listed(k, l)| ensures Listed(k, l)[i] in k.nodes && k.nodes[Listed(k, l)[i]].home == Some(l) {
      assert Listed(k, l)[i] in Listed(k, l);
    }
  }

  lemma SetKeepsInv(k: Kernel, g: Group, l: ListId, bits: bv32)
    requires Inv(k)
    ensures Evolves(k, Set(k, g, l, bits).0, {l}, None, true) && Inv(Set(k, g, l, bits).0)
    ensures InTask(k) ==> InTask(Set(k, g, l, bits).0) && Set(k, g, l, bits).0.current == k.current
  {
    hide Evolves, VisitAll, ClearMask, Cleared, AllWaiting, Inv, InTask;
    ListedAtHomes(k, l);
    EvolveVisitAll(k, Listed(k, l), g.bits | bits, l);
    EvolvedInTask(k, Set(k, g, l, bits).0, l);
  }

  lemma EvolvedInTask(k: Kernel, k': Kernel, l: ListId)
    requires Evolves(k, k', {l}, None, true)
    ensures Inv(k') && (InTask(k) ==> InTask(k') && k'.current == k.current)
  {
    hide Inv, Frame;
  }

  /** What the loop leaves of a list: the nodes that do not fire, in their order. */
  function Quiet(k: Kernel, ns: seq<NodeId>, bits: bv32): (r: seq<NodeId>)
    ensures forall n :: n in r ==> n in ns && !Fires(k, n, bits)
  {
    if ns == [] then []
    else (if Fires(k, ns[0], bits) then [] else [ns[0]]) + Quiet(k, ns[1..], bits)
  }

  /** The effect of the loop on one node. */
  ghost predicate Visited(k: Kernel, k': Kernel, n: NodeId, among: bool, bits: bv32)
    requires n in k.nodes && n in k'.nodes
  {
    k'.nodes[n] ==
      if among && Fires(k, n, bits)
      then k.nodes[n].(payload := k.nodes[n].payload.(result := bits), wakes := 1, timedOut := false)
      else k.nodes[n]
  }

  /** The loop answers and wakes exactly the waiters whose condition holds on the snapshot. */
  lemma {:induction false} VisitAllNodes(k: Kernel, ns: seq<NodeId>, bits: bv32)
    requires Inv(k) && AllWaiting(k, ns)
    ensures var k' := VisitAll(k, ns, bits);
            && k'.nodes.Keys == k.nodes.Keys
            && forall n {:trigger n in k'.nodes} :: n in k.nodes ==> n in k'.nodes && Visited(k, k', n, n in ns, bits)
    decreases |ns|
  {
    if ns != [] {
      VisitRest(k, ns, bits);
      var k1 := Visit(k, ns[0], bits);
      VisitNodes(k, ns[0], bits);
      VisitAllNodes(k1, ns[1..], bits);
      assert ns[0] !in ns[1..];
      VisitedStep(k, k1, VisitAll(k, ns, bits), ns, bits);
    }
  }

  lemma VisitedStep(k: Kernel, k1: Kernel, k': Kernel, ns: seq<NodeId>, bits: bv32)
    requires ns != [] && ns[0] in k.nodes && ns[0] !in ns[1..] && k1.nodes.Keys == k.nodes.Keys == k'.nodes.Keys
    requires forall n {:trigger n in k1.nodes} :: n in k.nodes ==> n in k1.nodes && Visited(k, k1, n, n == ns[0], bits)
    requires forall n {:trigger n in k'.nodes} :: n in k1.nodes ==>
               n in k'.nodes && Visited(k1, k', n, n in ns[1..], bits)
    ensures forall n {:trigger n in k'.nodes} :: n in k.nodes ==> n in k'.nodes && Visited(k, k', n, n in ns, bits)
  {
    hide Met;
    forall n | n in k.nodes ensures n in k'.nodes && Visited(k, k', n, n in ns, bits) {
      assert n in k1.nodes && Visited(k1, k', n, n in ns[1..], bits);
      assert n in ns <==> n == ns[0] || n in ns[1..];
    }
  }

  lemma {:induction false} QuietSame(k: Kernel, k1: Kernel, ns: seq<NodeId>, bits: bv32)
    requires forall i :: 0 <= i < |ns| ==> (Fires(k1, ns[i], bits) <==> Fires(k, ns[i], bits))
    ensures Quiet(k1, ns, bits) == Quiet(k, ns, bits)
  {
    if ns != [] {
      assert forall i :: 0 <= i < |ns| - 1 ==> ns[1..][i] == ns[i + 1];
      QuietSame(k, k1, ns[1..], bits);
    }
  }

  lemma VisitList(k: Kernel, l: ListId, kept: seq<NodeId>, ns: seq<NodeId>, bits: bv32)
    requires Inv(k) && ns != [] && Listed(k, l) == kept + ns && Waiting(k, ns[0])
    ensures Listed(Visit(k, ns[0], bits), l) == (if Fires(k, ns[0], bits) then kept else kept + [ns[0]]) + ns[1..]
  {
    hide Inv, Visit, Waiting, Fires;
    VisitLists(k, ns[0], bits, l);
    ListedWait(k, l);
    NotInBoth(kept, ns, ns[0]);
    RemoveAppend(kept, ns, ns[0]);
  }

  lemma QuietRest(k: Kernel, kept: seq<NodeId>, ns: seq<NodeId>, bits: bv32)
    requires Inv(k) && AllWaiting(k, ns) && ns != [] && Waiting(k, ns[0])
    ensures (if Fires(k, ns[0], bits) then kept else kept + [ns[0]]) + Quiet(Visit(k, ns[0], bits), ns[1..], bits)
            == kept + Quiet(k, ns, bits)
  {
    hide Inv, Visit, Waiting, AllWaiting, Fires;
    var rest := Quiet(k, ns[1..], bits);
    RestFires(k, ns, bits);
    QuietSame(k, Visit(k, ns[0], bits), ns[1..], bits);
    assert (kept + [ns[0]]) + rest == kept + ([ns[0]] + rest) && kept + ([] + rest) == kept + rest;
  }

  lemma RestFires(k: Kernel, ns: seq<NodeId>, bits: bv32)
    requires Inv(k) && AllWaiting(k, ns) && ns != [] && Waiting(k, ns[0])
    ensures forall i :: 0 <= i < |ns[1..]| ==>
              (Fires(Visit(k, ns[0], bits), ns[1..][i], bits) <==> Fires(k, ns[1..][i], bits))
  {
    hide Inv, Visit, Met;
    VisitNodes(k, ns[0], bits);
  }

  /** A list of which the loop has still to visit `ns`, after nodes that stay. */
  lemma {:induction false} VisitAllList(k: Kernel, l: ListId, kept: seq<NodeId>, ns: seq<NodeId>, bits: bv32)
    requires Inv(k) && AllWaiting(k, ns) && Listed(k, l) == kept + ns
    ensures Listed(VisitAll(k, ns, bits), l) == kept + Quiet(k, ns, bits)
    decreases |ns|
  {
    if ns != [] {
      var kept' := if Fires(k, ns[0], bits) then kept else kept + [ns[0]];
      VisitRest(k, ns, bits);
      VisitList(k, l, kept, ns, bits);
      VisitAllList(Visit(k, ns[0], bits), l, kept', ns[1..], bits);
      QuietRest(k, kept, ns, bits);
    }
  }

  // ---------------------------------------------------------------- the invariant is kept

  lemma SetBits(k: Kernel, g: Group, l: ListId, bits: bv32)
    requires Inv(k)
    ensures Within(Set(k, g, l, bits).1.bits, g.bits | bits)
  {
    ClearedWithin(g.bits | bits, ClearMask(k, Listed(k, l), g.bits | bits));
  }

  lemma SetVisits(k: Kernel, g: Group, l: ListId, bits: bv32)
    requires Inv(k)
    ensures AllWaiting(k, Listed(k, l)) && Set(k, g, l, bits).0 == VisitAll(k, Listed(k, l), g.bits | bits)
  {
    hide VisitAll, ClearMask, Inv, AllWaiting;
    ListedAtHomes(k, l);
  }

  lemma ListedConditions(k: Kernel, g: Group, l: ListId)
    requires Inv(k) && GroupInv(k, g, l)
    ensures Conditions(k, Listed(k, l))
  {
    ListedWait(k, l);
    forall i | 0 <= i < |Listed(k, l)|
      ensures Listed(k, l)[i] in k.nodes && k.nodes[Listed(k, l)[i]].payload.Condition?
    {
      assert Unmet(k, Listed(k, l)[i], g.bits);
    }
  }

  lemma SetKeeps(k: Kernel, g: Group, l: ListId, bits: bv32)
    requires Inv(k) && GroupInv(k, g, l)
    ensures var (k', g') := Set(k, g, l, bits);
            GroupInv(k', g', l) && Evolves(k, k', {l}, None, true)
  {
    hide Inv, Set, VisitAll, Evolves, Conditions, AllWaiting, Within, Unmet, Answered, WokenBySet;
    SetVisits(k, g, l, bits);
    SetKeepsInv(k, g, l, bits);
    ListedConditions(k, g, l);
    VisitAllList(k, l, [], Listed(k, l), g.bits | bits);
    assert [] + Quiet(k, Listed(k, l), g.bits | bits) == Quiet(k, Listed(k, l), g.bits | bits);
    SetBits(k, g, l, bits);
    QuietUnmet(k, Set(k, g, l, bits).0, Listed(k, l), g.bits | bits, Set(k, g, l, bits).1.bits);
    SetAnswers(k, Set(k, g, l, bits).0, g, Listed(k, l), l, g.bits | bits);
  }

  lemma QuietUnmet(k: Kernel, k': Kernel, ns: seq<NodeId>, bits: bv32, left: bv32)
    requires Conditions(k, ns) && Within(left, bits) && Inv(k)
    requires k' == VisitAll(k, ns, bits)
    ensures forall i :: 0 <= i < |Quiet(k, ns, bits)| ==> Unmet(k', Quiet(k, ns, bits)[i], left)
  {
    hide Inv, Unmet, VisitAll, Conditions, Within, Fires;
    forall i | 0 <= i < |Quiet(k, ns, bits)| ensures Unmet(k', Quiet(k, ns, bits)[i], left) {
      OneQuietUnmet(k, k', ns, bits, left, Quiet(k, ns, bits)[i]);
    }
  }

  lemma OneQuietUnmet(k: Kernel, k': Kernel, ns: seq<NodeId>, bits: bv32, left: bv32, n: NodeId)
    requires Conditions(k, ns) && Within(left, bits) && Inv(k)
    requires k' == VisitAll(k, ns, bits) && n in ns && !Fires(k, n, bits)
    ensures Unmet(k', n, left)
  {
    hide Inv, VisitAll, Within, Holds;
    VisitAllNodes(k, ns, bits);
    var j :| 0 <= j < |ns| && ns[j] == n;
    assert n in k.nodes && k.nodes[n].payload.Condition? && n in k'.nodes;
    if Holds(k.nodes[n].payload.want, k.nodes[n].payload.all, left) {
      HoldsMonotone(k.nodes[n].payload.want, k.nodes[n].payload.all, left, bits);
    }
  }

  lemma SetAnswers(k: Kernel, k': Kernel, g: Group, ns: seq<NodeId>, l: ListId, bits: bv32)
    requires Inv(k) && AllWaiting(k, ns) && GroupInv(k, g, l) && k' == VisitAll(k, ns, bits)
    requires ns == Listed(k, l)
    ensures forall n {:trigger n in k'.nodes} :: n in k'.nodes && WokenBySet(k', n, l) ==> Answered(k', n)
  {
    VisitAllNodes(k, ns, bits);
    forall n | n in k'.nodes && WokenBySet(k', n, l) ensures Answered(k', n) {
      assert n in k.nodes && Visited(k, k', n, n in ns, bits);
    }
  }

  lemma WaitKeeps(k: Kernel, g: Group, l: ListId, want: bv32, all: bool, clear: bool, timeout: Option<Tick>)
    requires Inv(k) && InTask(k) && GroupInv(k, g, l)
    ensures var (k', g', got) := Wait(k, g, l, want, all, clear, timeout);
            GroupInv(k', g', l) && Evolves(k, k', {l}, k.current, Short(timeout))
  {
    if Holds(want, all, g.bits) {
      EvolveTake(k, l, Short(timeout));
      TakeKeeps(k, g, l, want, clear);
    } else {
      EvolveBlock(k, l, Condition(want, all, clear, 0), timeout);
      WaiterUnmet(k, g, l, want, all, clear, timeout);
    }
  }

  lemma EvolveTake(k: Kernel, l: ListId, short: bool)
    requires Inv(k)
    ensures Evolves(k, Stamp(k), {l}, k.current, short)
  {
    EvolveStamp(k);
    EvolveWiden(k, Stamp(k), {}, None, true, {l}, k.current, short);
  }

  /** Taking bits away never makes a waiter's condition true. */
  lemma FewerBits(k: Kernel, k': Kernel, g: Group, g': Group, l: ListId)
    requires GroupInv(k, g, l) && k'.nodes == k.nodes && k'.waits == k.waits
    requires Within(g'.bits, g.bits)
    ensures GroupInv(k', g', l)
  {
    forall i | 0 <= i < |Listed(k', l)| ensures Unmet(k', Listed(k', l)[i], g'.bits) {
      var n := Listed(k, l)[i];
      assert Unmet(k, n, g.bits);
      if Met(k.nodes[n].payload, g'.bits) {
        HoldsMonotone(k.nodes[n].payload.want, k.nodes[n].payload.all, g'.bits, g.bits);
      }
    }
  }

  lemma TakeKeeps(k: Kernel, g: Group, l: ListId, want: bv32, clear: bool)
    requires GroupInv(k, g, l)
    ensures GroupInv(Stamp(k), if clear then Group(Cleared(g.bits, want)) else g, l)
  {
    ClearedWithin(g.bits, want);
    if clear {
      FewerBits(k, Stamp(k), g, Group(Cleared(g.bits, want)), l);
    } else {
      FewerBits(k, Stamp(k), g, g, l);
    }
  }

  lemma WaiterUnmet(k: Kernel, g: Group, l: ListId, want: bv32, all: bool, clear: bool, timeout: Option<Tick>)
    requires Inv(k) && InTask(k) && GroupInv(k, g, l) && !Holds(want, all, g.bits)
    ensures GroupInv(Block(k, Some(l), Condition(want, all, clear, 0), timeout), g, l)
  {
    var p := Condition(want, all, clear, 0);
    var k' := Block(k, Some(l), p, timeout);
    BlockEffect(k, Some(l), p, timeout);
    forall i | 0 <= i < |Listed(k', l)| ensures Unmet(k', Listed(k', l)[i], g.bits) {
      if i < |Listed(k, l)| {
        assert Unmet(k, Listed(k, l)[i], g.bits);
      }
    }
  }

  lemma ClearKeeps(k: Kernel, g: Group, l: ListId, bits: bv32)
    requires Inv(k) && GroupInv(k, g, l)
    ensures GroupInv(k, Clear(g, bits).0, l) && Evolves(k, k, {l}, None, true)
  {
    ClearedWithin(g.bits, bits);
    FewerBits(k, k, g, Clear(g, bits).0, l);
    EvolveRefl(k);
    EvolveWiden(k, k, {}, None, true, {l}, None, true);
  }

  lemma MeetPasses(k: Kernel, g: Group, l: ListId, want: bv32)
    requires Inv(k) && GroupInv(k, g, l)
    ensures GroupInv(Stamp(k), Group(Cleared(g.bits, want)), l) && Evolves(k, Stamp(k), {l}, k.current, true)
  {
    EvolveTake(k, l, true);
    ClearedWithin(g.bits, want);
    FewerBits(k, Stamp(k), g, Group(Cleared(g.bits, want)), l);
  }

  lemma MeetWaits(k: Kernel, g: Group, l: ListId, candidate: bv32, want: bv32)
    requires Inv(k) && InTask(k) && GroupInv(k, g, l)
    requires Within(g.bits, candidate) && !Holds(want, true, candidate)
    ensures var k' := Block(k, Some(l), Condition(want, true, true, 0), None);
            GroupInv(k', g, l) && Evolves(k, k', {l}, k.current, true)
  {
    if Holds(want, true, g.bits) { HoldsMonotone(want, true, g.bits, candidate); }
    EvolveBlock(k, l, Condition(want, true, true, 0), None);
    WaiterUnmet(k, g, l, want, true, true, None);
  }

  lemma MeetKeeps(k: Kernel, g: Group, l: ListId, candidate: bv32, want: bv32)
    requires Inv(k) && InTask(k) && GroupInv(k, g, l) && Within(g.bits, candidate)
    ensures var (k', g', got) := Meet(k, g, l, candidate, want);
            GroupInv(k', g', l) && Evolves(k, k', {l}, k.current, true)
  {
    if Holds(want, true, candidate) {
      MeetPasses(k, g, l, want);
    } else {
      MeetWaits(k, g, l, candidate, want);
    }
  }

  lemma SyncKeeps(k: Kernel, g: Group, l: ListId, bits: bv32, want: bv32)
    requires Inv(k) && InTask(k) && GroupInv(k, g, l)
    ensures var (k', g', got) := Sync(k, g, l, bits, want);
            GroupInv(k', g', l) && Evolves(k, k', {l}, k.current, true)
  {
    hide Set, Meet, Inv, GroupInv, Within, Evolves;
    var (k1, g1) := Set(k, g, l, bits);
    SetKeeps(k, g, l, bits);
    SetKeepsInv(k, g, l, bits);
    SetBits(k, g, l, bits);
    MeetKeeps(k1, g1, l, g.bits | bits, want);
    EvolveTrans(k, k1, Sync(k, g, l, bits, want).0, {l}, k.current, true);
  }

  lemma OthersKeep(k: Kernel, k': Kernel, own: set<ListId>, g: Group, l: ListId)
    requires Inv(k) && GroupInv(k, g, l) && Frame(k, k', own) && l !in own
    ensures GroupInv(k', g, l)
  {
    ListedWait(k, l);
    forall i | 0 <= i < |Listed(k', l)| ensures Unmet(k', Listed(k', l)[i], g.bits) {
      assert Unmet(k, Listed(k, l)[i], g.bits);
      assert Listed(k, l)[i] in Listed(k, l);
    }
    forall n | n in k'.nodes && WokenBySet(k', n, l) ensures Answered(k', n) {
      assert n in k.nodes;
    }
  }

  lemma TimeoutKeeps(k: Kernel, n: NodeId, g: Group, l: ListId)
    requires Inv(k) && Waiting(k, n) && GroupInv(k, g, l)
    ensures GroupInv(Wake(k, n, true), g, l)
  {
    var k' := Wake(k, n, true);
    WakeEffect(k, n, true);
    ListedWait(k, l);
    RemoveNoDup(Listed(k, l), n);
    assert Listed(k', l) == Remove(Listed(k, l), n);
    forall i | 0 <= i < |Listed(k', l)| ensures Unmet(k', Listed(k', l)[i], g.bits) {
      var m := Listed(k', l)[i];
      assert m in Listed(k, l) && m != n;
      var j :| 0 <= j < |Listed(k, l)| && Listed(k, l)[j] == m;
      assert Unmet(k, Listed(k, l)[j], g.bits);
    }
  }

  // ---------------------------------------------------------------- what it means

  /** The node's condition, flag by flag, is satisfied by the bits. */
  ghost predicate Wanted(k: Kernel, n: NodeId, bits: bv32) {
    && n in k.nodes && k.nodes[n].payload.Condition?
    && Satisfied(k.nodes[n].payload.want, k.nodes[n].payload.all, bits)
  }

  lemma FiresExactly(k: Kernel, n: NodeId, bits: bv32)
    ensures Fires(k, n, bits) <==> Wanted(k, n, bits)
  {
    hide Holds, Satisfied;
    if n in k.nodes && k.nodes[n].payload.Condition? {
      HoldsExactly(k.nodes[n].payload.want, k.nodes[n].payload.all, bits);
    }
  }

  /** What `set` does to one node: a waiter whose condition is satisfied by the raised bits is
      woken and given them; every other node is left as it is. */
  ghost predicate Told(k: Kernel, k': Kernel, n: NodeId, waits: bool, bits: bv32)
    requires n in k.nodes && n in k'.nodes
  {
    k'.nodes[n] ==
      if waits && Wanted(k, n, bits)
      then k.nodes[n].(payload := k.nodes[n].payload.(result := bits), wakes := 1, timedOut := false)
      else k.nodes[n]
  }

  /** `set` is exact and does not depend on the order of visiting: it wakes precisely the
      waiters whose condition, flag by flag, is satisfied by the old bits together with the new
      ones, gives all of them that same snapshot, and keeps everybody else, in order. */
  lemma SetIsExact(k: Kernel, g: Group, l: ListId, bits: bv32)
    requires Inv(k)
    ensures var (k', g') := Set(k, g, l, bits); var b := g.bits | bits;
            && Listed(k', l) == Quiet(k, Listed(k, l), b)
            && (forall n :: n in Listed(k', l) <==> n in Listed(k, l) && !Wanted(k, n, b))
            && k'.nodes.Keys == k.nodes.Keys
            && (forall n {:trigger n in k'.nodes} :: n in k.nodes ==>
                  n in k'.nodes && Told(k, k', n, n in Listed(k, l), b))
  {
    hide Set, VisitAll, Inv, AllWaiting, Fires, Wanted, Visited, Told, Quiet;
    var k', b := Set(k, g, l, bits).0, g.bits | bits;
    SetVisits(k, g, l, bits);
    VisitAllNodes(k, Listed(k, l), b);
    VisitAllList(k, l, [], Listed(k, l), b);
    assert [] + Quiet(k, Listed(k, l), b) == Quiet(k, Listed(k, l), b);
    QuietMembers(k, Listed(k, l), b);
    forall n | n in k.nodes ensures n in k'.nodes && Told(k, k', n, n in Listed(k, l), b) {
      VisitedIsTold(k, k', n, n in Listed(k, l), b);
    }
    forall n ensures n in Listed(k', l) <==> n in Listed(k, l) && !Wanted(k, n, b) {
      FiresExactly(k, n, b);
    }
  }

  lemma VisitedIsTold(k: Kernel, k': Kernel, n: NodeId, waits: bool, bits: bv32)
    requires n in k.nodes && n in k'.nodes && Visited(k, k', n, waits, bits)
    ensures Told(k, k', n, waits, bits)
  {
    hide Fires, Wanted;
    FiresExactly(k, n, bits);
    if Wanted(k, n, bits) { WantedNode(k, n, bits); }
  }

  lemma {:induction false} QuietMembers(k: Kernel, ns: seq<NodeId>, bits: bv32)
    ensures forall n :: n in Quiet(k, ns, bits) <==> n in ns && !Fires(k, n, bits)
  {
    hide Fires;
    if ns != [] { QuietMembers(k, ns[1..], bits); }
  }

  /** A bit mask that no firing clear-on-exit waiter wants. */
  ghost predicate Unwanted(k: Kernel, ns: seq<NodeId>, bits: bv32, mask: bv32) {
    forall n :: n in ns ==> Disjoint(ClearOf(k, n, bits), mask)
  }

  predicate Disjoint(a: bv32, b: bv32) {
    a & b == 0
  }

  lemma OrZero(a: bv32, b: bv32)
    ensures a | b == 0 <==> a == 0 && b == 0
  {
  }

  lemma AndOver(a: bv32, b: bv32, mask: bv32)
    ensures (a | b) & mask == (a & mask) | (b & mask)
  {
  }

  lemma OrDisjoint(a: bv32, b: bv32, mask: bv32)
    ensures Disjoint(a | b, mask) <==> Disjoint(a, mask) && Disjoint(b, mask)
  {
    AndOver(a, b, mask);
    OrZero(a & mask, b & mask);
  }

  lemma BothDisjoint(a: bv32, b: bv32, mask: bv32)
    ensures Disjoint(Or(a, b), mask) <==> Disjoint(a, mask) && Disjoint(b, mask)
  {
    hide Disjoint;
    OrDisjoint(a, b, mask);
  }

  lemma {:induction false} ClearMaskIsUnion(k: Kernel, ns: seq<NodeId>, bits: bv32, mask: bv32)
    ensures Disjoint(ClearMask(k, ns, bits), mask) <==> Unwanted(k, ns, bits, mask)
  {
    hide Or, Disjoint, ClearOf;
    if ns == [] {
      NoneWanted(mask);
    } else {
      ClearMaskIsUnion(k, ns[1..], bits, mask);
      BothDisjoint(ClearOf(k, ns[0], bits), ClearMask(k, ns[1..], bits), mask);
      UnwantedRest(k, ns, bits, mask);
    }
  }

  lemma NoneWanted(mask: bv32)
    ensures Disjoint(0, mask)
  {
  }

  lemma UnwantedRest(k: Kernel, ns: seq<NodeId>, bits: bv32, mask: bv32)
    requires ns != []
    ensures Unwanted(k, ns, bits, mask) <==> Disjoint(ClearOf(k, ns[0], bits), mask) && Unwanted(k, ns[1..], bits, mask)
  {
    assert forall n :: n in ns <==> n == ns[0] || n in ns[1..];
  }

  predicate SameOn(a: bv32, b: bv32, mask: bv32) {
    a & mask == b & mask
  }

  lemma ClearedBits(b: bv32, m: bv32, mask: bv32)
    ensures Disjoint(m, mask) ==> SameOn(Cleared(b, m), b, mask)
    ensures Within(mask, Cleared(b, m)) ==> Disjoint(m, mask)
  {
  }

  lemma SetLeaves(k: Kernel, g: Group, l: ListId, bits: bv32)
    requires Inv(k)
    ensures Set(k, g, l, bits).1.bits == Cleared(g.bits | bits, ClearMask(k, Listed(k, l), g.bits | bits))
  {
    hide VisitAll, Cleared, ClearMask, Inv, AllWaiting;
    ListedWait(k, l);
  }

  /** `set` clears exactly the union of the clear-on-exit masks of those it woke: bits nobody
      woken wants are left standing, and raised bits left standing are wanted by nobody woken. */
  lemma SetClearsUnion(k: Kernel, g: Group, l: ListId, bits: bv32, mask: bv32)
    requires Inv(k)
    ensures var b := g.bits | bits; var left := Set(k, g, l, bits).1.bits;
            && (Unwanted(k, Listed(k, l), b, mask) ==> SameOn(left, b, mask))
            && (Within(mask, left) ==> Unwanted(k, Listed(k, l), b, mask))
  {
    hide Set, Inv, Unwanted, Disjoint, Cleared, ClearMask, SameOn, Within;
    var b := g.bits | bits;
    SetLeaves(k, g, l, bits);
    ClearMaskIsUnion(k, Listed(k, l), b, mask);
    ClearedBits(b, ClearMask(k, Listed(k, l), b), mask);
  }

  /** The node asks for flag `i` to be cleared when it is woken with these bits. */
  ghost predicate Claims(k: Kernel, n: NodeId, bits: bv32, i: nat) {
    Wanted(k, n, bits) && k.nodes[n].payload.clear && Bit(k.nodes[n].payload.want, i)
  }

  ghost predicate Claimed(k: Kernel, ns: seq<NodeId>, bits: bv32, i: nat) {
    exists n :: n in ns && Claims(k, n, bits, i)
  }

  lemma ClaimRest(k: Kernel, ns: seq<NodeId>, bits: bv32, i: nat)
    requires ns != []
    ensures Claimed(k, ns, bits, i) <==> Claims(k, ns[0], bits, i) || Claimed(k, ns[1..], bits, i)
  {
    hide Claims;
    assert forall n :: n in ns <==> n == ns[0] || n in ns[1..];
  }

  lemma ClearOfBits(k: Kernel, n: NodeId, bits: bv32, i: nat)
    ensures Bit(ClearOf(k, n, bits), i) <==> Claims(k, n, bits, i)
  {
    hide Fires, Wanted, Bit;
    FiresExactly(k, n, bits);
    ZeroHasNoBit(i);
    if Wanted(k, n, bits) { WantedNode(k, n, bits); }
  }

  lemma WantedNode(k: Kernel, n: NodeId, bits: bv32)
    requires Wanted(k, n, bits)
    ensures n in k.nodes && k.nodes[n].payload.Condition?
  {
  }

  lemma {:induction false} ClearMaskBits(k: Kernel, ns: seq<NodeId>, bits: bv32, i: nat)
    ensures Bit(ClearMask(k, ns, bits), i) <==> Claimed(k, ns, bits, i)
  {
    hide Bit, Or, ClearOf, Claims;
    if ns == [] {
      ZeroHasNoBit(i);
    } else {
      ClearMaskBits(k, ns[1..], bits, i);
      BitOr(ClearOf(k, ns[0], bits), ClearMask(k, ns[1..], bits), i);
      ClearOfBits(k, ns[0], bits, i);
      ClaimRest(k, ns, bits, i);
    }
  }

  lemma ClearedBit(bits: bv32, mask: bv32, i: nat)
    requires i < 32
    ensures Bit(Cleared(bits, mask), i) <==> Bit(bits, i) && !Bit(mask, i)
  {
    hide And, Not, Bit;
    BitAnd(bits, Not(mask), i);
    BitNot(mask, i);
  }

  /** Flag by flag: after `set` a flag is set exactly if it was, or has been raised, and no waiter
      woken by it asked for its clearing. */
  lemma SetLeavesFlags(k: Kernel, g: Group, l: ListId, bits: bv32, i: nat)
    requires Inv(k) && i < 32
    ensures var left := Set(k, g, l, bits).1.bits;
            Bit(left, i) <==> (Bit(g.bits, i) || Bit(bits, i)) && !Claimed(k, Listed(k, l), g.bits | bits, i)
  {
    hide Inv, Set, Bit, Cleared, ClearMask, Claimed;
    var b := g.bits | bits;
    RaisedBit(g.bits, bits, i);
    SetLeaves(k, g, l, bits);
    ClearMaskBits(k, Listed(k, l), b, i);
    ClearedBit(b, ClearMask(k, Listed(k, l), b), i);
  }

  lemma RaisedBit(bits: bv32, more: bv32, i: nat)
    ensures Bit(bits | more, i) <==> Bit(bits, i) || Bit(more, i)
  {
    hide Bit;
    BitOr(bits, more, i);
  }

  /** Waiting reports a snapshot exactly if a `set` woke the waiter, and its condition holds
      on that snapshot. */
  lemma WaitIsTruthful(k: Kernel, g: Group, l: ListId, n: NodeId)
    requires Inv(k) && GroupInv(k, g, l)
    requires n in k.nodes && k.nodes[n].home == Some(l) && k.nodes[n].wakes == 1
    ensures WaitForResumes(None, k.nodes[n]).Some? <==> !k.nodes[n].timedOut
    ensures WaitForResumes(None, k.nodes[n]).Some? ==>
      k.nodes[n].payload.Condition? && WaitForResumes(None, k.nodes[n]) == Some(k.nodes[n].payload.result)
      && Satisfied(k.nodes[n].payload.want, k.nodes[n].payload.all, k.nodes[n].payload.result)
  {
    hide Holds, Satisfied;
    if !k.nodes[n].timedOut {
      assert WokenBySet(k, n, l) && Answered(k, n);
      HoldsExactly(k.nodes[n].payload.want, k.nodes[n].payload.all, k.nodes[n].payload.result);
    }
  }

  /** A wait passes at once exactly if its condition, flag by flag, is satisfied by the bits there
      are, and reports them; clear-on-exit then takes exactly the wanted flags away. Otherwise the
      bits stay, and the task waits with what it asked for on record. */
  lemma WaitReports(k: Kernel, g: Group, l: ListId, want: bv32, all: bool, clear: bool, timeout: Option<Tick>, i: nat)
    requires Inv(k) && InTask(k) && i < 32
    ensures var (k', g', got) := Wait(k, g, l, want, all, clear, timeout);
            && (got.Some? <==> Satisfied(want, all, g.bits))
            && (got.Some? ==> got.value == g.bits && Untouched(k, k'))
            && (Bit(g'.bits, i) <==> Bit(g.bits, i) && !(got.Some? && clear && Bit(want, i)))
            && (got == None ==>
                  g' == g && Suspends(k, k', Some(l), timeout) && Asks(k'.nodes[k.nextId].payload, want, all, clear))
  {
    hide Holds, Satisfied, Cleared, Inv, Bit, Suspends, Untouched, Block, Stamp;
    ClearedBit(g.bits, want, i);
    HoldsExactly(want, all, g.bits);
    StampTouchesNothing(k);
    if !Holds(want, all, g.bits) { BlockAsks(k, l, want, all, clear, timeout); }
  }

  lemma BlockAsks(k: Kernel, l: ListId, want: bv32, all: bool, clear: bool, timeout: Option<Tick>)
    requires Inv(k) && InTask(k)
    ensures var k' := Block(k, Some(l), Condition(want, all, clear, 0), timeout);
            && k.nextId in k'.nodes && Suspends(k, k', Some(l), timeout)
            && Asks(k'.nodes[k.nextId].payload, want, all, clear)
  {
    BlockSuspends(k, Some(l), Condition(want, all, clear, 0), timeout);
  }

  ghost predicate Asks(info: Payload, want: bv32, all: bool, clear: bool) {
    info.Condition? && info.want == want && info.all == all && info.clear == clear
  }

  /** `clear` takes exactly the given flags away and reports the bits there were. */
  lemma ClearIsExact(g: Group, bits: bv32, i: nat)
    requires i < 32
    ensures var (g', was) := Clear(g, bits);
            was == g.bits && (Bit(g'.bits, i) <==> Bit(g.bits, i) && !Bit(bits, i))
  {
    hide Cleared, Bit;
    ClearedBit(g.bits, bits, i);
  }
}
