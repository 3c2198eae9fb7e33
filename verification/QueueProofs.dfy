/** The queue keeps its invariant, and what the invariant means for senders and receivers. */
module QueueProofs {
  import opened Sequences
  import opened Time
  import opened Kernel
  import opened KernelProofs
  import opened Requests
  import opened Evolution
  import opened Queue

  // ---------------------------------------------------------------- kernel side

  lemma FairDeliver(k: Kernel, n: NodeId, payload: Payload, l: ListId, arrivals: seq<NodeId>, served: seq<NodeId>)
    requires Inv(k) && Waiting(k, n) && Fair(k, l, arrivals, served)
    ensures Fair(Deliver(k, n, payload), l, arrivals, served)
  {
    SurvivorsSame(k.nodes, Deliver(k, n, payload).nodes, arrivals);
  }

  lemma FairStamp(k: Kernel, l: ListId, arrivals: seq<NodeId>, served: seq<NodeId>)
    requires Inv(k) && Fair(k, l, arrivals, served)
    ensures Fair(Stamp(k), l, arrivals, served)
  {
    StampKeepsInv(k);
    FairFrame(k, Stamp(k), {}, l, arrivals, served);
  }

  /** Waking the head of `l` with a value for it. */
  lemma HandoffEvolves(k: Kernel, l: ListId, payload: Payload)
    requires Inv(k) && Listed(k, l) != []
    ensures var w := Listed(k, l)[0];
            && Waiting(k, w) && Waiting(Deliver(k, w, payload), w)
            && Evolves(k, Stamp(Wake(Deliver(k, w, payload), w, false)), {l}, None, true)
  {
    FirstWaits(k, l);
    var w := Listed(k, l)[0];
    var k1 := Deliver(k, w, payload);
    var k2 := Wake(k1, w, false);
    EvolveDeliver(k, w, payload, l);
    EvolveWake(k1, w, l);
    EvolveTrans(k, k1, k2, {l}, None, true);
    EvolveStamp(k2);
    EvolveWiden(k2, Stamp(k2), {}, None, true, {l}, None, true);
    EvolveTrans(k, k2, Stamp(k2), {l}, None, true);
  }

  lemma HandoffFair(k: Kernel, l: ListId, o: ListId, payload: Payload,
                    arrivals: seq<NodeId>, served: seq<NodeId>, others: seq<NodeId>, passed: seq<NodeId>)
    requires Inv(k) && l != o && Listed(k, l) != [] && Listed(k, o) == []
    requires Fair(k, l, arrivals, served) && Fair(k, o, others, passed)
    ensures var w := Listed(k, l)[0];
            && Waiting(k, w) && Waiting(Deliver(k, w, payload), w)
            && var k' := Stamp(Wake(Deliver(k, w, payload), w, false));
               && Fair(k', l, arrivals, served + [w])
               && Fair(k', o, others + [k.nextId], passed + [k.nextId])
               && Listed(k', l) == Listed(k, l)[1..] && Listed(k', o) == []
               && k'.nodes == k.nodes[w := k.nodes[w].(payload := payload, wakes := 1, timedOut := false)]
               && k'.nextId == k.nextId + 1
  {
    hide Inv, Fair;
    FirstWaits(k, l);
    var w := Listed(k, l)[0];
    var k1 := Deliver(k, w, payload);
    DeliverKeepsInv(k, w, payload);
    FairDeliver(k, w, payload, l, arrivals, served);
    FairDeliver(k, w, payload, o, others, passed);
    WakeHeadFair(k1, l, o, arrivals, served, others, passed);
  }

  lemma WakeHeadFair(k: Kernel, l: ListId, o: ListId,
                     arrivals: seq<NodeId>, served: seq<NodeId>, others: seq<NodeId>, passed: seq<NodeId>)
    requires Inv(k) && l != o && Listed(k, l) != [] && Listed(k, o) == []
    requires Fair(k, l, arrivals, served) && Fair(k, o, others, passed)
    ensures var w := Listed(k, l)[0];
            && Waiting(k, w)
            && var k' := Stamp(Wake(k, w, false));
               && Fair(k', l, arrivals, served + [w])
               && Fair(k', o, others + [k.nextId], passed + [k.nextId])
               && Listed(k', l) == Listed(k, l)[1..] && Listed(k', o) == []
               && k'.nodes == k.nodes[w := k.nodes[w].(wakes := 1, timedOut := false)]
               && k'.nextId == k.nextId + 1
  {
    FirstWaits(k, l);
    var w := Listed(k, l)[0];
    var k2 := Wake(k, w, false);
    FairHandoff(k, l, arrivals, served);
    WakeKeepsInv(k, w, false);
    WakeFrame(k, w);
    FairFrame(k, k2, {l}, o, others, passed);
    WakeEffect(k, w, false);
    FairStamp(k2, l, arrivals, served + [w]);
    FairImmediate(k2, o, others, passed);
  }

  // ---------------------------------------------------------------- sending

  lemma AcceptMatched(q: Queue, id: NodeId, v: Value)
    requires Matched(q) && id !in q.sent
    ensures var q' := Accept(q, id, v);
            && (q.contents == [] ==> forall w :: Matched(q'.(served := q.served + [w], given := q.given + [v])))
            && Matched(q'.(contents := q.contents + [v]))
  {
  }

  lemma HandoverKeeps(k: Kernel, q: Queue, lr: ListId, ls: ListId, v: Value)
    requires Inv(k) && QueueInv(k, q, lr, ls) && Listed(k, lr) != []
    ensures var (k', q', done) := DeliverOrPush(k, q, lr, v);
            done && QueueInv(k', q', lr, ls) && Evolves(k, k', {lr, ls}, None, true)
  {
    HandoverInv(k, q, lr, ls, v);
    HandoffEvolves(k, lr, Slot(Some(v)));
    EvolveWiden(k, DeliverOrPush(k, q, lr, v).0, {lr}, None, true, {lr, ls}, None, true);
  }

  lemma HandoverInv(k: Kernel, q: Queue, lr: ListId, ls: ListId, v: Value)
    requires Inv(k) && QueueInv(k, q, lr, ls) && Listed(k, lr) != []
    ensures var (k', q', done) := DeliverOrPush(k, q, lr, v); QueueInv(k', q', lr, ls)
  {
    HandoverFair(k, q, lr, ls, v);
    HandoverCounts(k, q, lr, ls, v);
    HandoverSlots(k, q, lr, ls, v);
  }

  lemma HandoverCounts(k: Kernel, q: Queue, lr: ListId, ls: ListId, v: Value)
    requires Inv(k) && QueueInv(k, q, lr, ls) && Listed(k, lr) != []
    ensures var (k', q', done) := DeliverOrPush(k, q, lr, v);
            Matched(q') && q'.contents == [] && Numbered(Stamp(k), q')
  {
    hide Fair, Slots, ListsInv, BlockedInv;
    AcceptMatched(q, k.nextId, v);
    FirstWaits(k, lr);
  }

  lemma HandoverFair(k: Kernel, q: Queue, lr: ListId, ls: ListId, v: Value)
    requires Inv(k) && QueueInv(k, q, lr, ls) && Listed(k, lr) != []
    ensures var (k', q', done) := DeliverOrPush(k, q, lr, v);
            && Fair(k', lr, q'.receives, q'.served) && Fair(k', ls, q'.sends, q'.passed)
            && Listed(k', ls) == [] && k'.nextId == k.nextId + 1 && Listed(k, lr)[0] < k.nextId
  {
    HandoffFair(k, lr, ls, Slot(Some(v)), q.receives, q.served, q.sends, q.passed);
    ListedWait(k, lr);
    assert Listed(k, lr)[0] in k.nodes;
  }

  lemma HandoverSlots(k: Kernel, q: Queue, lr: ListId, ls: ListId, v: Value)
    requires Inv(k) && QueueInv(k, q, lr, ls) && Listed(k, lr) != []
    ensures var (k', q', done) := DeliverOrPush(k, q, lr, v); Slots(k', q', lr, ls)
  {
    hide Inv, Fair, Slots;
    var (k', q', done) := DeliverOrPush(k, q, lr, v);
    HandoffFair(k, lr, ls, Slot(Some(v)), q.receives, q.served, q.sends, q.passed);
    ListedWait(k, lr);
    assert Listed(k, lr)[0] in k.nodes;
    SlotsHandedOver(k, k', q, q', lr, ls, v);
  }

  /** The slots after the head of the receivers was given `v`. */
  lemma SlotsHandedOver(k: Kernel, k': Kernel, q: Queue, q': Queue, lr: ListId, ls: ListId, v: Value)
    requires Slots(k, q, lr, ls) && |q.given| == |q.served| && NoDup(Listed(k, lr)) && Listed(k, lr) != []
    requires var w := Listed(k, lr)[0];
             && w in k.nodes && k.nodes[w].wakes == 0
             && k'.nodes == k.nodes[w := k.nodes[w].(payload := Slot(Some(v)), wakes := 1, timedOut := false)]
             && q'.served == q.served + [w] && q'.given == q.given + [v]
    requires Listed(k', lr) == Listed(k, lr)[1..] && Listed(k', ls) == []
    ensures Slots(k', q', lr, ls)
  {
    forall i | 0 <= i < |Listed(k', lr)| ensures Awaits(k', Listed(k', lr)[i]) {
      assert Awaits(k, Listed(k, lr)[i + 1]) && Listed(k, lr)[i + 1] != Listed(k, lr)[0];
    }
  }

  lemma PushKeeps(k: Kernel, q: Queue, lr: ListId, ls: ListId, v: Value)
    requires Inv(k) && QueueInv(k, q, lr, ls) && Listed(k, lr) == [] && |q.contents| < q.capacity
    ensures var (k', q', done) := DeliverOrPush(k, q, lr, v);
            done && QueueInv(k', q', lr, ls) && Evolves(k, k', {lr, ls}, None, true)
  {
    FairImmediate(k, ls, q.sends, q.passed);
    FairStamp(k, lr, q.receives, q.served);
    AcceptMatched(q, k.nextId, v);
    EvolveStamp(k);
    EvolveWiden(k, Stamp(k), {}, None, true, {lr, ls}, None, true);
  }

  lemma TrySendKeeps(k: Kernel, q: Queue, lr: ListId, ls: ListId, v: Value)
    requires Inv(k) && QueueInv(k, q, lr, ls)
    ensures var (k', q', done) := TrySend(k, q, lr, v);
            QueueInv(k', q', lr, ls) && Evolves(k, k', {lr, ls}, None, true)
  {
    if Listed(k, lr) != [] {
      HandoverKeeps(k, q, lr, ls, v);
    } else if |q.contents| < q.capacity {
      PushKeeps(k, q, lr, ls, v);
    } else {
      EvolveRefl(k);
      EvolveWiden(k, k, {}, None, true, {lr, ls}, None, true);
    }
  }

  lemma SendBlocks(k: Kernel, q: Queue, lr: ListId, ls: ListId, v: Value, timeout: Option<Tick>)
    requires Inv(k) && InTask(k) && QueueInv(k, q, lr, ls)
    requires Listed(k, lr) == [] && |q.contents| == q.capacity
    ensures var (k', q', done) := Send(k, q, lr, ls, v, timeout);
            !done && QueueInv(k', q', lr, ls) && Evolves(k, k', {lr, ls}, k.current, Short(timeout))
  {
    hide Inv, Fair, Evolves, Slots, Offers;
    var k' := Send(k, q, lr, ls, v, timeout).0;
    EvolveBlock(k, ls, Offer(v), timeout);
    FairBlock(k, ls, Offer(v), timeout, q.sends, q.passed);
    FairFrame(k, k', {ls}, lr, q.receives, q.served);
    SendBlocksSlots(k, q, lr, ls, v, timeout);
    EvolveWiden(k, k', {ls}, k.current, Short(timeout), {lr, ls}, k.current, Short(timeout));
  }

  lemma SendBlocksSlots(k: Kernel, q: Queue, lr: ListId, ls: ListId, v: Value, timeout: Option<Tick>)
    requires Inv(k) && InTask(k) && QueueInv(k, q, lr, ls)
    requires Listed(k, lr) == [] && |q.contents| == q.capacity
    ensures var (k', q', done) := Send(k, q, lr, ls, v, timeout);
            Slots(k', q', lr, ls) && Matched(q') && Listed(k', lr) == [] && k'.nextId == k.nextId + 1
  {
    hide Inv, Fair, Unstranded;
    var (k', q', done) := Send(k, q, lr, ls, v, timeout);
    BlockEffect(k, Some(ls), Offer(v), timeout);
    forall i | 0 <= i < |Listed(k', ls)| ensures Offers(k', q', Listed(k', ls)[i]) {
      if i < |Listed(k, ls)| {
        assert Offers(k, q, Listed(k, ls)[i]);
      }
    }
  }

  lemma SendKeeps(k: Kernel, q: Queue, lr: ListId, ls: ListId, v: Value, timeout: Option<Tick>)
    requires Inv(k) && InTask(k) && QueueInv(k, q, lr, ls)
    ensures var (k', q', done) := Send(k, q, lr, ls, v, timeout);
            QueueInv(k', q', lr, ls) && Evolves(k, k', {lr, ls}, k.current, Short(timeout))
  {
    if DeliverOrPush(k, q, lr, v).2 {
      TrySendKeeps(k, q, lr, ls, v);
      EvolveWiden(k, DeliverOrPush(k, q, lr, v).0, {lr, ls}, None, true, {lr, ls}, k.current, Short(timeout));
    } else {
      SendBlocks(k, q, lr, ls, v, timeout);
    }
  }

  // ---------------------------------------------------------------- receiving

  lemma TakeKeeps(k: Kernel, q: Queue, lr: ListId, ls: ListId)
    requires Inv(k) && QueueInv(k, q, lr, ls) && q.contents != [] && Listed(k, ls) == []
    ensures var (k', q', v) := Pop(k, q, ls);
            QueueInv(k', q', lr, ls) && Evolves(k, k', {lr, ls}, None, true)
  {
    hide Inv, Fair, Matched, Slots, Evolves, Numbered;
    FairImmediate(k, lr, q.receives, q.served);
    FairStamp(k, ls, q.sends, q.passed);
    TakeMatched(q, k.nextId);
    TakeSlots(k, q, lr, ls);
    EvolveStamp(k);
    EvolveWiden(k, Stamp(k), {}, None, true, {lr, ls}, None, true);
  }

  function Taken(q: Queue, id: NodeId): Queue
    requires q.contents != []
  {
    q.(contents := q.contents[1..], receives := q.receives + [id], served := q.served + [id],
       given := q.given + [q.contents[0]])
  }

  lemma TakeMatched(q: Queue, id: NodeId)
    requires Matched(q) && q.contents != []
    ensures Matched(Taken(q, id))
  {
  }

  lemma TakeSlots(k: Kernel, q: Queue, lr: ListId, ls: ListId)
    requires Inv(k) && Slots(k, q, lr, ls) && Numbered(k, q) && q.contents != [] && |q.given| == |q.served|
    ensures Slots(Stamp(k), Taken(q, k.nextId), lr, ls) && Numbered(Stamp(k), Taken(q, k.nextId))
  {
    NotYet(k);
    hide Inv;
    assert Listed(Stamp(k), ls) == Listed(k, ls) && Listed(Stamp(k), lr) == Listed(k, lr);
    forall i | 0 <= i < |Listed(k, ls)| ensures Offers(Stamp(k), Taken(q, k.nextId), Listed(k, ls)[i]) {
      assert Offers(k, q, Listed(k, ls)[i]);
    }
    forall i | 0 <= i < |Listed(k, lr)| ensures Awaits(Stamp(k), Listed(k, lr)[i]) {
      assert Awaits(k, Listed(k, lr)[i]);
    }
  }

  lemma NotYet(k: Kernel)
    requires Inv(k)
    ensures k.nextId !in k.nodes
  {
  }

  lemma HeadOffers(k: Kernel, q: Queue, ls: ListId, v: Value)
    requires Listed(k, ls) != []
    requires forall i :: 0 <= i < |Listed(k, ls)| ==> Offers(k, q, Listed(k, ls)[i])
    ensures var w := Listed(k, ls)[0]; w in q.sent && Offered(k, w, v) == q.sent[w]
  {
    assert Offers(k, q, Listed(k, ls)[0]);
  }

  lemma RefillEvolves(k: Kernel, q: Queue, lr: ListId, ls: ListId)
    requires Inv(k) && q.contents != [] && Listed(k, ls) != []
    ensures Evolves(k, Pop(k, q, ls).0, {lr, ls}, None, true)
  {
    FirstWaits(k, ls);
    var k1 := Wake(k, Listed(k, ls)[0], false);
    EvolveWake(k, Listed(k, ls)[0], ls);
    EvolveStamp(k1);
    EvolveWiden(k1, Stamp(k1), {}, None, true, {ls}, None, true);
    EvolveTrans(k, k1, Stamp(k1), {ls}, None, true);
    EvolveWiden(k, Stamp(k1), {ls}, None, true, {lr, ls}, None, true);
  }

  lemma RefillKeeps(k: Kernel, q: Queue, lr: ListId, ls: ListId)
    requires Inv(k) && QueueInv(k, q, lr, ls) && q.contents != [] && Listed(k, ls) != []
    ensures var (k', q', v) := Pop(k, q, ls);
            QueueInv(k', q', lr, ls) && Evolves(k, k', {lr, ls}, None, true)
  {
    RefillEvolves(k, q, lr, ls);
    RefillInv(k, q, lr, ls);
  }

  lemma RefillInv(k: Kernel, q: Queue, lr: ListId, ls: ListId)
    requires Inv(k) && QueueInv(k, q, lr, ls) && q.contents != [] && Listed(k, ls) != []
    ensures var (k', q', v) := Pop(k, q, ls); QueueInv(k', q', lr, ls)
  {
    RefillFair(k, q, lr, ls);
    RefillCounts(k, q, lr, ls);
    RefillSlots(k, q, lr, ls);
  }

  lemma RefillCounts(k: Kernel, q: Queue, lr: ListId, ls: ListId)
    requires Inv(k) && QueueInv(k, q, lr, ls) && q.contents != [] && Listed(k, ls) != []
    ensures var (k', q', v) := Pop(k, q, ls);
            Matched(q') && |q'.contents| == q'.capacity && Numbered(Stamp(k), q')
  {
    HeadOffers(k, q, ls, q.contents[0]);
    RefillMatched(q, Listed(k, ls)[0], k.nextId);
  }

  lemma RefillFair(k: Kernel, q: Queue, lr: ListId, ls: ListId)
    requires Inv(k) && QueueInv(k, q, lr, ls) && q.contents != [] && Listed(k, ls) != []
    ensures var (k', q', v) := Pop(k, q, ls);
            && Fair(k', lr, q'.receives, q'.served) && Fair(k', ls, q'.sends, q'.passed)
            && Listed(k', lr) == [] && k'.nextId == k.nextId + 1
  {
    WakeHeadFair(k, ls, lr, q.sends, q.passed, q.receives, q.served);
  }

  lemma RefillMatched(q: Queue, w: NodeId, id: NodeId)
    requires Matched(q) && q.contents != [] && w in q.sent
    ensures Matched(q.(contents := q.contents[1..] + [q.sent[w]], passed := q.passed + [w],
                       served := q.served + [id], given := q.given + [q.contents[0]]))
  {
  }

  lemma RefillSlots(k: Kernel, q: Queue, lr: ListId, ls: ListId)
    requires Inv(k) && QueueInv(k, q, lr, ls) && q.contents != [] && Listed(k, ls) != []
    ensures var (k', q', v) := Pop(k, q, ls); Slots(k', q', lr, ls)
  {
    hide Inv, Fair, Slots;
    var (k', q', v) := Pop(k, q, ls);
    WakeHeadFair(k, ls, lr, q.sends, q.passed, q.receives, q.served);
    ListedWait(k, ls);
    FreshUnlinked(k);
    assert Listed(k, ls)[0] in k.nodes;
    SlotsRefilled(k, k', q, q', lr, ls);
  }

  /** The slots after request `k.nextId` was served from the buffer and the head of the
      senders woken. */
  lemma SlotsRefilled(k: Kernel, k': Kernel, q: Queue, q': Queue, lr: ListId, ls: ListId)
    requires Slots(k, q, lr, ls) && |q.given| == |q.served| && NoDup(Listed(k, ls)) && Listed(k, ls) != []
    requires k.nextId !in k.nodes
    requires var w := Listed(k, ls)[0];
             && w in k.nodes && k.nodes[w].wakes == 0
             && k'.nodes == k.nodes[w := k.nodes[w].(wakes := 1, timedOut := false)]
    requires q'.sent == q.sent && q'.served == q.served + [k.nextId] && |q'.given| == |q'.served|
    requires forall i :: 0 <= i < |q.given| ==> q'.given[i] == q.given[i]
    requires Listed(k', ls) == Listed(k, ls)[1..] && Listed(k', lr) == []
    ensures Slots(k', q', lr, ls)
  {
    forall i | 0 <= i < |Listed(k', ls)| ensures Offers(k', q', Listed(k', ls)[i]) {
      assert Offers(k, q, Listed(k, ls)[i + 1]) && Listed(k, ls)[i + 1] != Listed(k, ls)[0];
    }
  }

  lemma PopKeeps(k: Kernel, q: Queue, lr: ListId, ls: ListId)
    requires Inv(k) && QueueInv(k, q, lr, ls) && q.contents != []
    ensures var (k', q', v) := Pop(k, q, ls);
            QueueInv(k', q', lr, ls) && Evolves(k, k', {lr, ls}, None, true)
  {
    if Listed(k, ls) == [] {
      TakeKeeps(k, q, lr, ls);
    } else {
      RefillKeeps(k, q, lr, ls);
    }
  }

  lemma TryReceiveKeeps(k: Kernel, q: Queue, lr: ListId, ls: ListId)
    requires Inv(k) && QueueInv(k, q, lr, ls)
    ensures var (k', q', got) := TryReceive(k, q, ls);
            QueueInv(k', q', lr, ls) && Evolves(k, k', {lr, ls}, None, true)
  {
    if q.contents == [] {
      EvolveRefl(k);
      EvolveWiden(k, k, {}, None, true, {lr, ls}, None, true);
    } else {
      PopKeeps(k, q, lr, ls);
    }
  }

  lemma ReceiveBlocks(k: Kernel, q: Queue, lr: ListId, ls: ListId, timeout: Option<Tick>)
    requires Inv(k) && InTask(k) && QueueInv(k, q, lr, ls) && q.contents == []
    ensures var (k', q', got) := Receive(k, q, lr, ls, timeout);
            QueueInv(k', q', lr, ls) && Evolves(k, k', {lr, ls}, k.current, Short(timeout))
  {
    hide Inv, Fair, Evolves, Slots, Awaits;
    var k' := Receive(k, q, lr, ls, timeout).0;
    FairBlock(k, lr, Slot(None), timeout, q.receives, q.served);
    EvolveBlock(k, lr, Slot(None), timeout);
    FairFrame(k, k', {lr}, ls, q.sends, q.passed);
    ReceiveBlocksSlots(k, q, lr, ls, timeout);
    EvolveWiden(k, k', {lr}, k.current, Short(timeout), {lr, ls}, k.current, Short(timeout));
  }

  lemma ReceiveBlocksSlots(k: Kernel, q: Queue, lr: ListId, ls: ListId, timeout: Option<Tick>)
    requires Inv(k) && InTask(k) && QueueInv(k, q, lr, ls) && q.contents == []
    ensures var (k', q', got) := Receive(k, q, lr, ls, timeout);
            Slots(k', q', lr, ls) && Listed(k', ls) == [] && k'.nextId == k.nextId + 1
  {
    var (k', q', got) := Receive(k, q, lr, ls, timeout);
    BlockEffect(k, Some(lr), Slot(None), timeout);
    forall i | 0 <= i < |Listed(k', lr)| ensures Awaits(k', Listed(k', lr)[i]) {
      if i < |Listed(k, lr)| {
        assert Awaits(k, Listed(k, lr)[i]);
      }
    }
  }

  lemma ReceiveKeeps(k: Kernel, q: Queue, lr: ListId, ls: ListId, timeout: Option<Tick>)
    requires Inv(k) && InTask(k) && QueueInv(k, q, lr, ls)
    ensures var (k', q', got) := Receive(k, q, lr, ls, timeout);
            QueueInv(k', q', lr, ls) && Evolves(k, k', {lr, ls}, k.current, Short(timeout))
  {
    if q.contents == [] {
      ReceiveBlocks(k, q, lr, ls, timeout);
    } else {
      PopKeeps(k, q, lr, ls);
      EvolveWiden(k, Pop(k, q, ls).0, {lr, ls}, None, true, {lr, ls}, k.current, Short(timeout));
    }
  }

  // ---------------------------------------------------------------- everybody else

  lemma OthersKeep(k: Kernel, k': Kernel, own: set<ListId>, q: Queue, lr: ListId, ls: ListId)
    requires Inv(k) && QueueInv(k, q, lr, ls) && Frame(k, k', own) && lr !in own && ls !in own
    ensures QueueInv(k', q, lr, ls)
  {
    FairFrame(k, k', own, lr, q.receives, q.served);
    FairFrame(k, k', own, ls, q.sends, q.passed);
    OthersKeepSlots(k, k', own, q, lr, ls);
  }

  lemma OthersKeepSlots(k: Kernel, k': Kernel, own: set<ListId>, q: Queue, lr: ListId, ls: ListId)
    requires Inv(k) && QueueInv(k, q, lr, ls) && Frame(k, k', own) && lr !in own && ls !in own
    ensures Slots(k', q, lr, ls)
  {
    hide ReadyInv, ListsInv, BlockedInv, Fair, Matched;
    ListedWait(k, lr);
    ListedWait(k, ls);
    forall i | 0 <= i < |Listed(k', ls)| ensures Offers(k', q, Listed(k', ls)[i]) {
      assert Listed(k, ls)[i] in Listed(k, ls) && Offers(k, q, Listed(k, ls)[i]);
    }
    forall i | 0 <= i < |Listed(k', lr)| ensures Awaits(k', Listed(k', lr)[i]) {
      assert Listed(k, lr)[i] in Listed(k, lr) && Awaits(k, Listed(k, lr)[i]);
    }
  }

  /** A timeout takes a waiter out of the middle of its list; order and slots are kept. */
  lemma TimeoutKeeps(k: Kernel, n: NodeId, q: Queue, lr: ListId, ls: ListId)
    requires Inv(k) && Waiting(k, n) && QueueInv(k, q, lr, ls)
    ensures QueueInv(Wake(k, n, true), q, lr, ls)
  {
    FairExpire(k, n, lr, q.receives, q.served);
    FairExpire(k, n, ls, q.sends, q.passed);
    WakeEffect(k, n, true);
    TimeoutKeepsSlots(k, n, q, lr, ls);
  }

  lemma TimeoutLists(k: Kernel, n: NodeId, l: ListId, i: nat) returns (j: nat)
    requires Inv(k) && Waiting(k, n) && i < |Listed(Wake(k, n, true), l)|
    ensures j < |Listed(k, l)| && Listed(Wake(k, n, true), l)[i] == Listed(k, l)[j] && Listed(k, l)[j] != n
  {
    WakeEffect(k, n, true);
    ListedWait(k, l);
    RemoveNoDup(Listed(k, l), n);
    assert Listed(Wake(k, n, true), l) == Remove(Listed(k, l), n);
    var m := Remove(Listed(k, l), n)[i];
    assert m in Listed(k, l);
    j :| 0 <= j < |Listed(k, l)| && Listed(k, l)[j] == m;
  }

  lemma TimeoutKeepsSlots(k: Kernel, n: NodeId, q: Queue, lr: ListId, ls: ListId)
    requires Inv(k) && Waiting(k, n) && Slots(k, q, lr, ls)
    ensures Slots(Wake(k, n, true), q, lr, ls)
  {
    var k' := Wake(k, n, true);
    forall i | 0 <= i < |Listed(k', ls)| ensures Offers(k', q, Listed(k', ls)[i]) {
      var j := TimeoutLists(k, n, ls, i);
      assert Offers(k, q, Listed(k, ls)[j]);
    }
    forall i | 0 <= i < |Listed(k', lr)| ensures Awaits(k', Listed(k', lr)[i]) {
      var j := TimeoutLists(k, n, lr, i);
      assert Awaits(k, Listed(k, lr)[j]);
    }
    WakeEffect(k, n, true);
    assert n in k.nodes;
  }

  // ---------------------------------------------------------------- what it means

  /** With refused and timed-out requests removed, the i-th receive in order of arrival
      received the value of the i-th send in order of arrival. */
  lemma MatchedInOrder(k: Kernel, q: Queue, lr: ListId, ls: ListId, i: nat)
    requires QueueInv(k, q, lr, ls) && i < |q.given|
    ensures var s := Survivors(k.nodes, q.sends); var r := Survivors(k.nodes, q.receives);
            && i < |s| && i < |r|
            && q.served[i] == r[i]
            && s[i] in q.sent && q.sent[s[i]] == q.given[i]
  {
    assert (q.passed + Listed(k, ls))[i] == q.passed[i];
    assert (q.served + Listed(k, lr))[i] == q.served[i];
  }

  /** Nothing is lost or invented: the values of the surviving sends are those given away,
      those buffered and those offered by waiting senders, in this order; the surviving
      receives are those served and those waiting. */
  lemma Conserved(k: Kernel, q: Queue, lr: ListId, ls: ListId, i: nat)
    requires QueueInv(k, q, lr, ls)
    requires i < |Survivors(k.nodes, q.sends)|
    ensures |Survivors(k.nodes, q.sends)| == |q.given| + |q.contents| + |Listed(k, ls)|
    ensures |Survivors(k.nodes, q.receives)| == |q.given| + |Listed(k, lr)|
    ensures var id := Survivors(k.nodes, q.sends)[i]; var g := |q.given|; var b := g + |q.contents|;
            && id in q.sent
            && (i < g ==> q.sent[id] == q.given[i])
            && (g <= i < b ==> q.sent[id] == q.contents[i - g])
            && (b <= i ==> id == Listed(k, ls)[i - b] && id in k.nodes && k.nodes[id].payload == Offer(q.sent[id]))
  {
    var b := |q.given| + |q.contents|;
    if i < b {
      assert (q.passed + Listed(k, ls))[i] == q.passed[i];
    } else {
      assert (q.passed + Listed(k, ls))[i] == Listed(k, ls)[i - b];
      assert Offers(k, q, Listed(k, ls)[i - b]);
    }
  }

  /** No waiter is stranded and the two kinds of waiters exclude each other. */
  lemma NobodyStranded(k: Kernel, q: Queue, lr: ListId, ls: ListId)
    requires QueueInv(k, q, lr, ls)
    ensures |q.contents| <= q.capacity
    ensures Listed(k, ls) != [] ==> |q.contents| == q.capacity && Listed(k, lr) == []
    ensures Listed(k, lr) != [] ==> q.contents == [] && Listed(k, ls) == []
  {
  }

  /** While senders wait, a send that does not wait is refused; while receivers wait, so is a
      receive. Nobody overtakes. */
  lemma NoOvertaking(k: Kernel, q: Queue, lr: ListId, ls: ListId, v: Value)
    requires Inv(k) && QueueInv(k, q, lr, ls)
    ensures Listed(k, ls) != [] ==> TrySend(k, q, lr, v) == (k, q, false)
    ensures Listed(k, lr) != [] ==> TryReceive(k, q, ls) == (k, q, None)
    ensures !TrySend(k, q, lr, v).2 <==> Listed(k, lr) == [] && |q.contents| == q.capacity
  {
  }

  /** A receive that waited reports a value exactly if it was served, and reports the very
      value it was given; a send that waited reports success exactly if its value was taken. */
  lemma OutcomesAreTruthful(k: Kernel, q: Queue, lr: ListId, ls: ListId, n: NodeId)
    requires Inv(k) && QueueInv(k, q, lr, ls) && n in k.nodes && k.nodes[n].wakes == 1
    ensures k.nodes[n].home == Some(lr) ==>
              && (ReceiveForResumes(None, k.nodes[n]).Some? <==> n in q.served)
              && (forall i :: 0 <= i < |q.served| && q.served[i] == n ==>
                    i < |q.given| && ReceiveForResumes(None, k.nodes[n]) == Some(q.given[i]))
    ensures k.nodes[n].home == Some(ls) ==> (SendForResumes(false, k.nodes[n]) <==> n in q.passed)
  {
    if k.nodes[n].home == Some(lr) {
      OutcomeIsTruthful(k, lr, q.receives, q.served, n);
    }
    if k.nodes[n].home == Some(ls) {
      OutcomeIsTruthful(k, ls, q.sends, q.passed, n);
    }
  }

  /** What a send reports on the spot: success exactly if its value has left the sender; the
      value on record is the caller's, and a refused `try_send` leaves no trace. */
  lemma SendReports(k: Kernel, q: Queue, lr: ListId, ls: ListId, v: Value, timeout: Option<Tick>)
    requires Inv(k) && QueueInv(k, q, lr, ls)
    ensures var (k', q', done) := TrySend(k, q, lr, v);
            if done
            then q'.sends == q.sends + [k.nextId] && q'.passed == q.passed + [k.nextId]
                 && q'.sent == q.sent[k.nextId := v]
            else k' == k && q' == q
    ensures InTask(k) ==>
            var (k', q', done) := Send(k, q, lr, ls, v, timeout);
            && q'.sends == q.sends + [k.nextId] && q'.sent == q.sent[k.nextId := v]
            && q'.passed == (if done then q.passed + [k.nextId] else q.passed)
            && (!done ==> Listed(k', ls) == Listed(k, ls) + [k.nextId])
            && (done <==> TrySend(k, q, lr, v).2)
  {
    hide QueueInv, Inv;
    if InTask(k) { BlockEffect(k, Some(ls), Offer(v), timeout); }
  }
}
