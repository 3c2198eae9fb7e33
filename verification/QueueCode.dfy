/** The code of the queue over its ring buffer and the shared kernel. */
module QueueCode {
  import opened Sequences
  import opened Time
  import opened Kernel
  import opened KernelProofs
  import opened Requests
  import opened Scheduling
  import Q = Queue
  import QP = QueueProofs

  function Place(head: nat, i: nat, n: nat): (p: nat)
    requires 0 < n
    ensures p < n
  {
    (head + i) % n
  }

  /** `count` elements of a circular buffer from place `head` on. */
  function Window(s: seq<Value>, head: nat, count: nat): (w: seq<Value>)
    requires count <= |s|
    ensures |w| == count
  {
    seq(count, i requires 0 <= i < count => s[Place(head, i, |s|)])
  }

  lemma PlaceIs(head: nat, i: nat, n: nat)
    requires head < n && i <= n
    ensures Place(head, i, n) == if head + i < n then head + i else head + i - n
  {
  }

  /** Writing behind the window and widening it appends. */
  lemma WindowPush(s: seq<Value>, head: nat, count: nat, v: Value)
    requires head < |s| && count < |s|
    ensures Window(s[Place(head, count, |s|) := v], head, count + 1) == Window(s, head, count) + [v]
  {
    PlaceIs(head, count, |s|);
    forall i | 0 <= i < count ensures Place(head, i, |s|) != Place(head, count, |s|) {
      PlaceIs(head, i, |s|);
    }
  }

  /** Moving the front forward and narrowing the window takes the first element. */
  lemma WindowPop(s: seq<Value>, head: nat, count: nat)
    requires head < |s| && 0 < count <= |s|
    ensures Window(s, head, count) == [s[head]] + Window(s, Place(head, 1, |s|), count - 1)
  {
    PlaceIs(head, 0, |s|);
    PlaceIs(head, 1, |s|);
    forall i | 0 <= i < count - 1 ensures Place(Place(head, 1, |s|), i, |s|) == Place(head, i + 1, |s|) {
      PlaceIs(Place(head, 1, |s|), i, |s|);
      PlaceIs(head, i + 1, |s|);
    }
  }

  class BoundedQueue {
    const kernel: Scheduler
    const receivers: ListId
    const senders: ListId
    const buf: array<Value>
    var head: nat
    var count: nat
    ghost var history: Q.Queue

    constructor (kernel: Scheduler, receivers: ListId, senders: ListId, capacity: nat)
      requires Inv(kernel.State()) && receivers != senders && capacity > 0
      requires Listed(kernel.State(), receivers) == [] && Listed(kernel.State(), senders) == []
      requires forall n :: n in kernel.nodes ==>
                 kernel.nodes[n].home != Some(receivers) && kernel.nodes[n].home != Some(senders)
      ensures this.kernel == kernel && this.receivers == receivers && this.senders == senders && fresh(buf)
      ensures Valid() && history == Q.Create(capacity)
    {
      this.kernel, this.receivers, this.senders := kernel, receivers, senders;
      buf := new Value[capacity];
      head, count := 0, 0;
      history := Q.Create(capacity);
      new;
      Q.CreateInv(kernel.State(), capacity, receivers, senders);
    }

    ghost predicate Bounded()
      reads this
    {
      head < buf.Length && count <= buf.Length
    }

    /** The buffered elements, oldest first. */
    ghost function Contents(): seq<Value>
      requires Bounded()
      reads this, buf
    {
      Window(buf[..], head, count)
    }

    ghost predicate Valid()
      reads this, kernel, buf
    {
      && Bounded()
      && history.capacity == buf.Length && history.contents == Contents()
      && Inv(kernel.State()) && Q.QueueInv(kernel.State(), history, receivers, senders)
    }

    method PushSlot(v: Value)
      requires Bounded() && count < buf.Length
      modifies this`count, buf
      ensures Bounded() && Contents() == old(Contents()) + [v]
    {
      WindowPush(buf[..], head, count, v);
      buf[Place(head, count, buf.Length)] := v;
      count := count + 1;
      assert buf[..] == old(buf[..])[Place(head, old(count), buf.Length) := v];
    }

    method PopSlot() returns (v: Value)
      requires Bounded() && count > 0
      modifies this`head, this`count
      ensures Bounded() && old(Contents()) == [v] + Contents()
    {
      WindowPop(buf[..], head, count);
      v := buf[head];
      head := Place(head, 1, buf.Length);
      count := count - 1;
    }

    /** The longest waiting receiver is given the value and woken. */
    method HandOver(v: Value)
      requires Inv(kernel.State()) && receivers in kernel.waits && kernel.waits[receivers] != []
      modifies kernel
      ensures var k := old(kernel.State()); var w := old(kernel.waits)[receivers][0];
              && w in k.nodes && Waiting(Deliver(k, w, Slot(Some(v))), w)
              && k.nodes[w].task in k.tasks && k.tasks[k.nodes[w].task].prio < |k.ready|
              && kernel.State() == Stamp(Wake(Deliver(k, w, Slot(Some(v))), w, false))
      ensures kernel.resumePoints == old(kernel.resumePoints)
    {
      hide Inv, Wake;
      var w := kernel.waits[receivers][0];
      FirstWaitsToWake(kernel.State(), receivers);
      DeliverKeepsInv(kernel.State(), w, Slot(Some(v)));
      kernel.Write(w, Slot(Some(v)));
      kernel.WakeNode(w, false);
      var id := kernel.TakeNumber();
    }

    /** Hand the value to the longest waiting receiver, or buffer it, or refuse it. */
    method DeliverOrPush(v: Value) returns (done: bool)
      requires Valid()
      modifies this, kernel, buf
      ensures Valid()
      ensures (kernel.State(), history, done) == Q.DeliverOrPush(old(kernel.State()), old(history), receivers, v)
      ensures kernel.resumePoints == old(kernel.resumePoints)
    {
      hide Inv, Q.QueueInv, Wake, Deliver;
      QP.TrySendKeeps(kernel.State(), history, receivers, senders, v);
      ghost var q := history;
      if receivers in kernel.waits && kernel.waits[receivers] != [] {
        ghost var w := kernel.waits[receivers][0];
        history := Q.Accept(q, kernel.nextId, v).(served := q.served + [w], given := q.given + [v]);
        HandOver(v);
        return true;
      }
      if count < buf.Length {
        history := Q.Accept(q, kernel.nextId, v).(contents := q.contents + [v]);
        PushSlot(v);
        var id := kernel.TakeNumber();
        return true;
      }
      return false;
    }

    method TrySend(v: Value) returns (done: bool)
      requires Valid()
      modifies this, kernel, buf
      ensures Valid() && (kernel.State(), history, done) == Q.TrySend(old(kernel.State()), old(history), receivers, v)
      ensures kernel.resumePoints == old(kernel.resumePoints)
    {
      done := DeliverOrPush(v);
    }

    /** The suspension point of `send` and `send_for`. */
    method Send(v: Value, timeout: Option<Tick>, point: Handle) returns (done: bool)
      requires Valid() && InTask(kernel.State())
      modifies this, kernel, buf
      ensures Valid()
      ensures (kernel.State(), history, done)
              == Q.Send(old(kernel.State()), old(history), receivers, senders, v, timeout)
      ensures kernel.resumePoints == StoredIf(!done, old(kernel.resumePoints), old(kernel.current), point)
    {
      hide Inv, InTask, Q.QueueInv, Q.DeliverOrPush;
      QP.SendKeeps(kernel.State(), history, receivers, senders, v, timeout);
      ghost var k, q := kernel.State(), history;
      done := DeliverOrPush(v);
      if !done {
        Refused(k, q, receivers, v);
        history := q.(sends := q.sends + [kernel.nextId], sent := q.sent[kernel.nextId := v]);
        var n := kernel.BlockCurrent(Some(senders), Offer(v), timeout, point);
      }
    }

    /** After a slot has become free: take over the value of the longest waiting sender. */
    method WakeOneSender()
      requires Bounded() && count < buf.Length && Inv(kernel.State())
      requires senders in kernel.waits && kernel.waits[senders] != [] ==>
        kernel.waits[senders][0] in kernel.nodes && kernel.nodes[kernel.waits[senders][0]].payload.Offer?
      modifies this`count, kernel, buf
      ensures Bounded() && kernel.resumePoints == old(kernel.resumePoints)
      ensures if Listed(old(kernel.State()), senders) == []
              then kernel.State() == old(kernel.State()) && Contents() == old(Contents())
              else var w := Listed(old(kernel.State()), senders)[0];
                   && w in old(kernel.nodes) && old(kernel.nodes)[w].payload.Offer?
                   && Waiting(old(kernel.State()), w)
                   && kernel.State() == Wake(old(kernel.State()), w, false)
                   && Contents() == old(Contents()) + [old(kernel.nodes)[w].payload.offered]
    {
      if senders in kernel.waits && kernel.waits[senders] != [] {
        FirstWaitsToWake(kernel.State(), senders);
        var w := kernel.waits[senders][0];
        PushSlot(kernel.nodes[w].payload.offered);
        kernel.WakeNode(w, false);
      }
    }

    /** Take the oldest element and refill from the longest waiting sender. */
    method Pop() returns (v: Value)
      requires Valid() && count > 0
      modifies this, kernel, buf
      ensures old(history).contents != []
      ensures Valid() && (kernel.State(), history, v) == Q.Pop(old(kernel.State()), old(history), senders)
      ensures kernel.resumePoints == old(kernel.resumePoints)
    {
      hide Inv, Q.QueueInv;
      QP.PopKeeps(kernel.State(), history, receivers, senders);
      SenderOffers(kernel.State(), history, receivers, senders);
      history := Q.Pop(kernel.State(), history, senders).1;
      v := PopSlot();
      WakeOneSender();
      var id := kernel.TakeNumber();
    }

    method TryReceive() returns (v: Option<Value>)
      requires Valid()
      modifies this, kernel, buf
      ensures Valid() && (kernel.State(), history, v) == Q.TryReceive(old(kernel.State()), old(history), senders)
      ensures kernel.resumePoints == old(kernel.resumePoints)
    {
      if count == 0 {
        return None;
      }
      var taken := Pop();
      return Some(taken);
    }

    /** The suspension point of `receive` and `receive_for`. */
    method Receive(timeout: Option<Tick>, point: Handle) returns (v: Option<Value>)
      requires Valid() && InTask(kernel.State())
      modifies this, kernel, buf
      ensures Valid()
      ensures (kernel.State(), history, v)
              == Q.Receive(old(kernel.State()), old(history), receivers, senders, timeout)
      ensures kernel.resumePoints == StoredIf(v == None, old(kernel.resumePoints), old(kernel.current), point)
    {
      hide Inv, InTask, Q.QueueInv, Q.Pop;
      if count > 0 {
        var taken := Pop();
        return Some(taken);
      }
      QP.ReceiveKeeps(kernel.State(), history, receivers, senders, timeout);
      history := history.(receives := history.receives + [kernel.nextId]);
      var n := kernel.BlockCurrent(Some(receivers), Slot(None), timeout, point);
      return None;
    }
  }

  lemma Refused(k: Kernel, q: Q.Queue, lr: ListId, v: Value)
    requires Inv(k) && !Q.DeliverOrPush(k, q, lr, v).2
    ensures Q.DeliverOrPush(k, q, lr, v) == (k, q, false)
  {
  }

  lemma SenderOffers(k: Kernel, q: Q.Queue, lr: ListId, ls: ListId)
    requires Q.QueueInv(k, q, lr, ls)
    ensures Listed(k, ls) != [] ==> Listed(k, ls)[0] in k.nodes && k.nodes[Listed(k, ls)[0]].payload.Offer?
  {
    if Listed(k, ls) != [] { assert Q.Offers(k, q, Listed(k, ls)[0]); }
  }
}
