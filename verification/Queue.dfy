/** Bounded queue with direct handoff in both directions (include/rtos/queue.hpp). */
module Queue {
  import opened Sequences
  import opened Time
  import opened Kernel
  import opened Requests

  /** `contents` are the buffered elements, oldest first, at most `capacity` of them.
      History: the send requests in order of arrival, with their values, and those whose value
      has left the sender; the receive requests in order of arrival, and those served, with
      the value each was given. */
  datatype Queue = Queue(
    capacity: nat,
    contents: seq<Value>,
    sends: seq<NodeId>,
    sent: map<NodeId, Value>,
    passed: seq<NodeId>,
    receives: seq<NodeId>,
    served: seq<NodeId>,
    given: seq<Value>)

  function Create(capacity: nat): Queue {
    Queue(capacity, [], [], map[], [], [], [], [])
  }

  // ---------------------------------------------------------------- operations

  function Accept(q: Queue, id: NodeId, v: Value): Queue {
    q.(sends := q.sends + [id], sent := q.sent[id := v], passed := q.passed + [id])
  }

  /** Hand the value to the longest waiting receiver, or buffer it, or refuse it. */
  function DeliverOrPush(k: Kernel, q: Queue, lr: ListId, v: Value): (Kernel, Queue, bool)
    requires Inv(k)
  {
    if Listed(k, lr) != [] then
      FirstWaits(k, lr);
      var w := Listed(k, lr)[0];
      (Stamp(Wake(Deliver(k, w, Slot(Some(v))), w, false)),
       Accept(q, k.nextId, v).(served := q.served + [w], given := q.given + [v]),
       true)
    else if |q.contents| < q.capacity then
      (Stamp(k), Accept(q, k.nextId, v).(contents := q.contents + [v]), true)
    else (k, q, false)
  }

  /** What the sender's node offers. */
  function Offered(k: Kernel, w: NodeId, otherwise: Value): Value {
    if w in k.nodes && k.nodes[w].payload.Offer? then k.nodes[w].payload.offered else otherwise
  }

  /** Take the oldest element and move the longest waiting sender's value into its place. */
  function Pop(k: Kernel, q: Queue, ls: ListId): (Kernel, Queue, Value)
    requires Inv(k) && q.contents != []
  {
    var v := q.contents[0];
    var q1 := q.(contents := q.contents[1..], receives := q.receives + [k.nextId],
                 served := q.served + [k.nextId], given := q.given + [v]);
    if Listed(k, ls) != [] then
      FirstWaits(k, ls);
      var w := Listed(k, ls)[0];
      (Stamp(Wake(k, w, false)),
       q1.(contents := q1.contents + [Offered(k, w, v)], passed := q.passed + [w]),
       v)
    else (Stamp(k), q1, v)
  }

  function TrySend(k: Kernel, q: Queue, lr: ListId, v: Value): (Kernel, Queue, bool)
    requires Inv(k)
  {
    DeliverOrPush(k, q, lr, v)
  }

  /** `send` and `send_for`; the flag tells whether it succeeded without blocking. */
  function Send(k: Kernel, q: Queue, lr: ListId, ls: ListId, v: Value, timeout: Option<Tick>): (Kernel, Queue, bool)
    requires Inv(k) && InTask(k)
  {
    var (k1, q1, done) := DeliverOrPush(k, q, lr, v);
    if done then (k1, q1, true)
    else (Block(k, Some(ls), Offer(v), timeout),
          q.(sends := q.sends + [k.nextId], sent := q.sent[k.nextId := v]),
          false)
  }

  function TryReceive(k: Kernel, q: Queue, ls: ListId): (Kernel, Queue, Option<Value>)
    requires Inv(k)
  {
    if q.contents == [] then (k, q, None)
    else var (k1, q1, v) := Pop(k, q, ls); (k1, q1, Some(v))
  }

  /** `receive` and `receive_for`; a value means that it succeeded without blocking. */
  function Receive(k: Kernel, q: Queue, lr: ListId, ls: ListId, timeout: Option<Tick>): (Kernel, Queue, Option<Value>)
    requires Inv(k) && InTask(k)
  {
    if q.contents == []
    then (Block(k, Some(lr), Slot(None), timeout), q.(receives := q.receives + [k.nextId]), None)
    else var (k1, q1, v) := Pop(k, q, ls); (k1, q1, Some(v))
  }

  /** What `receive_for` and `send_for` report when the task runs again. */
  function ReceiveForResumes(got: Option<Value>, node: WaitNode): Option<Value> {
    if got.Some? then got else if node.timedOut || !node.payload.Slot? then None else node.payload.received
  }

  function SendForResumes(done: bool, node: WaitNode): bool {
    done || !node.timedOut
  }

  // ---------------------------------------------------------------- invariant

  /** The values that have left their senders, in order of sending, are those given to
      receivers, in order of receiving, then the buffered ones. */
  ghost predicate Matched(q: Queue) {
    && |q.given| == |q.served|
    && |q.passed| == |q.given| + |q.contents|
    && (forall i :: 0 <= i < |q.passed| ==> q.passed[i] in q.sent)
    && (forall i :: 0 <= i < |q.given| ==> q.sent[q.passed[i]] == q.given[i])
    && (forall i :: 0 <= i < |q.contents| ==> q.sent[q.passed[|q.given| + i]] == q.contents[i])
  }

  /** No waiter is stranded: senders wait only at a full buffer, receivers only at an empty one. */
  ghost predicate Unstranded(k: Kernel, q: Queue, lr: ListId, ls: ListId) {
    && 0 < q.capacity
    && |q.contents| <= q.capacity
    && (Listed(k, ls) != [] ==> |q.contents| == q.capacity)
    && (Listed(k, lr) != [] ==> q.contents == [])
  }

  ghost predicate Offers(k: Kernel, q: Queue, n: NodeId) {
    n in k.nodes && n in q.sent && k.nodes[n].payload == Offer(q.sent[n])
  }

  ghost predicate Awaits(k: Kernel, n: NodeId) {
    n in k.nodes && k.nodes[n].payload == Slot(None)
  }

  /** Waiting senders offer the value they sent, waiting receivers have an empty slot, and
      the slot of a served receiver holds the value it was given. */
  ghost predicate Slots(k: Kernel, q: Queue, lr: ListId, ls: ListId) {
    && (forall i :: 0 <= i < |Listed(k, ls)| ==> Offers(k, q, Listed(k, ls)[i]))
    && (forall i :: 0 <= i < |Listed(k, lr)| ==> Awaits(k, Listed(k, lr)[i]))
    && (forall i :: 0 <= i < |q.served| && i < |q.given| && q.served[i] in k.nodes ==>
          k.nodes[q.served[i]].wakes == 1 && k.nodes[q.served[i]].payload == Slot(Some(q.given[i])))
  }

  ghost predicate QueueInv(k: Kernel, q: Queue, lr: ListId, ls: ListId) {
    && lr != ls
    && Fair(k, lr, q.receives, q.served)
    && Fair(k, ls, q.sends, q.passed)
    && Matched(q)
    && Unstranded(k, q, lr, ls)
    && Slots(k, q, lr, ls)
    && Numbered(k, q)
  }

  ghost predicate Numbered(k: Kernel, q: Queue) {
    && (forall id {:trigger id in q.sent} :: id in q.sent ==> id < k.nextId)
    && (forall i :: 0 <= i < |q.served| ==> q.served[i] < k.nextId)
  }

  lemma CreateInv(k: Kernel, capacity: nat, lr: ListId, ls: ListId)
    requires 0 < capacity && lr != ls && Listed(k, lr) == [] && Listed(k, ls) == []
    requires forall n :: n in k.nodes ==> k.nodes[n].home != Some(lr) && k.nodes[n].home != Some(ls)
    ensures QueueInv(k, Create(capacity), lr, ls)
  {
  }
}
