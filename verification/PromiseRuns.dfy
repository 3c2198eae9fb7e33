/** The promises of all operations over whole runs: every answer is kept, and every timed request
    is answered in time. */
module PromiseRuns {
  import opened Sequences
  import opened Time
  import opened Kernel
  import opened Timer
  import opened Requests
  import opened Effects
  import opened Promises
  import opened PromisedSystem
  import opened System
  import opened Runs
  import Guarantees
  import S = Semaphore
  import Q = Queue
  import E = EventGroup

  lemma StepIsEnabled(states: seq<Sys>, ops: seq<Op>, i: nat)
    requires Run(states, ops) && i < |ops|
    ensures SysInv(states[i]) && Enabled(states[i], ops[i]) && states[i + 1] == Apply(states[i], ops[i])
  {
    RunsAreValid(states, ops, i);
    assert Follows(states[i], ops[i], states[i + 1]);
  }

  /** What step `i` of a run answers. */
  ghost function AnswerAt(states: seq<Sys>, ops: seq<Op>, i: nat): Answer
    requires Run(states, ops) && i < |ops|
  {
    StepIsEnabled(states, ops, i);
    AnswerOf(states[i], ops[i])
  }

  /** Every step of every run does, and answers, what its operation promises. */
  lemma PromisesAreKept(states: seq<Sys>, ops: seq<Op>, i: nat)
    requires Run(states, ops) && i < |ops|
    ensures Kept(states[i], ops[i], AnswerAt(states, ops, i), states[i + 1])
  {
    hide SysInv, Enabled, Apply, Kept, AnswerOf;
    StepIsEnabled(states, ops, i);
    EveryPromiseIsKept(states[i], ops[i]);
  }

  // ---------------------------------------------------------------- receiving on the spot

  lemma TakenIsLast(y: Sys, op: Op, a: Answer, y': Sys, v: Value)
    requires Kept(y, op, a, y') && (op.Receive? || op.TryReceive?) && a == Item(Some(v))
    ensures op.q in y.queues && op.q in y'.queues
    ensures y'.queues[op.q].given == y.queues[op.q].given + [v]
    ensures y'.queues[op.q].served == y.queues[op.q].served + [y.k.nextId]
    ensures y.queues[op.q].contents != [] && v == y.queues[op.q].contents[0]
  {
    hide Wakes, Suspends, Untouched;
  }

  /** A receive that is answered on the spot reports the oldest value in the buffer, and that is
      the value of the surviving send which it matches in order. */
  lemma ReceivedOnTheSpot(states: seq<Sys>, ops: seq<Op>, i: nat, v: Value)
    requires Run(states, ops) && i < |ops| && (ops[i].Receive? || ops[i].TryReceive?)
    requires AnswerAt(states, ops, i) == Item(Some(v))
    ensures var q := ops[i].q; q in states[i].queues && q in states[i + 1].queues
    ensures var before, after := states[i].queues[ops[i].q], states[i + 1].queues[ops[i].q];
            var k := states[i + 1].k; var j := |before.given|;
            var s := Survivors(k.nodes, after.sends); var r := Survivors(k.nodes, after.receives);
            && before.contents != [] && v == before.contents[0]
            && j < |s| && j < |r| && r[j] == states[i].k.nextId && s[j] in after.sent && after.sent[s[j]] == v
  {
    assert |states| == |ops| + 1;
    hide Run, Kept, AnswerAt;
    PromisesAreKept(states, ops, i);
    TakenIsLast(states[i], ops[i], AnswerAt(states, ops, i), states[i + 1], v);
    var j := |states[i].queues[ops[i].q].given|;
    GivenMatchesServed(states, ops, i, ops[i].q);
    Guarantees.QueueMatches(states, ops, i + 1, ops[i].q, j);
  }

  lemma GivenMatchesServed(states: seq<Sys>, ops: seq<Op>, i: nat, q: nat)
    requires Run(states, ops) && i < |states| && q in states[i].queues
    ensures |states[i].queues[q].given| == |states[i].queues[q].served|
  {
    RunsAreValid(states, ops, i);
  }

  // ---------------------------------------------------------------- requests that wait

  /** The timeout an operation is given, and the list it waits on. */
  function TimeoutGiven(op: Op): Option<Tick> {
    match op
    case SleepFor(ticks) => Some(ticks)
    case Acquire(_, timeout) => timeout
    case Send(_, _, timeout) => timeout
    case Receive(_, timeout) => timeout
    case Wait(_, _, _, _, timeout) => timeout
    case _ => None
  }

  function HomeOf(op: Op): Option<ListId> {
    match op
    case Acquire(i, _) => Some(SemaphoreWaiters(i))
    case Lock(i) => Some(MutexWaiters(i))
    case Send(i, _, _) => Some(Senders(i))
    case Receive(i, _) => Some(Receivers(i))
    case Wait(i, _, _, _, _) => Some(GroupWaiters(i))
    case Sync(i, _, _) => Some(GroupWaiters(i))
    case _ => None
  }

  /** The answer means that the task has been suspended. */
  predicate Suspended(op: Op, a: Answer) {
    match op
    case SleepFor(_) => a == Flag(false)
    case Acquire(_, _) => a == Flag(false)
    case Lock(_) => a == Flag(false)
    case Send(_, _, _) => a == Flag(false)
    case Receive(_, _) => a == Item(None)
    case Wait(_, _, _, _, _) => a == Snapshot(None)
    case Sync(_, _, _) => a == Snapshot(None)
    case _ => false
  }

  lemma SuspendedIsFresh(y: Sys, op: Op, a: Answer, y': Sys)
    requires Kept(y, op, a, y') && Suspended(op, a)
    ensures y.k.nextId in y'.k.nodes && FreshNode(y.k, y'.k.nodes[y.k.nextId], HomeOf(op), TimeoutGiven(op))
  {
    hide Wakes, Untouched, Delivers, Takes, E.Satisfied, Cuts;
    if op.Sync? { SyncIsFresh(y.k, y.groups[op.g], GroupWaiters(op.g), op.bits, op.want, y'.k, y'.groups[op.g]); }
  }

  lemma SyncIsFresh(k: Kernel, g: E.Group, l: ListId, bits: bv32, want: bv32, k': Kernel, g': E.Group)
    requires Syncs(k, g, l, bits, want, k', g', None)
    ensures k.nextId in k'.nodes && FreshNode(k, k'.nodes[k.nextId], Some(l), None)
  {
    hide E.Told, E.Wanted, E.Claimed, Untouched, Cuts;
    var k1, g1 :| Sets(k, g, l, bits, k1, g1) && Meets(k1, g1, l, g.bits | bits, want, k', g', None);
  }

  /** What a wait node keeps for ever, and what a step can do to it. */
  ghost predicate SameWait(a: WaitNode, b: WaitNode) {
    b.task == a.task && b.home == a.home && b.timed == a.timed && b.due == a.due
  }

  lemma StepKeepsWait(y: Sys, op: Op, n: NodeId)
    requires SysInv(y) && Enabled(y, op) && n in y.k.nodes
    ensures n in Apply(y, op).k.nodes && SameWait(y.k.nodes[n], Apply(y, op).k.nodes[n])
    ensures y.k.nodes[n].home == None && !op.TimerTick? ==> Apply(y, op).k.nodes[n] == y.k.nodes[n]
    ensures y.k.nodes[n].home == None && Apply(y, op).k.nodes[n].wakes == 1 && y.k.nodes[n].wakes == 0 ==>
      Apply(y, op).k.nodes[n].timedOut
  {
    hide SysInv, Apply, Enabled;
    if op.TimerTick? {
      TickStep(y);
      SysKernel(y);
      TickEffect(y.k);
    } else {
      StepFrame(y, op);
    }
  }

  lemma SysKernel(y: Sys)
    requires SysInv(y)
    ensures Inv(y.k)
  {
  }

  lemma {:induction false} WaitStays(states: seq<Sys>, ops: seq<Op>, i: nat, j: nat, n: NodeId)
    requires Run(states, ops) && i <= j < |states| && n in states[i].k.nodes
    ensures n in states[j].k.nodes && SameWait(states[i].k.nodes[n], states[j].k.nodes[n])
    ensures states[i].k.nodes[n].home == None && states[i].k.nodes[n].wakes == 0 && states[j].k.nodes[n].wakes == 1 ==>
      states[j].k.nodes[n].timedOut
  {
    hide SysInv, Apply, Enabled, Initial;
    if i < j {
      WaitStays(states, ops, i, j - 1, n);
      StepIsEnabled(states, ops, j - 1);
      StepKeepsWait(states[j - 1], ops[j - 1], n);
      WaitingOrWokenOnce(states, ops, j - 1, n);
      OutcomesAreFinalStep(states, ops, j - 1, n);
    }
  }

  lemma OutcomesAreFinalStep(states: seq<Sys>, ops: seq<Op>, i: nat, n: NodeId)
    requires Run(states, ops) && i < |ops| && n in states[i].k.nodes
    ensures states[i].k.nodes[n].wakes == 1 ==>
      n in states[i + 1].k.nodes && states[i + 1].k.nodes[n] == states[i].k.nodes[n]
  {
    if states[i].k.nodes[n].wakes == 1 { OutcomesAreFinal(states, ops, i, i + 1, n); }
  }

  /** A tick moves the clock by one and wakes all that is due; nothing else moves it. */
  lemma StepAndClock(states: seq<Sys>, ops: seq<Op>, i: nat, n: NodeId)
    requires Run(states, ops) && i < |ops| && n in states[i].k.nodes && forall c :: 0 <= c <= i ==> ShortOp(ops[c])
    ensures states[i + 1].k.clock == states[i].k.clock + (if ops[i].TimerTick? then 1 else 0)
    ensures ops[i].TimerTick? && states[i].k.nodes[n].timed && states[i].k.nodes[n].due <= states[i + 1].k.clock ==>
      n in states[i + 1].k.nodes && states[i + 1].k.nodes[n].wakes == 1
  {
    hide SysInv, Apply, Enabled, Initial;
    StepIsEnabled(states, ops, i);
    RunsArePunctual(states, ops, i);
    StepKeepsTime(states[i], ops[i]);
    if ops[i].TimerTick? {
      TickStep(states[i]);
      SysKernel(states[i]);
      TickIsExact(states[i].k);
      WaitingOrWokenOnce(states, ops, i, n);
      assert Timely(states[i].k, states[i + 1].k, n);
    }
  }

  lemma {:induction false} WokenInTime(states: seq<Sys>, ops: seq<Op>, i: nat, j: nat, n: NodeId)
    requires Run(states, ops) && i <= j < |states| && n in states[i].k.nodes && states[i].k.nodes[n].timed
    requires forall c :: 0 <= c < j ==> ShortOp(ops[c])
    ensures n in states[j].k.nodes && states[i].k.clock <= states[j].k.clock
    ensures states[j].k.clock > states[i].k.clock && states[j].k.clock >= states[i].k.nodes[n].due ==>
      states[j].k.nodes[n].wakes == 1
  {
    hide SysInv, Apply, Enabled, Initial;
    if i < j {
      WokenInTime(states, ops, i, j - 1, n);
      WaitStays(states, ops, i, j - 1, n);
      WaitStays(states, ops, i, j, n);
      StepAndClock(states, ops, j - 1, n);
      OutcomesAreFinalStep(states, ops, j - 1, n);
    }
  }

  /** The number of ticks after which a request with timeout `t` has been woken at the latest. */
  function AtLatest(t: Tick): nat {
    if t == 0 then 1 else t
  }

  /** Every request that waits with a timeout, of whichever kind, has exactly that timeout armed:
      it never times out before that many ticks have passed, and once they have it waits no more.
      A request without a timeout never times out. */
  lemma TimeoutInTime(states: seq<Sys>, ops: seq<Op>, i: nat, j: nat)
    requires Run(states, ops) && i < j < |states| && Suspended(ops[i], AnswerAt(states, ops, i))
    requires forall c :: 0 <= c < j ==> ShortOp(ops[c])
    ensures states[i].k.nextId in states[j].k.nodes
    ensures var node := states[j].k.nodes[states[i].k.nextId]; var elapsed := states[j].k.clock - states[i].k.clock;
            && node.home == HomeOf(ops[i]) && states[i].k.current == Some(node.task)
            && (TimeoutGiven(ops[i]) == None ==> !node.timedOut)
            && (TimeoutGiven(ops[i]).Some? ==>
                  && (node.timedOut ==> elapsed >= TimeoutGiven(ops[i]).value)
                  && (elapsed >= AtLatest(TimeoutGiven(ops[i]).value) ==> node.wakes == 1)
                  && (node.home == None && node.wakes == 1 ==> node.timedOut))
  {
    assert |states| == |ops| + 1;
    hide Run, SysInv, AnswerAt, Suspended, HomeOf, TimeoutGiven, TimeInv, ShortOp;
    var n := states[i].k.nextId;
    ArmedOnSuspending(states, ops, i);
    WaitStays(states, ops, i + 1, j, n);
    RunsArePunctual(states, ops, j);
    WaitingOrWokenOnce(states, ops, j, n);
    if TimeoutGiven(ops[i]).Some? { WokenInTime(states, ops, i + 1, j, n); }
  }

  /** The node at which the task suspends. */
  lemma ArmedOnSuspending(states: seq<Sys>, ops: seq<Op>, i: nat)
    requires Run(states, ops) && i < |ops| && Suspended(ops[i], AnswerAt(states, ops, i))
    requires forall c :: 0 <= c <= i ==> ShortOp(ops[c])
    ensures states[i + 1].k.clock == states[i].k.clock && states[i].k.nextId in states[i + 1].k.nodes
    ensures FreshNode(states[i].k, states[i + 1].k.nodes[states[i].k.nextId], HomeOf(ops[i]), TimeoutGiven(ops[i]))
  {
    assert |states| == |ops| + 1;
    hide Run, Kept, AnswerAt, Suspended;
    PromisesAreKept(states, ops, i);
    SuspendedIsFresh(states[i], ops[i], AnswerAt(states, ops, i), states[i + 1]);
    SuspensionIsNoTick(states, ops, i, states[i].k.nextId);
  }

  lemma SuspensionIsNoTick(states: seq<Sys>, ops: seq<Op>, i: nat, n: NodeId)
    requires Run(states, ops) && i < |ops| && Suspended(ops[i], AnswerAt(states, ops, i))
    requires forall c :: 0 <= c <= i ==> ShortOp(ops[c])
    ensures states[i + 1].k.clock == states[i].k.clock
  {
    hide SysInv, Apply, Enabled, Initial;
    StepIsEnabled(states, ops, i);
    RunsArePunctual(states, ops, i);
    StepKeepsTime(states[i], ops[i]);
  }

  // ---------------------------------------------------------------- what is reported

  /** What the request reports once its task runs again: the answer on the spot, or what has come
      of the wait node. */
  ghost predicate Succeeds(op: Op, a: Answer, node: WaitNode) {
    match op
    case Acquire(_, _) => a.Flag? && S.AcquireForResumes(a.ok, node)
    case Send(_, _, _) => a.Flag? && Q.SendForResumes(a.ok, node)
    case Receive(_, _) => a.Item? && Q.ReceiveForResumes(a.got, node).Some?
    case Wait(_, _, _, _, _) => a.Snapshot? && E.WaitForResumes(a.bits, node).Some?
    case _ => true
  }

  /** The request has been served: it was granted its permit, its value was taken, it was given
      one, or a `set` woke it. */
  ghost predicate Served(y: Sys, op: Op, n: NodeId) {
    match op
    case Acquire(i, _) => i in y.semaphores && n in y.semaphores[i].granted
    case Send(i, _, _) => i in y.queues && n in y.queues[i].passed
    case Receive(i, _) => i in y.queues && n in y.queues[i].served
    case Wait(_, _, _, _, _) => n in y.k.nodes ==> !y.k.nodes[n].timedOut
    case _ => true
  }

  /** A request answered on the spot has been served, and reports success whatever is in the wait
      node that it has not used. */
  lemma SpotIsReported(states: seq<Sys>, ops: seq<Op>, i: nat, unused: WaitNode)
    requires Run(states, ops) && i < |ops|
    requires ops[i].Acquire? || ops[i].Send? || ops[i].Receive? || ops[i].Wait?
    requires !Suspended(ops[i], AnswerAt(states, ops, i))
    ensures Succeeds(ops[i], AnswerAt(states, ops, i), unused) && Served(states[i + 1], ops[i], states[i].k.nextId)
  {
    assert |states| == |ops| + 1;
    hide Run, AnswerAt, Wakes, Suspends, E.Satisfied;
    PromisesAreKept(states, ops, i);
    if ops[i].Wait? { NumberIsNew(states, ops, i); }
  }

  lemma NumberIsNew(states: seq<Sys>, ops: seq<Op>, i: nat)
    requires Run(states, ops) && i < |states|
    ensures states[i].k.nextId !in states[i].k.nodes
  {
    RunsAreValid(states, ops, i);
  }

  /** A timed request that has waited reports success exactly if it was served; and at the latest
      once its ticks have passed one or the other is settled. */
  lemma TimedRequestIsReported(states: seq<Sys>, ops: seq<Op>, i: nat, j: nat)
    requires Run(states, ops) && i < j < |states| && Suspended(ops[i], AnswerAt(states, ops, i))
    requires forall c :: 0 <= c < j ==> ShortOp(ops[c])
    requires TimeoutGiven(ops[i]).Some? && !ops[i].SleepFor?
    requires states[j].k.clock >= states[i].k.clock + AtLatest(TimeoutGiven(ops[i]).value)
    ensures states[i].k.nextId in states[j].k.nodes && states[j].k.nodes[states[i].k.nextId].wakes == 1
    ensures Succeeds(ops[i], AnswerAt(states, ops, i), states[j].k.nodes[states[i].k.nextId]) <==>
            Served(states[j], ops[i], states[i].k.nextId)
  {
    assert |states| == |ops| + 1;
    hide Run, Kept, AnswerAt, SysInv, Apply;
    StepIsEnabled(states, ops, i);
    TimeoutInTime(states, ops, i, j);
    PrimitivesRemain(states, ops, i, j);
    var n := states[i].k.nextId;
    match ops[i]
    case Acquire(s, _) => Guarantees.PermitIsKept(states, ops, j, j, s, n);
    case Send(q, _, _) => Guarantees.TakenIsReported(states, ops, j, j, q, n);
    case Receive(q, _) => Guarantees.GivenIsReported(states, ops, j, q, n);
    case Wait(g, _, _, _, _) => Guarantees.SnapshotIsKept(states, ops, j, j, g, n);
  }

  lemma {:induction false} PrimitivesRemain(states: seq<Sys>, ops: seq<Op>, i: nat, j: nat)
    requires Run(states, ops) && i <= j < |states|
    ensures SamePrimitives(states[i], states[j])
  {
    hide SysInv, Apply, Enabled, Initial;
    if i < j {
      PrimitivesRemain(states, ops, i, j - 1);
      StepIsEnabled(states, ops, j - 1);
      PrimitivesStay(states[j - 1], ops[j - 1]);
    }
  }

  /** A task that sleeps for a number of ticks is woken exactly when they have passed. */
  lemma SleepIsExact(states: seq<Sys>, ops: seq<Op>, i: nat, j: nat)
    requires Run(states, ops) && i < j < |states| && ops[i].SleepFor? && ops[i].ticks > 0
    requires forall c :: 0 <= c < j ==> ShortOp(ops[c])
    ensures states[i].k.nextId in states[j].k.nodes
    ensures states[j].k.nodes[states[i].k.nextId].wakes == 1 <==>
            states[j].k.clock >= states[i].k.clock + ops[i].ticks
  {
    assert |states| == |ops| + 1;
    hide Run, AnswerAt, SysInv;
    PromisesAreKept(states, ops, i);
    TimeoutInTime(states, ops, i, j);
    WaitingOrWokenOnce(states, ops, j, states[i].k.nextId);
  }
}
