/** What every operation of a primitive promises about the kernel it runs on. */
module Evolution {
  import opened Sequences
  import opened Time
  import opened Kernel
  import opened KernelProofs
  import opened Timer
  import opened Requests

  ghost predicate Short(timeout: Option<Tick>) {
    timeout.Some? ==> timeout.value <= MAX_TIMEOUT
  }

  /** The kernel invariant is kept, only the lists in `own` are touched, only `self` may stop
      running, no task appears or disappears, and the timer stays true if no timeout is too long. */
  ghost predicate Evolves(k: Kernel, k': Kernel, own: set<ListId>, self: Option<TaskId>, short: bool) {
    && Inv(k')
    && Frame(k, k', own)
    && Sched(k, k', self)
    && k'.tasks.Keys == k.tasks.Keys
    && k'.clock == k.clock
    && (short && TimeInv(k) ==> TimeInv(k'))
  }

  lemma EvolveStamp(k: Kernel)
    requires Inv(k)
    ensures Evolves(k, Stamp(k), {}, None, true)
  {
    StampKeepsInv(k);
    if TimeInv(k) { SameDelayKeepsTime(k, Stamp(k)); }
  }

  lemma EvolveWake(k: Kernel, n: NodeId, l: ListId)
    requires Inv(k) && Waiting(k, n) && k.nodes[n].home == Some(l)
    ensures Evolves(k, Wake(k, n, false), {l}, None, true)
  {
    hide ListsInv, BlockedInv, NodesInv, Frame, Sched, TimeInv;
    WakeKeepsInv(k, n, false);
    WakeFrame(k, n);
    WakeSched(k, n, false);
    WakeEffect(k, n, false);
    if TimeInv(k) { WakeKeepsTime(k, n, false); }
  }

  lemma EvolveDeliver(k: Kernel, n: NodeId, payload: Payload, l: ListId)
    requires Inv(k) && Waiting(k, n) && k.nodes[n].home == Some(l)
    ensures Evolves(k, Deliver(k, n, payload), {l}, None, true)
    ensures Waiting(Deliver(k, n, payload), n)
  {
    DeliverKeepsInv(k, n, payload);
    DeliverFrame(k, n, payload, l);
    if TimeInv(k) { SameDelayKeepsTime(k, Deliver(k, n, payload)); }
  }

  lemma EvolveBlock(k: Kernel, l: ListId, payload: Payload, timeout: Option<Tick>)
    requires CanBlock(k, Some(l), timeout)
    ensures Evolves(k, Block(k, Some(l), payload, timeout), {l}, k.current, Short(timeout))
  {
    BlockKeepsInv(k, Some(l), payload, timeout);
    BlockFrame(k, Some(l), payload, timeout);
    BlockEffect(k, Some(l), payload, timeout);
    if TimeInv(k) && Short(timeout) { BlockKeepsTime(k, Some(l), payload, timeout); }
  }

  lemma EvolveRefl(k: Kernel)
    requires Inv(k)
    ensures Evolves(k, k, {}, None, true)
  {
  }

  lemma EvolveWiden(a: Kernel, b: Kernel, own: set<ListId>, self: Option<TaskId>, short: bool,
                    own': set<ListId>, self': Option<TaskId>, short': bool)
    requires Evolves(a, b, own, self, short) && own <= own' && (short' ==> short)
    requires self == None || self == self'
    ensures Evolves(a, b, own', self', short')
  {
    FrameWiden(a, b, own, own');
  }

  lemma EvolveTrans(a: Kernel, b: Kernel, c: Kernel, own: set<ListId>, self: Option<TaskId>, short: bool)
    requires Evolves(a, b, own, None, short) && Evolves(b, c, own, self, short)
    ensures Evolves(a, c, own, self, short)
  {
    FrameTrans(a, b, c, own);
    SchedTrans(a, b, c, self);
  }
}
