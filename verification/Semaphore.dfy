/** Counting semaphore with direct handoff (include/rtos/semaphore.hpp). */
module Semaphore {
  import opened Sequences
  import opened Time
  import opened Kernel
  import opened KernelProofs
  import opened Requests
  import opened Evolution

  /** `count` and `max` are the code's fields; the rest is history: the initial count, the
      successful releases, and the requests in order of arrival and of being granted. */
  datatype Semaphore = Semaphore(
    count: nat,
    max: nat,
    initial: nat,
    released: nat,
    arrivals: seq<NodeId>,
    granted: seq<NodeId>)

  function Create(initial: nat, max: nat): Semaphore {
    Semaphore(initial, max, initial, 0, [], [])
  }

  /** Permits are conserved, waiters mean there is no permit, and service is in order of arrival. */
  ghost predicate SemaphoreInv(k: Kernel, s: Semaphore, l: ListId) {
    && Fair(k, l, s.arrivals, s.granted)
    && s.initial + s.released == s.count + |s.granted|
    && (s.count <= s.max || s.count <= s.initial)
    && (Listed(k, l) != [] ==> s.count == 0)
  }

  function Grant(s: Semaphore, id: NodeId): Semaphore {
    s.(count := if s.count > 0 then s.count - 1 else 0, arrivals := s.arrivals + [id], granted := s.granted + [id])
  }

  // ---------------------------------------------------------------- operations

  /** `acquire` and `try_acquire_for`; the flag tells whether it succeeded without blocking. */
  function Acquire(k: Kernel, s: Semaphore, l: ListId, timeout: Option<Tick>): (Kernel, Semaphore, bool)
    requires Inv(k) && InTask(k)
  {
    if s.count > 0 then (Stamp(k), Grant(s, k.nextId), true)
    else (Block(k, Some(l), NoPayload, timeout), s.(arrivals := s.arrivals + [k.nextId]), false)
  }

  function TryAcquire(k: Kernel, s: Semaphore): (Kernel, Semaphore, bool) {
    if s.count > 0 then (Stamp(k), Grant(s, k.nextId), true) else (k, s, false)
  }

  function Release(k: Kernel, s: Semaphore, l: ListId): (Kernel, Semaphore, bool)
    requires Inv(k)
  {
    if Listed(k, l) != [] then
      FirstWaits(k, l);
      var w := Listed(k, l)[0];
      (Wake(k, w, false), s.(released := s.released + 1, granted := s.granted + [w]), true)
    else if s.count < s.max then (k, s.(count := s.count + 1, released := s.released + 1), true)
    else (k, s, false)
  }

  /** What `try_acquire_for` reports once the task runs again. */
  function AcquireForResumes(got: bool, node: WaitNode): bool {
    got || !node.timedOut
  }

  // ---------------------------------------------------------------- the invariant is kept

  lemma CreateInv(k: Kernel, initial: nat, max: nat, l: ListId)
    requires Listed(k, l) == [] && forall n :: n in k.nodes ==> k.nodes[n].home != Some(l)
    ensures SemaphoreInv(k, Create(initial, max), l)
  {
  }

  lemma AcquireKeeps(k: Kernel, s: Semaphore, l: ListId, timeout: Option<Tick>)
    requires Inv(k) && InTask(k) && SemaphoreInv(k, s, l)
    ensures var (k', s', got) := Acquire(k, s, l, timeout);
            SemaphoreInv(k', s', l) && Evolves(k, k', {l}, k.current, Short(timeout))
  {
    if s.count > 0 {
      FairImmediate(k, l, s.arrivals, s.granted);
      EvolveStamp(k);
      EvolveWiden(k, Stamp(k), {}, None, true, {l}, k.current, Short(timeout));
    } else {
      FairBlock(k, l, NoPayload, timeout, s.arrivals, s.granted);
      EvolveBlock(k, l, NoPayload, timeout);
    }
  }

  lemma TryAcquireKeeps(k: Kernel, s: Semaphore, l: ListId)
    requires Inv(k) && SemaphoreInv(k, s, l)
    ensures var (k', s', got) := TryAcquire(k, s);
            SemaphoreInv(k', s', l) && Evolves(k, k', {l}, None, true)
  {
    if s.count > 0 {
      FairImmediate(k, l, s.arrivals, s.granted);
      EvolveStamp(k);
      EvolveWiden(k, Stamp(k), {}, None, true, {l}, None, true);
    } else {
      EvolveRefl(k);
      EvolveWiden(k, k, {}, None, true, {l}, None, true);
    }
  }

  lemma ReleaseKeeps(k: Kernel, s: Semaphore, l: ListId)
    requires Inv(k) && SemaphoreInv(k, s, l)
    ensures var (k', s', kept) := Release(k, s, l);
            SemaphoreInv(k', s', l) && Evolves(k, k', {l}, None, true)
  {
    if Listed(k, l) != [] {
      FirstWaits(k, l);
      FairHandoff(k, l, s.arrivals, s.granted);
      EvolveWake(k, Listed(k, l)[0], l);
    } else {
      EvolveRefl(k);
      EvolveWiden(k, k, {}, None, true, {l}, None, true);
    }
  }

  lemma OthersKeep(k: Kernel, k': Kernel, own: set<ListId>, s: Semaphore, l: ListId)
    requires SemaphoreInv(k, s, l) && Frame(k, k', own) && l !in own
    ensures SemaphoreInv(k', s, l)
  {
    FairFrame(k, k', own, l, s.arrivals, s.granted);
  }

  lemma TimeoutKeeps(k: Kernel, n: NodeId, s: Semaphore, l: ListId)
    requires Inv(k) && Waiting(k, n) && SemaphoreInv(k, s, l)
    ensures SemaphoreInv(Wake(k, n, true), s, l)
  {
    FairExpire(k, n, l, s.arrivals, s.granted);
    WakeEffect(k, n, true);
  }

  // ---------------------------------------------------------------- what it means

  /** The count stays within the maximum in every state reached from construction exactly if
      it starts there: the constructor does not check it. */
  lemma CountBounded(k: Kernel, s: Semaphore, l: ListId)
    requires SemaphoreInv(k, s, l)
    ensures s.initial <= s.max ==> s.count <= s.max
    ensures s.initial > s.max && s.granted == [] && s.released == 0 ==> s.count > s.max
  {
  }

  /** No theft: while a task waits, no non-blocking acquire succeeds and no arriving one
      overtakes; the next permit goes to the longest waiting task. */
  lemma NoTheft(k: Kernel, s: Semaphore, l: ListId, timeout: Option<Tick>)
    requires Inv(k) && SemaphoreInv(k, s, l) && Listed(k, l) != []
    ensures TryAcquire(k, s) == (k, s, false)
    ensures InTask(k) ==> !Acquire(k, s, l, timeout).2
    ensures var (k', s', kept) := Release(k, s, l); var w := Listed(k, l)[0];
            && kept && s'.count == 0 && s'.granted == s.granted + [w]
            && Waiting(k, w) && k'.tasks[k.nodes[w].task].state == Ready && Listed(k', l) == Listed(k, l)[1..]
  {
    FairHandoff(k, l, s.arrivals, s.granted);
    FirstWaits(k, l);
    WakeEffect(k, Listed(k, l)[0], false);
  }

  /** A timed acquire that waited reports success exactly if a permit was granted to it. */
  lemma AcquireForIsTruthful(k: Kernel, s: Semaphore, l: ListId, n: NodeId)
    requires Inv(k) && SemaphoreInv(k, s, l)
    requires n in k.nodes && k.nodes[n].home == Some(l) && k.nodes[n].wakes == 1
    ensures AcquireForResumes(false, k.nodes[n]) <==> n in s.granted
  {
    OutcomeIsTruthful(k, l, s.arrivals, s.granted, n);
  }

  /** What an acquire reports on the spot: success exactly if the caller got the permit just
      taken; otherwise it waits, and a refused `try_acquire` leaves no trace. */
  lemma AcquireReports(k: Kernel, s: Semaphore, l: ListId, timeout: Option<Tick>)
    requires Inv(k) && InTask(k) && SemaphoreInv(k, s, l)
    ensures var (k', s', got) := Acquire(k, s, l, timeout); var t := k.current.value;
            && (got <==> s.count > 0) && (got <==> k.nextId in s'.granted)
            && t in k'.tasks && (got <==> k'.tasks[t].state == Running)
            && (!got ==> Listed(k', l) == Listed(k, l) + [k.nextId] && k'.tasks[t].state == Blocked)
    ensures var (k', s', got) := TryAcquire(k, s);
            && (got <==> k.nextId in s'.granted) && (!got ==> k' == k && s' == s)
            && (got <==> s.count > 0)
  {
    SurvivorsMembers(k.nodes, s.arrivals);
    assert forall id :: id in s.granted ==> id in s.granted + Listed(k, l);
    if s.count == 0 { BlockEffect(k, Some(l), NoPayload, timeout); }
  }
}
