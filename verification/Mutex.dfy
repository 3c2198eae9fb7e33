/** Mutex with ownership handoff (include/rtos/mutex.hpp). */
module Mutex {
  import opened Sequences
  import opened Kernel
  import opened KernelProofs
  import opened Requests
  import opened Evolution

  /** `owner` is the code's field. History: the lock requests, those granted, and the tasks
      in the order in which they came to hold and gave back the lock. */
  datatype Mutex = Mutex(
    owner: Option<TaskId>,
    arrivals: seq<NodeId>,
    granted: seq<NodeId>,
    held: seq<TaskId>,
    released: seq<TaskId>)

  function Create(): Mutex {
    Mutex(None, [], [], [], [])
  }

  /** The tasks that have been given the lock and have not given it back. */
  ghost predicate Holds(m: Mutex, t: TaskId) {
    exists i :: |m.released| <= i < |m.held| && m.held[i] == t
  }

  /** Grants and releases alternate: a new grant is made only once every earlier one has been
      released by the very task that held it, and `owner` is the one holder, if any. */
  ghost predicate Ledger(k: Kernel, m: Mutex) {
    && |m.held| == |m.granted|
    && (forall i :: 0 <= i < |m.granted| ==>
          m.granted[i] < k.nextId && (m.granted[i] in k.nodes ==> k.nodes[m.granted[i]].task == m.held[i]))
    && (m.owner == None ==> m.released == m.held)
    && (m.owner.Some? ==> m.held == m.released + [m.owner.value] && m.owner.value in k.tasks)
  }

  /** Without an owner nobody waits, and the owner is not among the waiting. */
  ghost predicate OwnerApart(k: Kernel, m: Mutex, waiting: seq<NodeId>) {
    && (m.owner == None ==> waiting == [])
    && (forall i :: 0 <= i < |waiting| ==> WaitsOf(k, waiting[i]) != m.owner)
  }

  ghost predicate MutexInv(k: Kernel, m: Mutex, l: ListId) {
    Fair(k, l, m.arrivals, m.granted) && Ledger(k, m) && OwnerApart(k, m, Listed(k, l))
  }

  ghost function WaitsOf(k: Kernel, n: NodeId): Option<TaskId> {
    if n in k.nodes then Some(k.nodes[n].task) else None
  }

  function Grant(m: Mutex, id: NodeId, t: TaskId): Mutex {
    m.(owner := Some(t), arrivals := m.arrivals + [id], granted := m.granted + [id], held := m.held + [t])
  }

  // ---------------------------------------------------------------- operations

  /** `lock`; the flag tells whether it succeeded without blocking. */
  function Lock(k: Kernel, m: Mutex, l: ListId): (Kernel, Mutex, bool)
    requires Inv(k) && InTask(k) && m.owner != k.current
  {
    if m.owner == None then (Stamp(k), Grant(m, k.nextId, k.current.value), true)
    else (Block(k, Some(l), NoPayload, None), m.(arrivals := m.arrivals + [k.nextId]), false)
  }

  function TryLock(k: Kernel, m: Mutex): (Kernel, Mutex, bool)
    requires k.current.Some?
  {
    if m.owner.Some? then (k, m, false) else (Stamp(k), Grant(m, k.nextId, k.current.value), true)
  }

  function Unlock(k: Kernel, m: Mutex, l: ListId): (Kernel, Mutex)
    requires Inv(k) && k.current.Some? && m.owner == k.current
  {
    var m1 := m.(released := m.released + [k.current.value]);
    if Listed(k, l) != [] then
      FirstWaits(k, l);
      var w := Listed(k, l)[0];
      var t := k.nodes[w].task;
      (Wake(k, w, false), m1.(owner := Some(t), granted := m.granted + [w], held := m.held + [t]))
    else (k, m1.(owner := None))
  }

  // ---------------------------------------------------------------- the invariant is kept

  lemma LockKeeps(k: Kernel, m: Mutex, l: ListId)
    requires Inv(k) && InTask(k) && m.owner != k.current && MutexInv(k, m, l)
    ensures var (k', m', got) := Lock(k, m, l);
            MutexInv(k', m', l) && Evolves(k, k', {l}, k.current, true)
  {
    if m.owner == None {
      GrantKeeps(k, m, l);
      EvolveWiden(k, Stamp(k), {l}, None, true, {l}, k.current, true);
    } else {
      FairBlock(k, l, NoPayload, None, m.arrivals, m.granted);
      EvolveBlock(k, l, NoPayload, None);
      LedgerFrame(k, Block(k, Some(l), NoPayload, None), {l}, m);
      LockerApart(k, m, l);
    }
  }

  lemma LedgerFrame(k: Kernel, k': Kernel, own: set<ListId>, m: Mutex)
    requires Ledger(k, m) && Frame(k, k', own)
    requires m.owner.Some? ==> m.owner.value in k'.tasks
    ensures Ledger(k', m)
  {
  }

  lemma LockerApart(k: Kernel, m: Mutex, l: ListId)
    requires Inv(k) && InTask(k) && m.owner.Some? && m.owner != k.current && OwnerApart(k, m, Listed(k, l))
    ensures var k' := Block(k, Some(l), NoPayload, None); OwnerApart(k', m, Listed(k', l))
  {
    BlockEffect(k, Some(l), NoPayload, None);
    ListedWait(k, l);
    forall i | 0 <= i < |Listed(k, l)| ensures WaitsOf(Block(k, Some(l), NoPayload, None), Listed(k, l)[i]) != m.owner {
      assert Listed(k, l)[i] in Listed(k, l) && WaitsOf(k, Listed(k, l)[i]) != m.owner;
    }
  }

  lemma GrantKeeps(k: Kernel, m: Mutex, l: ListId)
    requires Inv(k) && InTask(k) && m.owner == None && MutexInv(k, m, l)
    ensures MutexInv(Stamp(k), Grant(m, k.nextId, k.current.value), l)
    ensures Evolves(k, Stamp(k), {l}, None, true)
  {
    FairImmediate(k, l, m.arrivals, m.granted);
    EvolveStamp(k);
    EvolveWiden(k, Stamp(k), {}, None, true, {l}, None, true);
  }

  lemma TryLockKeeps(k: Kernel, m: Mutex, l: ListId)
    requires Inv(k) && InTask(k) && MutexInv(k, m, l)
    ensures var (k', m', got) := TryLock(k, m);
            MutexInv(k', m', l) && Evolves(k, k', {l}, None, true)
  {
    if m.owner == None {
      GrantKeeps(k, m, l);
    } else {
      EvolveRefl(k);
      EvolveWiden(k, k, {}, None, true, {l}, None, true);
    }
  }

  lemma UnlockKeeps(k: Kernel, m: Mutex, l: ListId)
    requires Inv(k) && k.current.Some? && m.owner == k.current && MutexInv(k, m, l)
    ensures var (k', m') := Unlock(k, m, l);
            MutexInv(k', m', l) && Evolves(k, k', {l}, None, true)
  {
    if Listed(k, l) != [] {
      FirstWaits(k, l);
      FairHandoff(k, l, m.arrivals, m.granted);
      EvolveWake(k, Listed(k, l)[0], l);
      HeirApart(k, m, l);
      HeirLedger(k, m, l);
    } else {
      EvolveRefl(k);
      EvolveWiden(k, k, {}, None, true, {l}, None, true);
    }
  }

  lemma HeirLedger(k: Kernel, m: Mutex, l: ListId)
    requires Inv(k) && k.current.Some? && m.owner == k.current && Ledger(k, m) && Listed(k, l) != []
    ensures var (k', m') := Unlock(k, m, l); Ledger(k', m')
  {
    hide ListsInv, BlockedInv;
    FirstWaits(k, l);
    var w := Listed(k, l)[0];
    WakeEffect(k, w, false);
    assert w in k.nodes;
  }

  /** The other waiters are other tasks: a Blocked task waits at one node only. */
  lemma HeirApart(k: Kernel, m: Mutex, l: ListId)
    requires Inv(k) && k.current.Some? && m.owner == k.current && Listed(k, l) != []
    ensures var (k', m') := Unlock(k, m, l); OwnerApart(k', m', Listed(k', l))
  {
    FirstWaits(k, l);
    ListedWait(k, l);
    var w := Listed(k, l)[0];
    var (k', m') := Unlock(k, m, l);
    WakeEffect(k, w, false);
    assert Listed(k', l) == Listed(k, l)[1..];
    forall i | 0 < i < |Listed(k, l)| ensures WaitsOf(k', Listed(k, l)[i]) != m'.owner {
      assert Listed(k, l)[i] in Listed(k, l);
    }
  }

  lemma OthersKeep(k: Kernel, k': Kernel, own: set<ListId>, m: Mutex, l: ListId)
    requires Inv(k) && MutexInv(k, m, l) && Frame(k, k', own) && l !in own
    requires m.owner.Some? ==> m.owner.value in k'.tasks
    ensures MutexInv(k', m, l)
  {
    FairFrame(k, k', own, l, m.arrivals, m.granted);
    LedgerFrame(k, k', own, m);
    ListedWait(k, l);
    forall i | 0 <= i < |Listed(k', l)| ensures WaitsOf(k', Listed(k', l)[i]) != m.owner {
      assert Listed(k, l)[i] in Listed(k, l) && Listed(k, l)[i] in k.nodes;
    }
  }

  lemma TimeoutKeeps(k: Kernel, n: NodeId, m: Mutex, l: ListId)
    requires Inv(k) && Waiting(k, n) && MutexInv(k, m, l)
    ensures MutexInv(Wake(k, n, true), m, l)
  {
    var k' := Wake(k, n, true);
    FairExpire(k, n, l, m.arrivals, m.granted);
    WakeEffect(k, n, true);
    assert Listed(k', l) == Remove(Listed(k, l), n);
    forall i | 0 <= i < |Listed(k', l)| ensures WaitsOf(k', Listed(k', l)[i]) != m.owner {
      assert Listed(k', l)[i] in Listed(k, l);
    }
  }

  // ---------------------------------------------------------------- what it means

  /** Mutual exclusion: whoever holds the lock, even before it has been resumed, is `owner`. */
  lemma Exclusion(k: Kernel, m: Mutex, l: ListId, t: TaskId)
    requires MutexInv(k, m, l)
    ensures Holds(m, t) <==> m.owner == Some(t)
  {
    if m.owner == Some(t) {
      assert m.held[|m.released|] == t;
    }
  }

  /** Waiters imply an owner, who is not among them. */
  lemma OwnerNotWaiting(k: Kernel, m: Mutex, l: ListId, n: NodeId)
    requires Inv(k) && MutexInv(k, m, l) && n in Listed(k, l)
    ensures m.owner.Some? && n in k.nodes && k.nodes[n].task != m.owner.value
  {
    ListedWait(k, l);
    var i :| 0 <= i < |Listed(k, l)| && Listed(k, l)[i] == n;
    assert WaitsOf(k, Listed(k, l)[i]) != m.owner;
  }

  /** While a task waits, `try_lock` fails and an arriving `lock` queues up behind it. */
  lemma NoBarging(k: Kernel, m: Mutex, l: ListId)
    requires Inv(k) && MutexInv(k, m, l) && Listed(k, l) != []
    ensures k.current.Some? ==> TryLock(k, m) == (k, m, false)
    ensures InTask(k) && m.owner != k.current ==>
      !Lock(k, m, l).2 && Listed(Lock(k, m, l).0, l) == Listed(k, l) + [k.nextId]
  {
    if InTask(k) && m.owner != k.current {
      BlockEffect(k, Some(l), NoPayload, None);
    }
  }

  /** Unlocking with waiters leaves no interval without an owner: the lock belongs to the
      longest waiting task at once. */
  lemma HandoffLeavesNoGap(k: Kernel, m: Mutex, l: ListId)
    requires Inv(k) && k.current.Some? && m.owner == k.current && MutexInv(k, m, l) && Listed(k, l) != []
    ensures var (k', m') := Unlock(k, m, l); var w := Listed(k, l)[0];
            && Waiting(k, w) && m'.owner == Some(k.nodes[w].task) && m'.owner != k.current
            && k'.tasks[m'.owner.value].state == Ready
            && TryLock(k', m') == (k', m', false)
            && Listed(k', l) == Listed(k, l)[1..]
  {
    FirstWaits(k, l);
    FairHandoff(k, l, m.arrivals, m.granted);
    WakeEffect(k, Listed(k, l)[0], false);
    assert WaitsOf(k, Listed(k, l)[0]) != m.owner;
  }
}
