/** What each operation promises, as a relation between the states before and after it and the
    answer it gives on the spot. */
module Promises {
  import opened Sequences
  import opened Time
  import opened Bits
  import opened Kernel
  import opened KernelProofs
  import opened Requests
  import opened Effects
  import Waking
  import S = Semaphore
  import M = Mutex
  import Q = Queue
  import QP = QueueProofs
  import E = EventGroup

  // ---------------------------------------------------------------- semaphore

  /** With a permit there, an acquire takes one and passes; otherwise it waits, with its timeout
      armed if it has one. */
  ghost predicate Acquires(k: Kernel, s: S.Semaphore, l: ListId, timeout: Option<Tick>, k': Kernel, s': S.Semaphore,
                           got: bool) {
    && (got <==> s.count > 0)
    && s'.max == s.max && s'.initial == s.initial && s'.released == s.released
    && s'.arrivals == s.arrivals + [k.nextId] && k'.nextId == k.nextId + 1
    && (if got then Untouched(k, k') && s'.count + 1 == s.count && s'.granted == s.granted + [k.nextId]
        else Suspends(k, k', Some(l), timeout) && s'.count == 0 && s'.granted == s.granted)
  }

  lemma AcquirePromise(k: Kernel, s: S.Semaphore, l: ListId, timeout: Option<Tick>)
    requires Inv(k) && InTask(k)
    ensures var (k', s', got) := S.Acquire(k, s, l, timeout); Acquires(k, s, l, timeout, k', s', got)
  {
    hide Inv, Suspends, Untouched, Block;
    StampTouchesNothing(k);
    if s.count == 0 { BlockSuspendsNext(k, Some(l), NoPayload, timeout); }
  }

  lemma BlockSuspendsNext(k: Kernel, home: Option<ListId>, payload: Payload, timeout: Option<Tick>)
    requires CanBlock(k, home, timeout)
    ensures var k' := Block(k, home, payload, timeout);
            && Suspends(k, k', home, timeout) && k'.nextId == k.nextId + 1
            && k.nextId in k'.nodes && k'.nodes[k.nextId].payload == payload
  {
    BlockSuspends(k, home, payload, timeout);
  }

  /** `try_acquire` does the same with a permit there, and nothing without one. */
  lemma TryAcquirePromise(k: Kernel, s: S.Semaphore, l: ListId)
    ensures var (k', s', got) := S.TryAcquire(k, s);
            if s.count > 0 then got && Acquires(k, s, l, None, k', s', true) else !got && k' == k && s' == s
  {
    hide Suspends;
    StampTouchesNothing(k);
  }

  /** A release wakes the first waiter, the count staying; with nobody waiting it raises the count
      by one up to the maximum; at the maximum, and only then, it fails and changes nothing. */
  ghost predicate Releases(k: Kernel, s: S.Semaphore, l: ListId, k': Kernel, s': S.Semaphore, kept: bool) {
    && (kept <==> Listed(k, l) != [] || s.count < s.max)
    && s'.max == s.max && s'.initial == s.initial && s'.arrivals == s.arrivals
    && s'.released == s.released + (if kept then 1 else 0)
    && (if Listed(k, l) != [] then
          && Listed(k, l)[0] in k.nodes
          && Wakes(k, k', Listed(k, l)[0], k.nodes[Listed(k, l)[0]].payload)
          && s'.count == s.count && s'.granted == s.granted + [Listed(k, l)[0]]
        else
          && k' == k && s'.granted == s.granted
          && s'.count == s.count + (if kept then 1 else 0))
  }

  lemma ReleasePromise(k: Kernel, s: S.Semaphore, l: ListId)
    requires Inv(k)
    ensures var (k', s', kept) := S.Release(k, s, l); Releases(k, s, l, k', s', kept)
  {
    hide Inv, Wakes;
    if Listed(k, l) != [] { FirstWakes(k, l); }
  }

  lemma FirstWakes(k: Kernel, l: ListId)
    requires Inv(k) && Listed(k, l) != []
    ensures var w := Listed(k, l)[0];
            Waiting(k, w) && w in k.nodes && Wakes(k, Wake(k, w, false), w, k.nodes[w].payload)
  {
    hide Wakes;
    FirstWaits(k, l);
    WakeWakes(k, Listed(k, l)[0]);
  }

  /** So a permit released with nobody waiting is there for the next acquire. */
  lemma ReleasedIsAcquired(k: Kernel, s: S.Semaphore, l: ListId, k2: Kernel)
    requires Inv(k) && Listed(k, l) == [] && s.count < s.max
    ensures var (k', s', kept) := S.Release(k, s, l);
            kept && S.TryAcquire(k2, s').2 && S.TryAcquire(k2, s').1.count == s.count
  {
    ReleasePromise(k, s, l);
    TryAcquirePromise(k2, S.Release(k, s, l).1, l);
  }

  // ---------------------------------------------------------------- mutex

  /** A free lock is taken by the caller; otherwise `lock` waits, without a timeout. */
  ghost predicate Locks(k: Kernel, m: M.Mutex, l: ListId, k': Kernel, m': M.Mutex, got: bool) {
    && k.current.Some? && (got <==> m.owner == None)
    && m'.released == m.released && k'.nextId == k.nextId + 1 && m'.arrivals == m.arrivals + [k.nextId]
    && (if got then
          && Untouched(k, k') && m'.owner == k.current
          && m'.granted == m.granted + [k.nextId] && m'.held == m.held + [k.current.value]
        else
          && Suspends(k, k', Some(l), None) && m'.owner == m.owner
          && m'.granted == m.granted && m'.held == m.held)
  }

  lemma LockPromise(k: Kernel, m: M.Mutex, l: ListId)
    requires Inv(k) && InTask(k) && m.owner != k.current
    ensures var (k', m', got) := M.Lock(k, m, l); Locks(k, m, l, k', m', got)
  {
    hide Inv, Suspends, Untouched, Block;
    StampTouchesNothing(k);
    if m.owner.Some? { BlockSuspendsNext(k, Some(l), NoPayload, None); }
  }

  /** `try_lock` does the same with a free lock, and nothing with one that is taken. */
  lemma TryLockPromise(k: Kernel, m: M.Mutex, l: ListId)
    requires InTask(k)
    ensures var (k', m', got) := M.TryLock(k, m);
            if m.owner == None then got && Locks(k, m, l, k', m', true) else !got && k' == k && m' == m
  {
    hide Suspends;
    StampTouchesNothing(k);
  }

  /** `unlock` always gives the lock back: the first waiter, which is woken, has it now, or with
      nobody waiting it is free. */
  ghost predicate Unlocks(k: Kernel, m: M.Mutex, l: ListId, k': Kernel, m': M.Mutex) {
    && k.current.Some? && m'.released == m.released + [k.current.value] && m'.arrivals == m.arrivals
    && (if Listed(k, l) != [] then
          var w := Listed(k, l)[0];
          && w in k.nodes && Wakes(k, k', w, k.nodes[w].payload)
          && m'.owner == Some(k.nodes[w].task)
          && m'.granted == m.granted + [w] && m'.held == m.held + [k.nodes[w].task]
        else
          k' == k && m'.owner == None && m'.granted == m.granted && m'.held == m.held)
  }

  lemma UnlockPromise(k: Kernel, m: M.Mutex, l: ListId)
    requires Inv(k) && k.current.Some? && m.owner == k.current
    ensures var (k', m') := M.Unlock(k, m, l); Unlocks(k, m, l, k', m')
  {
    hide Inv, Wakes;
    if Listed(k, l) != [] { FirstWakes(k, l); }
  }

  /** The caller of `unlock` does not hold the lock any more. */
  lemma UnlockGivesBack(k: Kernel, m: M.Mutex, l: ListId)
    requires Inv(k) && k.current.Some? && m.owner == k.current && M.MutexInv(k, m, l)
    ensures !M.Holds(M.Unlock(k, m, l).1, k.current.value)
  {
    hide Wakes;
    UnlockPromise(k, m, l);
    M.UnlockKeeps(k, m, l);
    if Listed(k, l) != [] { M.HandoffLeavesNoGap(k, m, l); }
    M.Exclusion(M.Unlock(k, m, l).0, M.Unlock(k, m, l).1, l, k.current.value);
  }

  /** Given back with nobody waiting, the lock goes to whichever task asks next. */
  lemma UnlockedIsLocked(k: Kernel, m: M.Mutex, l: ListId, k2: Kernel)
    requires Inv(k) && k.current.Some? && m.owner == k.current && Listed(k, l) == []
    requires Inv(k2) && InTask(k2)
    ensures var m' := M.Unlock(k, m, l).1;
            && M.TryLock(k2, m').2 && M.TryLock(k2, m').1.owner == k2.current
            && m'.owner != k2.current && M.Lock(k2, m', l).2 && M.Lock(k2, m', l).1.owner == k2.current
  {
    hide Inv, Wakes, Suspends;
    UnlockPromise(k, m, l);
    var m' := M.Unlock(k, m, l).1;
    TryLockPromise(k2, m', l);
    LockPromise(k2, m', l);
  }

  // ---------------------------------------------------------------- queue

  /** The value goes to the first waiting receiver, which is woken with it in its slot; with none
      it goes to the end of the buffer if there is room; otherwise nothing happens. */
  ghost predicate Delivers(k: Kernel, q: Q.Queue, lr: ListId, v: Value, k': Kernel, q': Q.Queue, done: bool) {
    && (done <==> Listed(k, lr) != [] || |q.contents| < q.capacity)
    && (if !done then k' == k && q' == q
        else
          && k'.nextId == k.nextId + 1 && q'.capacity == q.capacity && q'.receives == q.receives
          && q'.sends == q.sends + [k.nextId] && q'.sent == q.sent[k.nextId := v]
          && q'.passed == q.passed + [k.nextId]
          && (if Listed(k, lr) != [] then
                && Wakes(k, k', Listed(k, lr)[0], Slot(Some(v))) && q'.contents == q.contents
                && q'.served == q.served + [Listed(k, lr)[0]] && q'.given == q.given + [v]
              else
                && Untouched(k, k') && q'.contents == q.contents + [v]
                && q'.served == q.served && q'.given == q.given))
  }

  lemma TrySendPromise(k: Kernel, q: Q.Queue, lr: ListId, v: Value)
    requires Inv(k)
    ensures var (k', q', done) := Q.TrySend(k, q, lr, v); Delivers(k, q, lr, v, k', q', done)
  {
    hide Inv, Wakes, Wake;
    StampTouchesNothing(k);
    if Listed(k, lr) != [] { HandoverWakes(k, lr, v); }
  }

  lemma HandoverWakes(k: Kernel, lr: ListId, v: Value)
    requires Inv(k) && Listed(k, lr) != []
    ensures var w := Listed(k, lr)[0];
            && Waiting(k, w) && w in k.nodes
            && Inv(Deliver(k, w, Slot(Some(v)))) && Waiting(Deliver(k, w, Slot(Some(v))), w)
            && var k' := Stamp(Wake(Deliver(k, w, Slot(Some(v))), w, false));
               Wakes(k, k', w, Slot(Some(v))) && k'.nextId == k.nextId + 1
  {
    hide Wakes;
    var w := Listed(k, lr)[0];
    FirstWaits(k, lr);
    DeliverWakes(k, w, Slot(Some(v)));
    ThenStamped(k, Wake(Deliver(k, w, Slot(Some(v))), w, false), w, Slot(Some(v)));
    WakeEffect(Deliver(k, w, Slot(Some(v))), w, false);
  }

  /** A send that cannot deliver waits with its value on offer, its timeout armed if it has one. */
  ghost predicate Sends(k: Kernel, q: Q.Queue, lr: ListId, ls: ListId, v: Value, timeout: Option<Tick>, k': Kernel,
                        q': Q.Queue, done: bool) {
    if Listed(k, lr) != [] || |q.contents| < q.capacity then done && Delivers(k, q, lr, v, k', q', true)
    else
      && !done && Suspends(k, k', Some(ls), timeout) && k'.nextId == k.nextId + 1
      && k.nextId in k'.nodes && k'.nodes[k.nextId].payload == Offer(v)
      && q' == q.(sends := q'.sends, sent := q'.sent)
      && q'.sends == q.sends + [k.nextId] && q'.sent == q.sent[k.nextId := v]
  }

  lemma SendPromise(k: Kernel, q: Q.Queue, lr: ListId, ls: ListId, v: Value, timeout: Option<Tick>)
    requires Inv(k) && InTask(k)
    ensures var (k', q', done) := Q.Send(k, q, lr, ls, v, timeout); Sends(k, q, lr, ls, v, timeout, k', q', done)
  {
    hide Inv, Wakes, Suspends, Q.DeliverOrPush, Block;
    TrySendPromise(k, q, lr, v);
    if !Q.TrySend(k, q, lr, v).2 { BlockSuspendsNext(k, Some(ls), Offer(v), timeout); }
  }

  /** The oldest value is taken out; the first waiting sender's value, if there is one, goes to
      the end of the buffer in its place, and that sender is woken. */
  ghost predicate Takes(k: Kernel, q: Q.Queue, ls: ListId, k': Kernel, q': Q.Queue, v: Value) {
    && q.contents != [] && v == q.contents[0]
    && k'.nextId == k.nextId + 1 && q'.capacity == q.capacity && q'.sends == q.sends && q'.sent == q.sent
    && q'.receives == q.receives + [k.nextId]
    && q'.served == q.served + [k.nextId] && q'.given == q.given + [q.contents[0]]
    && (if Listed(k, ls) != [] then
          var w := Listed(k, ls)[0];
          && w in k.nodes && w in q.sent && Wakes(k, k', w, k.nodes[w].payload)
          && q'.contents == q.contents[1..] + [q.sent[w]] && q'.passed == q.passed + [w]
        else
          Untouched(k, k') && q'.contents == q.contents[1..] && q'.passed == q.passed)
  }

  lemma PopPromise(k: Kernel, q: Q.Queue, lr: ListId, ls: ListId)
    requires Inv(k) && Q.QueueInv(k, q, lr, ls) && q.contents != []
    ensures var (k', q', v) := Q.Pop(k, q, ls); Takes(k, q, ls, k', q', v)
  {
    hide Inv, Wakes, Wake, Q.Matched, Fair, Q.Numbered;
    StampTouchesNothing(k);
    if Listed(k, ls) != [] {
      QP.HeadOffers(k, q, ls, q.contents[0]);
      FirstWakesStamped(k, ls);
    }
  }

  lemma FirstWakesStamped(k: Kernel, l: ListId)
    requires Inv(k) && Listed(k, l) != []
    ensures var w := Listed(k, l)[0];
            && Waiting(k, w) && w in k.nodes
            && var k' := Stamp(Wake(k, w, false));
               Wakes(k, k', w, k.nodes[w].payload) && k'.nextId == k.nextId + 1
  {
    hide Wakes;
    FirstWakes(k, l);
    var w := Listed(k, l)[0];
    ThenStamped(k, Wake(k, w, false), w, k.nodes[w].payload);
    WakeEffect(k, w, false);
  }

  /** A receive from a buffer that is not empty yields its oldest value; a `try_receive` from an
      empty one yields nothing and leaves no trace. */
  lemma TryReceivePromise(k: Kernel, q: Q.Queue, lr: ListId, ls: ListId)
    requires Inv(k) && Q.QueueInv(k, q, lr, ls)
    ensures var (k', q', got) := Q.TryReceive(k, q, ls);
            if q.contents != [] then got.Some? && Takes(k, q, ls, k', q', got.value)
            else got == None && k' == k && q' == q
  {
    hide Inv, Wakes, Q.QueueInv, Q.Pop, Takes;
    if q.contents != [] { PopPromise(k, q, lr, ls); }
  }

  ghost predicate Receives(k: Kernel, q: Q.Queue, lr: ListId, ls: ListId, timeout: Option<Tick>, k': Kernel,
                           q': Q.Queue, got: Option<Value>) {
    if q.contents != [] then got.Some? && Takes(k, q, ls, k', q', got.value)
    else
      && got == None && Suspends(k, k', Some(lr), timeout) && k'.nextId == k.nextId + 1
      && k.nextId in k'.nodes && k'.nodes[k.nextId].payload == Slot(None)
      && q' == q.(receives := q'.receives) && q'.receives == q.receives + [k.nextId]
  }

  lemma ReceivePromise(k: Kernel, q: Q.Queue, lr: ListId, ls: ListId, timeout: Option<Tick>)
    requires Inv(k) && InTask(k) && Q.QueueInv(k, q, lr, ls)
    ensures var (k', q', got) := Q.Receive(k, q, lr, ls, timeout); Receives(k, q, lr, ls, timeout, k', q', got)
  {
    hide Inv, Wakes, Suspends, Q.QueueInv, Q.Pop, Takes, Block;
    if q.contents != [] {
      PopPromise(k, q, lr, ls);
    } else {
      BlockSuspendsNext(k, Some(lr), Slot(None), timeout);
    }
  }

  // ---------------------------------------------------------------- event group

  /** A wait passes at once, with the bits there are, exactly if its condition is satisfied flag by
      flag, and clear-on-exit then takes the wanted flags away; otherwise it waits, what it asked
      for on record, and its timeout armed if it has one. */
  ghost predicate Waits(k: Kernel, g: E.Group, l: ListId, want: bv32, all: bool, clear: bool, timeout: Option<Tick>,
                        k': Kernel, g': E.Group, got: Option<bv32>) {
    && k'.nextId == k.nextId + 1
    && (got.Some? <==> E.Satisfied(want, all, g.bits))
    && (if got.Some? then
          && got.value == g.bits && Untouched(k, k')
          && (forall i {:trigger Bit(g'.bits, i)} :: 0 <= i < 32 ==>
                (Bit(g'.bits, i) <==> Bit(g.bits, i) && !(clear && Bit(want, i))))
        else
          && g' == g && Suspends(k, k', Some(l), timeout)
          && k.nextId in k'.nodes && E.Asks(k'.nodes[k.nextId].payload, want, all, clear))
  }

  lemma WaitPromise(k: Kernel, g: E.Group, l: ListId, want: bv32, all: bool, clear: bool, timeout: Option<Tick>)
    requires Inv(k) && InTask(k)
    ensures var (k', g', got) := E.Wait(k, g, l, want, all, clear, timeout);
            Waits(k, g, l, want, all, clear, timeout, k', g', got)
  {
    hide Inv, E.Satisfied, Suspends, Untouched, Bit, E.Wait, E.Asks;
    E.WaitReports(k, g, l, want, all, clear, timeout, 0);
    WaitTakesNumber(k, g, l, want, all, clear, timeout);
    var g' := E.Wait(k, g, l, want, all, clear, timeout).1;
    forall i {:trigger Bit(g'.bits, i)} | 0 <= i < 32
      ensures E.Wait(k, g, l, want, all, clear, timeout).2.Some? ==>
                (Bit(g'.bits, i) <==> Bit(g.bits, i) && !(clear && Bit(want, i)))
    {
      E.WaitReports(k, g, l, want, all, clear, timeout, i);
    }
  }

  lemma WaitTakesNumber(k: Kernel, g: E.Group, l: ListId, want: bv32, all: bool, clear: bool, timeout: Option<Tick>)
    requires Inv(k) && InTask(k)
    ensures var k' := E.Wait(k, g, l, want, all, clear, timeout).0;
            k'.nextId == k.nextId + 1 && (E.Wait(k, g, l, want, all, clear, timeout).2 == None ==> k.nextId in k'.nodes)
  {
  }

  /** `set` wakes exactly the waiters whose condition is satisfied by the raised bits, and gives
      them those; the others stay, in order; a flag is set afterwards exactly if it was, or has
      been raised, and no waiter woken asked for its clearing. */
  ghost predicate Sets(k: Kernel, g: E.Group, l: ListId, bits: bv32, k': Kernel, g': E.Group) {
    && k'.nextId == k.nextId && SameRegisters(k, k')
    && Tells(k, l, g.bits | bits, k') && Leaves(k, g, l, bits, g')
  }

  ghost predicate Tells(k: Kernel, l: ListId, b: bv32, k': Kernel) {
    && k'.nodes.Keys == k.nodes.Keys
    && (forall n :: n in Listed(k', l) <==> n in Listed(k, l) && !E.Wanted(k, n, b))
    && (forall n {:trigger n in k'.nodes} :: n in k.nodes ==>
          n in k'.nodes && E.Told(k, k', n, n in Listed(k, l), b))
  }

  ghost predicate Leaves(k: Kernel, g: E.Group, l: ListId, bits: bv32, g': E.Group) {
    forall i {:trigger Bit(g'.bits, i)} :: 0 <= i < 32 ==>
      (Bit(g'.bits, i) <==> (Bit(g.bits, i) || Bit(bits, i)) && !E.Claimed(k, Listed(k, l), g.bits | bits, i))
  }

  lemma {:induction false} VisitAllRegisters(k: Kernel, ns: seq<NodeId>, bits: bv32)
    requires Inv(k) && Waking.AllWaiting(k, ns)
    ensures var k' := E.VisitAll(k, ns, bits); SameRegisters(k, k') && k'.nextId == k.nextId
    decreases |ns|
  {
    hide Inv, Waking.AllWaiting, E.Visit;
    if ns != [] {
      E.VisitRest(k, ns, bits);
      VisitRegisters(k, ns[0], bits);
      VisitAllRegisters(E.Visit(k, ns[0], bits), ns[1..], bits);
    }
  }

  lemma VisitRegisters(k: Kernel, n: NodeId, bits: bv32)
    requires Inv(k) && Waiting(k, n)
    ensures var k' := E.Visit(k, n, bits); SameRegisters(k, k') && k'.nextId == k.nextId
  {
    hide E.Met;
    if E.Fires(k, n, bits) {
      var info := k.nodes[n].payload.(result := bits);
      DeliverWakes(k, n, info);
      WakeEffect(Deliver(k, n, info), n, false);
    }
  }

  lemma SetRegisters(k: Kernel, g: E.Group, l: ListId, bits: bv32)
    requires Inv(k)
    ensures var k' := E.Set(k, g, l, bits).0; SameRegisters(k, k') && k'.nextId == k.nextId
  {
    hide Inv, E.Set, Waking.AllWaiting, SameRegisters;
    E.SetVisits(k, g, l, bits);
    VisitAllRegisters(k, Listed(k, l), g.bits | bits);
  }

  lemma SetTells(k: Kernel, g: E.Group, l: ListId, bits: bv32)
    requires Inv(k)
    ensures Tells(k, l, g.bits | bits, E.Set(k, g, l, bits).0)
  {
    hide Inv, E.Set, E.Told, E.Wanted;
    E.SetIsExact(k, g, l, bits);
  }

  lemma SetLeaves(k: Kernel, g: E.Group, l: ListId, bits: bv32)
    requires Inv(k)
    ensures Leaves(k, g, l, bits, E.Set(k, g, l, bits).1)
  {
    hide Inv, E.Set, E.Claimed, Bit;
    var g' := E.Set(k, g, l, bits).1;
    forall i {:trigger Bit(g'.bits, i)} | 0 <= i < 32
      ensures Bit(g'.bits, i) <==> (Bit(g.bits, i) || Bit(bits, i)) && !E.Claimed(k, Listed(k, l), g.bits | bits, i)
    {
      E.SetLeavesFlags(k, g, l, bits, i);
    }
  }

  lemma SetPromise(k: Kernel, g: E.Group, l: ListId, bits: bv32)
    requires Inv(k)
    ensures var (k', g') := E.Set(k, g, l, bits); Sets(k, g, l, bits, k', g')
  {
    hide Inv, E.Set, Tells, Leaves, SameRegisters;
    SetTells(k, g, l, bits);
    SetLeaves(k, g, l, bits);
    SetRegisters(k, g, l, bits);
  }

  /** The given flags are gone, and no others. */
  ghost predicate Cuts(g: E.Group, bits: bv32, g': E.Group) {
    forall i {:trigger Bit(g'.bits, i)} :: 0 <= i < 32 ==> (Bit(g'.bits, i) <==> Bit(g.bits, i) && !Bit(bits, i))
  }

  lemma ClearPromise(g: E.Group, bits: bv32)
    ensures E.Clear(g, bits).1 == g.bits && Cuts(g, bits, E.Clear(g, bits).0)
  {
    hide Bit, E.Clear;
    var g' := E.Clear(g, bits).0;
    E.ClearIsExact(g, bits, 0);
    forall i {:trigger Bit(g'.bits, i)} | 0 <= i < 32
      ensures Bit(g'.bits, i) <==> Bit(g.bits, i) && !Bit(bits, i)
    {
      E.ClearIsExact(g, bits, i);
    }
  }

  /** `sync` sets its bits, then passes with all bits raised so far exactly if these contain every
      wanted flag, taking the wanted ones away, and waits for all of them otherwise. */
  ghost predicate Syncs(k: Kernel, g: E.Group, l: ListId, bits: bv32, want: bv32, k': Kernel, g': E.Group,
                        got: Option<bv32>) {
    exists k1, g1 :: Sets(k, g, l, bits, k1, g1) && Meets(k1, g1, l, g.bits | bits, want, k', g', got)
  }

  ghost predicate Meets(k: Kernel, g: E.Group, l: ListId, candidate: bv32, want: bv32, k': Kernel, g': E.Group,
                        got: Option<bv32>) {
    && k'.nextId == k.nextId + 1
    && (got.Some? <==> Covers(candidate, want))
    && (if got.Some? then got.value == candidate && Untouched(k, k') && Cuts(g, want, g')
        else
          && g' == g && Suspends(k, k', Some(l), None)
          && k.nextId in k'.nodes && E.Asks(k'.nodes[k.nextId].payload, want, true, true))
  }

  lemma MeetPromise(k: Kernel, g: E.Group, l: ListId, candidate: bv32, want: bv32)
    requires Inv(k) && InTask(k)
    ensures var (k', g', got) := E.Meet(k, g, l, candidate, want); Meets(k, g, l, candidate, want, k', g', got)
  {
    hide Inv, E.Holds, Covers, Shares, Suspends, Untouched, Bit, Block, Cuts, E.Cleared;
    E.HoldsExactly(want, true, candidate);
    StampTouchesNothing(k);
    ClearPromise(g, want);
    if !E.Holds(want, true, candidate) {
      BlockSuspendsNext(k, Some(l), Condition(want, true, true, 0), None);
    }
  }

  lemma SyncPromise(k: Kernel, g: E.Group, l: ListId, bits: bv32, want: bv32)
    requires Inv(k) && InTask(k)
    ensures var (k', g', got) := E.Sync(k, g, l, bits, want); Syncs(k, g, l, bits, want, k', g', got)
  {
    hide Inv, InTask, E.Set, E.Meet, E.Sync, Sets, Meets;
    var (k1, g1) := E.Set(k, g, l, bits);
    SetPromise(k, g, l, bits);
    SyncMeets(k, g, l, bits, want);
    MeetPromise(k1, g1, l, g.bits | bits, want);
    assert Sets(k, g, l, bits, k1, g1);
  }

  lemma SyncMeets(k: Kernel, g: E.Group, l: ListId, bits: bv32, want: bv32)
    requires Inv(k) && InTask(k)
    ensures var (k1, g1) := E.Set(k, g, l, bits);
            Inv(k1) && InTask(k1) && E.Sync(k, g, l, bits, want) == E.Meet(k1, g1, l, g.bits | bits, want)
  {
    hide Inv, InTask, E.Set, E.Meet;
    E.SetKeepsInv(k, g, l, bits);
  }

  // ---------------------------------------------------------------- kernel

  /** `sleep_for` waits for its ticks on no list; with none it does not wait. */
  lemma SleepPromise(k: Kernel, ticks: Tick)
    requires Inv(k) && InTask(k)
    ensures if ticks == 0 then Sleep(k, ticks) == k else Suspends(k, Sleep(k, ticks), None, Some(ticks))
  {
    hide Inv, Suspends, Block;
    if ticks != 0 { BlockSuspends(k, None, NoPayload, Some(ticks)); }
  }

  /** A new task is Ready at the end of the list of its priority, which is the lowest one there is
      if the given one does not exist. */
  ghost predicate Starts(k: Kernel, priority: nat, k': Kernel) {
    var t := k.nextId;
    && t !in k.tasks && t in k'.tasks && k'.nextId == t + 1
    && (if priority < |k.ready| then k'.tasks[t].prio == priority else k'.tasks[t].prio + 1 == |k.ready|)
    && Readies(k.(tasks := k.tasks[t := k'.tasks[t].(state := Created)]), k', t)
    && k'.nodes == k.nodes && k'.waits == k.waits && k'.delay == k.delay && SameRegisters(k, k')
  }

  lemma StartPromise(k: Kernel, priority: nat)
    requires Inv(k)
    ensures Starts(k, priority, Start(k, priority))
  {
    hide ListsInv, BlockedInv, NodesInv;
    StartEffect(k, priority);
  }

  /** A yielding task goes to the end of the list of its priority, and nothing else moves. */
  ghost predicate Yields(k: Kernel, k': Kernel) {
    && k.current.Some? && k.current.value in k.tasks && Readies(k, k', k.current.value)
    && k'.nextId == k.nextId && k'.nodes == k.nodes && k'.waits == k.waits && k'.delay == k.delay
    && SameRegisters(k, k')
  }

  lemma YieldPromise(k: Kernel)
    requires Inv(k) && InTask(k)
    ensures Yields(k, Yield(k))
  {
    hide ListsInv, BlockedInv, NodesInv;
    YieldEffect(k);
  }

  /** The head of the most urgent list that is not empty, if it is below the limit, is Running and
      current from now on. */
  ghost predicate Dispatches(k: Kernel, limit: nat, k': Kernel) {
    if forall q :: 0 <= q < limit && q < |k.ready| ==> k.ready[q] == [] then k' == k
    else exists p :: 0 <= p < limit && p < |k.ready| && DispatchesAt(k, p, k')
  }

  ghost predicate DispatchesAt(k: Kernel, p: nat, k': Kernel)
    requires p < |k.ready|
  {
    && k.ready[p] != [] && (forall q :: 0 <= q < p ==> k.ready[q] == [])
    && var t := k.ready[p][0];
       && t in k.tasks && k.tasks[t].prio == p
       && k' == k.(tasks := k.tasks[t := k.tasks[t].(state := Running)], ready := k.ready[p := k.ready[p][1..]],
                   current := Some(t), runningPrio := p)
  }

  lemma DispatchPromise(k: Kernel, limit: nat)
    requires Inv(k) && limit <= |k.ready|
    ensures forall p :: 0 <= p < |k.ready| && k.ready[p] != [] ==> k.ready[p][0] in k.tasks
    ensures Dispatches(k, limit, Dispatch(k, limit))
  {
    hide ListsInv, BlockedInv, NodesInv;
    HeadsAreTasks(k);
    var p := Urgent(k.ready, limit);
    if p < limit {
      DispatchEffect(k, limit);
      assert DispatchesAt(k, p, Dispatch(k, limit));
    }
  }
}
