/** What the primitives guarantee in every state of every run. */
module Guarantees {
  import opened Sequences
  import opened Kernel
  import opened Requests
  import opened System
  import opened Runs
  import S = Semaphore
  import M = Mutex
  import Q = Queue
  import QP = QueueProofs
  import E = EventGroup

  /** Permits are conserved over whole runs, with timeouts: those there were and those released
      are those left and those granted; waiters mean none is left; and the requests that did
      not time out are granted in order of arrival. */
  lemma PermitsConserved(states: seq<Sys>, ops: seq<Op>, i: nat, s: nat)
    requires Run(states, ops) && i < |states| && s in states[i].semaphores
    ensures var y := states[i]; var sem := y.semaphores[s];
            && sem.initial + sem.released == sem.count + |sem.granted|
            && (sem.initial <= sem.max ==> sem.count <= sem.max)
            && (Listed(y.k, SemaphoreWaiters(s)) != [] ==> sem.count == 0)
            && Survivors(y.k.nodes, sem.arrivals) == sem.granted + Listed(y.k, SemaphoreWaiters(s))
  {
    RunsAreValid(states, ops, i);
    S.CountBounded(states[i].k, states[i].semaphores[s], SemaphoreWaiters(s));
  }

  /** At most one task holds a mutex, it is the owner, and it is not among those waiting. */
  lemma MutexExcludes(states: seq<Sys>, ops: seq<Op>, i: nat, m: nat, t: TaskId, u: TaskId)
    requires Run(states, ops) && i < |states| && m in states[i].mutexes
    requires M.Holds(states[i].mutexes[m], t) && M.Holds(states[i].mutexes[m], u)
    ensures t == u && states[i].mutexes[m].owner == Some(t)
    ensures var k := states[i].k;
            forall n :: n in Listed(k, MutexWaiters(m)) ==> n in k.nodes && k.nodes[n].task != t
  {
    RunsAreValid(states, ops, i);
    var k, mutex := states[i].k, states[i].mutexes[m];
    M.Exclusion(k, mutex, MutexWaiters(m), t);
    M.Exclusion(k, mutex, MutexWaiters(m), u);
    forall n | n in Listed(k, MutexWaiters(m)) ensures n in k.nodes && k.nodes[n].task != t {
      M.OwnerNotWaiting(k, mutex, MutexWaiters(m), n);
    }
  }

  /** The lock is granted in order of arrival: of the requests made, those granted come first and
      those waiting after them; the j-th grant went to the j-th holder, and all holders but the
      present owner have given the lock back, in the order in which they got it. */
  lemma MutexIsFair(states: seq<Sys>, ops: seq<Op>, i: nat, m: nat)
    requires Run(states, ops) && i < |states| && m in states[i].mutexes
    ensures var k, mutex := states[i].k, states[i].mutexes[m];
            && Survivors(k.nodes, mutex.arrivals) == mutex.granted + Listed(k, MutexWaiters(m))
            && |mutex.held| == |mutex.granted|
            && (forall j :: 0 <= j < |mutex.granted| && mutex.granted[j] in k.nodes ==>
                  k.nodes[mutex.granted[j]].task == mutex.held[j])
            && mutex.held == mutex.released + (if mutex.owner.Some? then [mutex.owner.value] else [])
  {
    RunsAreValid(states, ops, i);
  }

  /** The i-th surviving receive got the value of the i-th surviving send. */
  lemma QueueMatches(states: seq<Sys>, ops: seq<Op>, i: nat, q: nat, j: nat)
    requires Run(states, ops) && i < |states| && q in states[i].queues && j < |states[i].queues[q].given|
    ensures var k, queue := states[i].k, states[i].queues[q];
            var s := Survivors(k.nodes, queue.sends); var r := Survivors(k.nodes, queue.receives);
            && j < |s| && j < |r| && j < |queue.served| && queue.served[j] == r[j]
            && s[j] in queue.sent && queue.sent[s[j]] == queue.given[j]
  {
    RunsAreValid(states, ops, i);
    QP.MatchedInOrder(states[i].k, states[i].queues[q], Receivers(q), Senders(q), j);
  }

  /** Nobody waits at a queue that could serve it. */
  lemma QueueStrandsNobody(states: seq<Sys>, ops: seq<Op>, i: nat, q: nat)
    requires Run(states, ops) && i < |states| && q in states[i].queues
    ensures var k, queue := states[i].k, states[i].queues[q];
            && |queue.contents| <= queue.capacity
            && (Listed(k, Senders(q)) != [] ==> |queue.contents| == queue.capacity && Listed(k, Receivers(q)) == [])
            && (Listed(k, Receivers(q)) != [] ==> queue.contents == [] && Listed(k, Senders(q)) == [])
  {
    RunsAreValid(states, ops, i);
    QP.NobodyStranded(states[i].k, states[i].queues[q], Receivers(q), Senders(q));
  }

  /** No waiter of an event group has its condition, flag by flag, satisfied by the present bits. */
  lemma NoMetWaiter(states: seq<Sys>, ops: seq<Op>, i: nat, g: nat, n: NodeId)
    requires Run(states, ops) && i < |states| && g in states[i].groups && n in Listed(states[i].k, GroupWaiters(g))
    ensures n in states[i].k.nodes && states[i].k.nodes[n].payload.Condition?
    ensures var info := states[i].k.nodes[n].payload; !E.Satisfied(info.want, info.all, states[i].groups[g].bits)
  {
    hide E.Holds, E.Satisfied;
    RunsAreValid(states, ops, i);
    var l := Listed(states[i].k, GroupWaiters(g));
    var j :| 0 <= j < |l| && l[j] == n;
    assert E.Unmet(states[i].k, l[j], states[i].groups[g].bits);
    var info := states[i].k.nodes[n].payload;
    E.HoldsExactly(info.want, info.all, states[i].groups[g].bits);
  }

  /** No handed-over item is lost to a late deadline: a request woken by its event reports what
      it was given however many ticks pass before its task runs again. */
  lemma GivenIsKept(states: seq<Sys>, ops: seq<Op>, i: nat, j: nat, q: nat, n: NodeId)
    requires Run(states, ops) && i <= j < |states| && q in states[i].queues
    requires n in states[i].queues[q].served && n in states[i].k.nodes
    ensures n in states[j].k.nodes && !states[j].k.nodes[n].timedOut
    ensures forall x :: 0 <= x < |states[i].queues[q].served| && states[i].queues[q].served[x] == n ==>
      x < |states[i].queues[q].given|
      && Q.ReceiveForResumes(None, states[j].k.nodes[n]) == Some(states[i].queues[q].given[x])
  {
    RunsAreValid(states, ops, i);
    ServedAreWoken(states[i], q, n);
    OutcomesAreFinal(states, ops, i, j, n);
    QP.OutcomesAreTruthful(states[i].k, states[i].queues[q], Receivers(q), Senders(q), n);
  }

  lemma ServedAreWoken(y: Sys, q: nat, n: NodeId)
    requires SysInv(y) && q in y.queues && n in y.queues[q].served && n in y.k.nodes
    ensures y.k.nodes[n].wakes == 1 && y.k.nodes[n].home == Some(Receivers(q)) && !y.k.nodes[n].timedOut
  {
    var queue := y.queues[q];
    var x :| 0 <= x < |queue.served| && queue.served[x] == n;
    assert (queue.served + Listed(y.k, Receivers(q)))[x] == n;
    SurvivorsMembers(y.k.nodes, queue.receives);
    assert n in Survivors(y.k.nodes, queue.receives);
  }

  /** A timed receive that waited reports a value exactly if it was served. */
  lemma GivenIsReported(states: seq<Sys>, ops: seq<Op>, i: nat, q: nat, n: NodeId)
    requires Run(states, ops) && i < |states| && q in states[i].queues
    requires n in states[i].k.nodes && states[i].k.nodes[n].home == Some(Receivers(q))
    requires states[i].k.nodes[n].wakes == 1
    ensures Q.ReceiveForResumes(None, states[i].k.nodes[n]).Some? <==> n in states[i].queues[q].served
  {
    RunsAreValid(states, ops, i);
    QP.OutcomesAreTruthful(states[i].k, states[i].queues[q], Receivers(q), Senders(q), n);
  }

  /** So for a permit: a timed acquire woken by a release reports success, one woken by its
      deadline failure, and neither changes until its task runs. */
  lemma PermitIsKept(states: seq<Sys>, ops: seq<Op>, i: nat, j: nat, s: nat, n: NodeId)
    requires Run(states, ops) && i <= j < |states| && s in states[i].semaphores
    requires n in states[i].k.nodes && states[i].k.nodes[n].home == Some(SemaphoreWaiters(s))
    requires states[i].k.nodes[n].wakes == 1
    ensures n in states[j].k.nodes
    ensures S.AcquireForResumes(false, states[j].k.nodes[n]) <==> n in states[i].semaphores[s].granted
  {
    RunsAreValid(states, ops, i);
    OutcomesAreFinal(states, ops, i, j, n);
    S.AcquireForIsTruthful(states[i].k, states[i].semaphores[s], SemaphoreWaiters(s), n);
  }

  /** A timed send that waited reports success exactly if its value was taken, whenever its task
      runs. */
  lemma TakenIsReported(states: seq<Sys>, ops: seq<Op>, i: nat, j: nat, q: nat, n: NodeId)
    requires Run(states, ops) && i <= j < |states| && q in states[i].queues
    requires n in states[i].k.nodes && states[i].k.nodes[n].home == Some(Senders(q)) && states[i].k.nodes[n].wakes == 1
    ensures n in states[j].k.nodes
    ensures Q.SendForResumes(false, states[j].k.nodes[n]) <==> n in states[i].queues[q].passed
  {
    RunsAreValid(states, ops, i);
    OutcomesAreFinal(states, ops, i, j, n);
    QP.OutcomesAreTruthful(states[i].k, states[i].queues[q], Receivers(q), Senders(q), n);
  }

  /** A timed event wait reports the snapshot it was given, on which its condition holds, exactly
      if a `set` woke it, whenever its task runs and whatever the bits are by then. */
  lemma SnapshotIsKept(states: seq<Sys>, ops: seq<Op>, i: nat, j: nat, g: nat, n: NodeId)
    requires Run(states, ops) && i <= j < |states| && g in states[i].groups
    requires n in states[i].k.nodes && states[i].k.nodes[n].home == Some(GroupWaiters(g))
    requires states[i].k.nodes[n].wakes == 1
    ensures n in states[j].k.nodes
    ensures E.WaitForResumes(None, states[j].k.nodes[n]) == E.WaitForResumes(None, states[i].k.nodes[n])
    ensures var told := E.WaitForResumes(None, states[j].k.nodes[n]); var info := states[i].k.nodes[n].payload;
            && (told.Some? <==> !states[i].k.nodes[n].timedOut)
            && (told.Some? ==>
                  info.Condition? && told == Some(info.result) && E.Satisfied(info.want, info.all, told.value))
  {
    hide E.Satisfied;
    RunsAreValid(states, ops, i);
    OutcomesAreFinal(states, ops, i, j, n);
    E.WaitIsTruthful(states[i].k, states[i].groups[g], GroupWaiters(g), n);
  }
}
