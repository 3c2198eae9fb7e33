/** Runs of the host port: what preemptive wake guarantees to every task on the stack. */
module PreemptRuns {
  import opened Sequences
  import opened Kernel
  import opened KernelProofs
  import opened ResumeStack
  import opened System
  import opened Preempt
  import Runs

  ghost predicate Start(h: Host) {
    && Runs.Initial(h.y)
    && h.stack == [] && h.held == [] && !h.active && h.depth == 0
  }

  ghost predicate Moves(h: Host, a: Act, h': Host) {
    HostInv(h) ==> |h.held| == |h.stack| && CanAct(h, a) && h' == Perform(h, a)
  }

  ghost predicate Path(states: seq<Host>, acts: seq<Act>) {
    && |states| == |acts| + 1
    && Start(states[0])
    && forall i :: 0 <= i < |acts| ==> Moves(states[i], acts[i], states[i + 1])
  }

  lemma StartControlled(h: Host)
    requires Start(h)
    ensures Controlled(h)
  {
  }

  lemma {:induction false} RunsAreControlled(states: seq<Host>, acts: seq<Act>, i: nat)
    requires Path(states, acts) && i < |states|
    ensures HostInv(states[i]) && |states[i].held| == |states[i].stack|
  {
    hide Controlled, SysInv;
    if i == 0 {
      Runs.InitialInv(states[0].y);
      StartControlled(states[0]);
    } else {
      RunsAreControlled(states, acts, i - 1);
      assert Moves(states[i - 1], acts[i - 1], states[i]);
      ActKeepsSys(states[i - 1], acts[i - 1]);
      ActKeeps(states[i - 1], acts[i - 1]);
    }
    HeldMatches(states[i]);
  }

  // ---------------------------------------------------------------- the guarantee

  lemma ReadyIsListed(k: Kernel, t: TaskId)
    requires ReadyInv(k) && t in k.tasks && k.tasks[t].state == Ready
    ensures k.tasks[t].prio < |k.ready| && t in k.ready[k.tasks[t].prio]
  {
  }

  lemma CalmGuards(h: Host, t: TaskId, i: nat)
    requires Inv(h.y.k) && Calm(h) && h.y.k.preemptive && !h.active && !h.y.k.pendingPreempt && i < |h.stack|
    requires t in h.y.k.tasks && h.y.k.tasks[t].state == Ready
    ensures h.stack[i].prio <= Top(h).prio <= h.y.k.tasks[t].prio
  {
    hide Inv;
    ReadyPart(h.y.k);
    ReadyIsListed(h.y.k, t);
  }

  lemma ReadyPart(k: Kernel)
    requires Inv(k)
    ensures ReadyInv(k)
  {
  }

  lemma TopRuns(h: Host)
    requires Controlled(h) && Executing(h) && h.stack != []
    ensures InTask(h.y.k) && h.y.k.current == Some(Top(h).task)
    ensures h.y.k.runningPrio == Top(h).prio == h.y.k.tasks[Top(h).task].prio
  {
    assert RunningAt(h.y.k, Top(h));
  }

  lemma NothingPends(h: Host)
    requires Controlled(h) && !h.active && h.depth == 0
    ensures !h.y.k.pendingPreempt
  {
  }

  /** The preemption guarantee, in every state of every run of the preemptive build: while a task executes outside
      critical sections and not on top of the handler, no ready task is more urgent than it,
      nor than any task that pumped `run_one` below it; and the registers are its own. */
  lemma PreemptionGuarantee(states: seq<Host>, acts: seq<Act>, n: nat, t: TaskId, i: nat)
    requires Path(states, acts) && n < |states|
    requires var h := states[n]; h.y.k.preemptive && !h.active && h.depth == 0 && Executing(h) && i < |h.stack|
    requires var k := states[n].y.k; t in k.tasks && k.tasks[t].state == Ready
    ensures var h := states[n]; var k := h.y.k;
            && k.tasks[t].prio >= h.stack[i].prio && k.tasks[t].prio >= Top(h).prio
            && InTask(k) && k.current == Some(Top(h).task)
            && k.runningPrio == Top(h).prio == k.tasks[Top(h).task].prio
  {
    hide RegistersInv, StackInv, DepthInv, Levelled, Calm, Inv;
    RunsAreControlled(states, acts, n);
    NothingPends(states[n]);
    CalmGuards(states[n], t, i);
    TopRuns(states[n]);
  }

  /** Inside critical sections, too, unless the handler is pended: it will then run at their end. */
  lemma GuardedOrPended(states: seq<Host>, acts: seq<Act>, n: nat, t: TaskId, i: nat)
    requires Path(states, acts) && n < |states| && states[n].y.k.preemptive
    requires !states[n].active && i < |states[n].stack|
    requires var k := states[n].y.k; t in k.tasks && k.tasks[t].state == Ready
    ensures states[n].y.k.pendingPreempt || states[n].y.k.tasks[t].prio >= states[n].stack[i].prio
  {
    hide RegistersInv, StackInv, DepthInv, Levelled, Calm, Inv;
    RunsAreControlled(states, acts, n);
    if !states[n].y.k.pendingPreempt { CalmGuards(states[n], t, i); }
  }

  /** When `run_one` is about to return to a task with nothing pending, the priority it restores
      is at least as urgent as the one that was running: no wake-up of the nested task can have
      passed between the two unnoticed. */
  lemma ReturnHidesNothing(states: seq<Host>, acts: seq<Act>, n: nat)
    requires Path(states, acts) && n < |acts| && acts[n] == Return && !states[n].active && |states[n].stack| > 1
    requires states[n].y.k.preemptive && (states[n].depth == 0 || !states[n].y.k.pendingPreempt)
    ensures var h := states[n];
            && Top(h).savedPrio <= h.y.k.runningPrio
            && Top(h).savedPrio == h.stack[|h.stack| - 2].prio
            && NoneAbove(states[n + 1].y.k, Top(h).savedPrio)
            && states[n + 1].y.k.runningPrio == Top(h).savedPrio && Executing(states[n + 1])
  {
    hide Inv, StackInv, Levelled;
    RunsAreControlled(states, acts, n);
    assert Moves(states[n], acts[n], states[n + 1]);
    if states[n].depth == 0 { NothingPends(states[n]); }
    assert SavedRight(states[n].stack, |states[n].stack| - 1);
    PoppedStack(states[n]);
  }

  /** A pended handler waits only inside a critical section or for the active handler. */
  lemma PendingIsMasked(states: seq<Host>, acts: seq<Act>, n: nat)
    requires Path(states, acts) && n < |states|
    ensures states[n].y.k.pendingPreempt ==> states[n].active || states[n].depth > 0
  {
    RunsAreControlled(states, acts, n);
  }

  // ---------------------------------------------------------------- the handler

  lemma ReadyRuns(k: Kernel, k': Kernel)
    requires k'.current.Some? && k'.current.value in k.tasks
    requires k'.tasks == k.tasks[k'.current.value := k.tasks[k'.current.value].(state := Running)]
    ensures InTask(k')
  {
  }

  /** The handler itself resumes only tasks strictly more urgent than the interrupted one,
      always the most urgent there is; it leaves when there is none, with the registers of the
      interrupted task restored, and at once runs again if it was pended meanwhile. */
  lemma HandlerRunsMoreUrgent(h: Host)
    requires HostInv(h) && |h.held| == |h.stack| && InHandler(h)
    ensures var h' := Perform(h, Scan); var interrupted := CallerPrio(h.stack, |h.stack|);
            if |h'.stack| > |h.stack| then
              && h'.active && h'.stack[..|h.stack|] == h.stack
              && Top(h').prio < interrupted && NoneAbove(h.y.k, Top(h').prio)
              && InTask(h'.y.k) && h'.y.k.current == Some(Top(h').task)
            else
              && h'.stack == h.stack && h'.y.k.ready == h.y.k.ready && NoneAbove(h.y.k, interrupted)
              && Named(h'.y.k, h'.stack)
              && h'.active == h.y.k.pendingPreempt && !h'.y.k.pendingPreempt
  {
    hide StackInv, DepthInv, Levelled, Calm, Chained, Dispatch, Inv, SysInv;
    HeadsKnownHere(h);
    var limit := Limit(h.y.k, h.entryPrio);
    if Urgent(h.y.k.ready, limit) < limit {
      DispatchFacts(h.y.k, limit);
      ReadyRuns(h.y.k, Dispatch(h.y.k, limit));
    }
  }

  /** The stack is the same but for marks on activations whose tasks have suspended. */
  ghost predicate SameStack(s: seq<Activation>, s': seq<Activation>) {
    |s'| == |s| && forall i :: 0 <= i < |s| ==> s'[i] == s[i].(suspended := s'[i].suspended)
  }

  lemma SameStackTrans(a: seq<Activation>, b: seq<Activation>, c: seq<Activation>)
    requires SameStack(a, b) && SameStack(b, c)
    ensures SameStack(a, c)
  {
  }

  /** Starting the handler: it saves the registers as they were before the step. */
  lemma HandlerStarts(h: Host, a: Act)
    requires HostInv(h) && |h.held| == |h.stack| && CanAct(h, a) && !h.active && Perform(h, a).active
    ensures var h' := Perform(h, a);
            && h'.mark == |h'.stack| && SameStack(h.stack, h'.stack)
            && h'.savedCurrent == h.y.k.current && h'.entryPrio == h.y.k.runningPrio
  {
    hide RegistersInv, StackInv, DepthInv, Levelled, Calm;
    if a.Code? {
      OpSched(h.y, a.op);
      SettledSame(Apply(h.y, a.op).k, h.stack);
    } else if a.Interrupt? {
      OpSched(h.y, a.op);
    } else if a.RunOne? {
      RunOneKeeps(h);
    }
  }

  /** The registers are those that the handler saved. */
  ghost predicate Restored(h: Host, saved: Host) {
    h.y.k.current == saved.savedCurrent && h.y.k.runningPrio == saved.entryPrio
  }

  /** While the handler is active, whatever runs on top of it, pumping included, leaves what is
      below it, and what it has saved, alone. */
  lemma HandlerProtects(h: Host, a: Act)
    requires HostInv(h) && |h.held| == |h.stack| && CanAct(h, a) && h.active && h.mark <= |h.stack|
    ensures var h' := Perform(h, a);
            && h.mark <= |h'.stack| && h'.stack[..h.mark] == h.stack[..h.mark] && h'.mark == h.mark
            && h'.savedCurrent == h.savedCurrent && h'.entryPrio == h.entryPrio
            && (!h'.active ==> |h'.stack| == h.mark && Restored(h', h))
  {
    hide RegistersInv, StackInv, DepthInv, Levelled, Calm, Inv, Dispatch, Apply;
    if a.Code? { SettledSame(Apply(h.y, a.op).k, h.stack); }
  }

  lemma {:induction false} ThroughHandler(states: seq<Host>, acts: seq<Act>, i: nat, j: nat)
    requires Path(states, acts) && i + 1 <= j < |states|
    requires !states[i].active && forall m :: i < m < j ==> states[m].active
    requires states[i + 1].active
    ensures var h, h' := states[i], states[j];
            && h'.mark == |h.stack| <= |h'.stack| && SameStack(h.stack, h'.stack[..|h.stack|])
            && h'.savedCurrent == h.y.k.current && h'.entryPrio == h.y.k.runningPrio
            && (!h'.active ==> |h'.stack| == |h.stack| && Restored(h', h'))
  {
    hide HostInv, Perform, CanAct;
    RunsAreControlled(states, acts, j - 1);
    assert Moves(states[j - 1], acts[j - 1], states[j]);
    if i + 1 == j {
      HandlerStarts(states[i], acts[i]);
      assert states[j].stack[..|states[i].stack|] == states[j].stack;
    } else {
      ThroughHandler(states, acts, i, j - 1);
      HandlerProtects(states[j - 1], acts[j - 1]);
      SameStackTrans(states[i].stack, states[j - 1].stack[..|states[i].stack|], states[j].stack[..|states[i].stack|]);
    }
  }

  /** From the step that starts the handler to the first state in which it is not active any
      more, whatever it ran in between: `current`, `running_prio` and the whole stack of
      resumed tasks are what they were. */
  lemma HandlerRestores(states: seq<Host>, acts: seq<Act>, i: nat, j: nat)
    requires Path(states, acts) && i + 1 < j < |states|
    requires !states[i].active && !states[j].active && forall m :: i < m < j ==> states[m].active
    ensures states[j].y.k.current == states[i].y.k.current
    ensures states[j].y.k.runningPrio == states[i].y.k.runningPrio
    ensures SameStack(states[i].stack, states[j].stack)
  {
    ThroughHandler(states, acts, i, j);
    assert states[j].stack[..|states[i].stack|] == states[j].stack;
  }

  // ---------------------------------------------------------------- who is selected

  /** `run_one` is called, or the handler finds a task to resume. */
  ghost predicate Selects(h: Host, a: Act) {
    a.RunOne? || (a.Scan? && Urgent(h.y.k.ready, Limit(h.y.k, h.entryPrio)) < Limit(h.y.k, h.entryPrio))
  }

  /** What is selected below any limit at which something is found. */
  lemma DispatchSelects(k: Kernel, limit: nat, t: TaskId, p: nat, i: nat)
    requires Inv(k) && At(k, t, p, i) && NoneAbove(k, p) && limit <= |k.ready|
    requires limit == |k.ready| || Urgent(k.ready, limit) < limit
    ensures HeadsKnown(k) && Urgent(k.ready, limit) == p < limit
    ensures var k' := Dispatch(k, limit);
            && (i > 0 ==> At(k', t, p, i - 1))
            && (i == 0 ==> k'.current == Some(t) && InTask(k') && k'.runningPrio == p)
  {
    assert Urgent(k.ready, limit) == p;
    DispatchFacts(k, limit);
    DispatchEffect(k, limit);
  }

  lemma SelectsWhom(h: Host, a: Act, t: TaskId, p: nat, i: nat)
    requires HostInv(h) && |h.held| == |h.stack| && CanAct(h, a) && Selects(h, a)
    requires At(h.y.k, t, p, i) && NoneAbove(h.y.k, p)
    ensures var k' := Perform(h, a).y.k;
            && (i > 0 ==> At(k', t, p, i - 1))
            && (i == 0 ==> k'.current == Some(t) && InTask(k') && k'.runningPrio == p)
  {
    hide Controlled, Dispatch, Unmask, At, NoneAbove, Enabled, SysInv;
    HeadsKnownHere(h);
    if a.RunOne? {
      DispatchSelects(h.y.k, |h.y.k.ready|, t, p, i);
      RunOneKeeps(h);
    } else {
      DispatchSelects(h.y.k, Limit(h.y.k, h.entryPrio), t, p, i);
    }
  }

  /** Nothing but a selection moves a ready task within its list, and that by one place. */
  lemma StepMovesForward(h: Host, a: Act, t: TaskId, p: nat, i: nat)
    requires HostInv(h) && |h.held| == |h.stack| && CanAct(h, a) && At(h.y.k, t, p, i)
    requires Selects(h, a) ==> NoneAbove(h.y.k, p) && i > 0
    ensures At(Perform(h, a).y.k, t, p, if Selects(h, a) then i - 1 else i)
  {
    hide Controlled, Apply, Enabled, SysInv, NoneAbove;
    if Selects(h, a) {
      hide At;
      SelectsWhom(h, a, t, p, i);
    } else if a.Code? || a.Interrupt? {
      OpSched(h.y, a.op);
    }
  }
}
