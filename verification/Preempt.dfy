/** The host port (include/rtos/port/host.hpp) with nested critical sections. In the preemptive
    build a task readied above the running one pends the handler, which runs when the outermost
    critical section ends. Any code, in the main loop, in a task or on top of the handler, may
    pump `run_one`. */
module Preempt {
  import opened Sequences
  import opened Kernel
  import opened KernelProofs
  import opened ResumeStack
  import opened System

  /** `stack` holds everything resumed and not yet returned from, `held[i]` the critical
      sections that were open when activation `i` was called. While `active`, the handler runs
      on top of the first `mark` activations, `entryPrio` and `savedCurrent` are its locals,
      and activation `mark`, if there, is the task it has resumed itself. `depth` counts the
      open critical sections. */
  datatype Host = Host(
    y: Sys,
    stack: seq<Activation>,
    held: seq<nat>,
    active: bool,
    mark: nat,
    entryPrio: nat,
    savedCurrent: Option<TaskId>,
    depth: nat)

  datatype Act =
    | Code(op: Op)
    | Interrupt(op: Op)
    | Disable
    | Enable
    | RunOne
    | Return
    | Scan
    | HandlerResumes

  function Top(h: Host): Activation
    requires h.stack != []
  {
    h.stack[|h.stack| - 1]
  }

  /** The handler itself runs, between two tasks. */
  predicate InHandler(h: Host) {
    h.active && |h.stack| == h.mark
  }

  /** The main loop or a task runs. */
  predicate Executing(h: Host) {
    !InHandler(h) && TopExecutes(h.stack)
  }

  /** The critical sections that are not the running code's own. */
  function Inherited(h: Host): nat {
    if |h.held| == 0 then 0 else h.held[|h.held| - 1]
  }

  /** Code leaves only critical sections it has entered, and suspends outside its own. */
  ghost predicate CanAct(h: Host, a: Act) {
    match a
    case Code(op) => Executing(h) && !IsControl(op) && Enabled(h.y, op) && (Blocking(op) ==> h.depth == Inherited(h))
    case Interrupt(op) => h.depth == 0 && !IsControl(op) && !TaskOnly(op) && Enabled(h.y, op)
    case Disable => Executing(h)
    case Enable => Executing(h) && h.depth > Inherited(h)
    case RunOne => Executing(h)
    case Return => h.stack != [] && Top(h).suspended && (h.active ==> |h.stack| > h.mark + 1)
    case Scan => InHandler(h)
    case HandlerResumes => h.active && |h.stack| == h.mark + 1 && Top(h).suspended
  }

  /** Leaving the outermost critical section: a pending handler starts unless it is active. */
  function Unmask(h: Host): Host {
    if h.depth == 0 && h.y.k.pendingPreempt && !h.active
    then h.(y := h.y.(k := h.y.k.(pendingPreempt := false)), active := true, mark := |h.stack|,
            entryPrio := h.y.k.runningPrio, savedCurrent := h.y.k.current)
    else h
  }

  function Limit(k: Kernel, entryPrio: nat): nat {
    if entryPrio < |k.ready| then entryPrio else |k.ready|
  }

  ghost predicate HeadsKnown(k: Kernel) {
    forall p :: 0 <= p < |k.ready| && k.ready[p] != [] ==> k.ready[p][0] in k.tasks
  }

  function Popped(h: Host): Host
    requires h.stack != [] && h.held != []
  {
    h.(stack := h.stack[..|h.stack| - 1], held := h.held[..|h.held| - 1])
  }

  /** The task at the head of list `p` is resumed. */
  function Pushed(h: Host, k': Kernel, t: TaskId, p: nat): Host {
    h.(y := h.y.(k := k'),
       stack := h.stack + [Activation(t, p, false, h.y.k.current, h.y.k.runningPrio)],
       held := h.held + [h.depth])
  }

  /** The critical section of `run_one`. */
  function Resume(h: Host): Host
    requires HeadsKnown(h.y.k)
  {
    var k := h.y.k;
    var p := Urgent(k.ready, |k.ready|);
    if p == |k.ready| then h else Pushed(h, Dispatch(k, |k.ready|), k.ready[p][0], p)
  }

  /** One turn of the handler's loop: resume the most urgent task above the interrupted one,
      or restore the registers and leave, unless the handler was pended again meanwhile. */
  function ScanReady(h: Host): Host
    requires HeadsKnown(h.y.k)
  {
    var k := h.y.k;
    var limit := Limit(k, h.entryPrio);
    var p := Urgent(k.ready, limit);
    if p < limit then Pushed(h, Dispatch(k, limit), k.ready[p][0], p)
    else
      h.(y := h.y.(k := k.(current := h.savedCurrent, runningPrio := h.entryPrio, pendingPreempt := false)),
         active := k.pendingPreempt)
  }

  /** The end of `run_one`: the registers are restored. */
  function Leave(h: Host): Host
    requires h.stack != [] && h.held != []
  {
    Popped(h).(y := h.y.(k := h.y.k.(current := Top(h).savedCurrent, runningPrio := Top(h).savedPrio)))
  }

  ghost function Perform(h: Host, a: Act): Host
    requires SysInv(h.y) && |h.held| == |h.stack| && CanAct(h, a)
  {
    match a
    case Code(op) => var y' := Apply(h.y, op); Unmask(h.(y := y', stack := Settle(y'.k, h.stack)))
    case Interrupt(op) => Unmask(h.(y := Apply(h.y, op)))
    case Disable => h.(depth := h.depth + 1)
    case Enable => Unmask(h.(depth := h.depth - 1))
    case RunOne => HeadsAreTasks(h.y.k); Unmask(Resume(h))
    case Return => Leave(h)
    case Scan => HeadsAreTasks(h.y.k); ScanReady(h)
    case HandlerResumes => Popped(h)
  }

  // ---------------------------------------------------------------- invariant

  /** The activation that the handler resumed saved nothing that is restored. */
  function Broken(h: Host): Option<nat> {
    if h.active then Some(h.mark) else None
  }

  /** Saved registers and locals name what they were saved for. */
  ghost predicate RegistersInv(h: Host) {
    && Chained(h.stack, Broken(h))
    && (InHandler(h) || Named(h.y.k, h.stack))
    && (h.active ==>
          && h.mark <= |h.stack|
          && h.savedCurrent == CallerTask(h.stack, h.mark) && h.entryPrio == CallerPrio(h.stack, h.mark)
          && (h.mark < |h.stack| ==> h.stack[h.mark].prio < h.entryPrio))
  }

  /** Only the innermost task, and the one the handler interrupted, can have suspended. */
  ghost predicate StackInv(h: Host) {
    && LiveStack(h.y.k, h.stack)
    && (forall i :: 0 <= i < |h.stack| - 1 && h.stack[i].suspended ==> h.active && i + 1 == h.mark)
    && (forall i :: 0 <= i < |h.stack| ==> h.stack[i].prio < |h.y.k.ready|)
  }

  /** Critical sections nest with activations; the handler starts outside all of them. */
  ghost predicate DepthInv(h: Host) {
    && |h.held| == |h.stack|
    && (forall i, j :: 0 <= i < j < |h.held| ==> h.held[i] <= h.held[j])
    && (forall i :: 0 <= i < |h.held| ==> h.held[i] <= h.depth)
    && (h.active ==> forall i :: 0 <= i <= h.mark && i < |h.held| ==> h.held[i] == 0)
    && (InHandler(h) ==> h.depth == 0)
    && (!InHandler(h) && !TopExecutes(h.stack) ==> h.depth == Inherited(h))
    && (h.y.k.pendingPreempt ==> h.active || h.depth > 0)
  }

  function BaseSize(h: Host): nat {
    if h.active then h.mark else |h.stack|
  }

  /** Without preemptive wake there is no handler. */
  ghost predicate Quiet(h: Host) {
    !h.y.k.preemptive ==> !h.active && !h.y.k.pendingPreempt
  }

  /** Below the handler, in the preemptive build, `run_one` called outside critical sections resumes nothing more urgent
      than its caller. */
  ghost predicate Levelled(h: Host) {
    h.y.k.preemptive ==>
      forall i, j :: 0 <= i < j < BaseSize(h) && j < |h.stack| && j < |h.held| && h.held[j] == 0 ==>
        h.stack[i].prio <= h.stack[j].prio
  }

  /** In the preemptive build, without a pend and outside the handler, nothing ready is more urgent than any task on
      the stack. */
  ghost predicate Calm(h: Host) {
    h.y.k.preemptive && !h.active && !h.y.k.pendingPreempt && h.stack != [] ==>
      && NoneAbove(h.y.k, Top(h).prio)
      && (forall i, j :: 0 <= i < j < |h.stack| ==> h.stack[i].prio <= h.stack[j].prio)
  }

  ghost predicate Controlled(h: Host) {
    && Quiet(h) && 0 < |h.y.k.ready| <= NO_RUNNING_TASK
    && RegistersInv(h) && StackInv(h) && DepthInv(h) && Levelled(h) && Calm(h)
  }

  ghost predicate HostInv(h: Host) {
    SysInv(h.y) && Controlled(h)
  }

  // ---------------------------------------------------------------- leaving a critical section

  /** All that a state must satisfy before the pend is looked at. */
  ghost predicate BeforeUnmask(h: Host) {
    && Quiet(h) && 0 < |h.y.k.ready| <= NO_RUNNING_TASK
    && RegistersInv(h) && StackInv(h) && Levelled(h) && Calm(h)
    && DepthInv(h.(y := h.y.(k := h.y.k.(pendingPreempt := false))))
  }

  lemma SameTasksLive(k: Kernel, k': Kernel, s: seq<Activation>)
    requires LiveStack(k, s) && k'.tasks == k.tasks && k'.nextId == k.nextId
    ensures LiveStack(k', s)
  {
    forall i | 0 <= i < |s| && !s[i].suspended ensures RunningAt(k', s[i]) {
      assert RunningAt(k, s[i]);
    }
    forall t | t in k'.tasks && k'.tasks[t].state == Running ensures OnStack(s, t) {
      assert t in k.tasks;
    }
  }

  lemma UnmaskControls(h: Host)
    requires BeforeUnmask(h)
    ensures Controlled(Unmask(h))
  {
    hide LiveStack, NoneAbove, Chained;
    if Unmask(h) != h {
      SameTasksLive(h.y.k, Unmask(h).y.k, h.stack);
      StillChained(h.stack, |h.stack|);
    }
  }

  lemma StillChained(s: seq<Activation>, broken: nat)
    requires Chained(s, None)
    ensures Chained(s, Some(broken))
  {
  }

  // ---------------------------------------------------------------- code and interrupts

  /** Registers and ready lists after a critical section of the running code or an interrupt. */
  lemma CalmStays(h: Host, h': Host, k': Kernel, self: Option<TaskId>)
    requires Calm(h) && (h.stack != [] && !h.active ==> Named(h.y.k, h.stack))
    requires (forall i :: 0 <= i < |h.stack| ==> h.stack[i].prio < |h.y.k.ready| <= NO_RUNNING_TASK)
    requires Sched(h.y.k, k', self) && h'.y.k == k' && h'.active == h.active && |h'.stack| == |h.stack|
    requires forall i :: 0 <= i < |h.stack| ==> h'.stack[i].prio == h.stack[i].prio
    ensures Calm(h')
  {
    if k'.preemptive && !h.active && !k'.pendingPreempt && h.stack != [] {
      forall q | 0 <= q < Top(h').prio && q < |k'.ready| ensures k'.ready[q] == [] {
        assert h.y.k.ready[q] == [];
      }
    }
  }

  lemma CodeStack(h: Host, k': Kernel)
    requires StackInv(h) && Executing(h) && Named(h.y.k, h.stack)
    requires Sched(h.y.k, k', h.y.k.current) && h.y.k.nextId <= k'.nextId
    ensures StackInv(h.(y := h.y.(k := k'), stack := Settle(k', h.stack)))
  {
    hide LiveStack;
    SettledLive(h.y.k, k', h.stack);
    SettledSame(k', h.stack);
  }

  lemma CodeRegisters(h: Host, k': Kernel)
    requires RegistersInv(h) && Executing(h) && k'.current == h.y.k.current && k'.runningPrio == h.y.k.runningPrio
    ensures RegistersInv(h.(y := h.y.(k := k'), stack := Settle(k', h.stack)))
  {
    SettledSame(k', h.stack);
    SettledChained(k', h.stack, Broken(h));
    hide Chained;
    assert h.active ==> CallerTask(Settle(k', h.stack), h.mark) == CallerTask(h.stack, h.mark);
  }

  lemma KeepsRunning(k: Kernel, k': Kernel, s: seq<Activation>)
    requires LiveStack(k, s) && TopExecutes(s) && Sched(k, k', None)
    ensures Settle(k', s) == s
  {
    if s != [] { assert RunningAt(k, s[|s| - 1]); }
  }

  lemma CodeLevels(h: Host, k': Kernel)
    requires Levelled(h) && k'.preemptive == h.y.k.preemptive
    ensures Levelled(h.(y := h.y.(k := k'), stack := Settle(k', h.stack)))
  {
    SettledSame(k', h.stack);
  }

  ghost function Masked(k: Kernel): Kernel {
    k.(pendingPreempt := false)
  }

  lemma CodeKeepsHost(h: Host, y': Sys, blocking: bool)
    requires Controlled(h) && Executing(h) && (blocking ==> h.depth == Inherited(h))
    requires Sched(h.y.k, y'.k, h.y.k.current) && h.y.k.nextId <= y'.k.nextId
    requires !blocking ==> Sched(h.y.k, y'.k, None)
    ensures Controlled(Unmask(h.(y := y', stack := Settle(y'.k, h.stack))))
  {
    var k' := y'.k;
    var h' := h.(y := y', stack := Settle(k', h.stack));
    CodeParts(h, k', blocking);
    SameParts(h.(y := h.y.(k := k'), stack := Settle(k', h.stack)), h');
    UnmaskControls(h');
  }

  lemma SameParts(h: Host, h': Host)
    requires BeforeUnmask(h) && h' == h.(y := h'.y) && h'.y.k == h.y.k
    ensures BeforeUnmask(h')
  {
    hide LiveStack, NoneAbove, Chained;
  }

  lemma CodeParts(h: Host, k': Kernel, blocking: bool)
    requires Controlled(h) && Executing(h) && (blocking ==> h.depth == Inherited(h))
    requires Sched(h.y.k, k', h.y.k.current) && h.y.k.nextId <= k'.nextId
    requires !blocking ==> Sched(h.y.k, k', None)
    ensures BeforeUnmask(h.(y := h.y.(k := k'), stack := Settle(k', h.stack)))
  {
    hide LiveStack, RegistersInv, StackInv, DepthInv, Levelled, Calm;
    ExecutingIsNamed(h);
    CodeStack(h, k');
    CodeRegisters(h, k');
    MaskedDepth(h, k', blocking);
    CodeLevels(h, k');
    SettledSame(k', h.stack);
    StackPrios(h);
    CalmStays(h, h.(y := h.y.(k := k'), stack := Settle(k', h.stack)), k', h.y.k.current);
  }

  lemma ExecutingIsNamed(h: Host)
    requires RegistersInv(h) && !InHandler(h)
    ensures Named(h.y.k, h.stack)
  {
  }

  lemma StackPrios(h: Host)
    requires StackInv(h)
    ensures forall i :: 0 <= i < |h.stack| ==> h.stack[i].prio < |h.y.k.ready|
  {
  }

  lemma MaskedDepth(h: Host, k': Kernel, blocking: bool)
    requires DepthInv(h) && StackInv(h) && Executing(h) && (blocking ==> h.depth == Inherited(h))
    requires !blocking ==> Sched(h.y.k, k', None)
    ensures DepthInv(h.(y := h.y.(k := Masked(k')), stack := Settle(k', h.stack)))
  {
    hide Sched, LiveStack;
    SettledSame(k', h.stack);
    if !blocking { RunningStays(h, k'); }
  }

  lemma RunningStays(h: Host, k': Kernel)
    requires StackInv(h) && TopExecutes(h.stack) && Sched(h.y.k, k', None)
    ensures Settle(k', h.stack) == h.stack
  {
    KeepsRunning(h.y.k, k', h.stack);
  }

  lemma CodeKeeps(h: Host, op: Op)
    requires HostInv(h) && CanAct(h, Code(op))
    ensures |h.held| == |h.stack| && Controlled(Perform(h, Code(op)))
  {
    hide Controlled, SysInv, Enabled, Apply;
    HeldMatches(h);
    OpSched(h.y, op);
    WidenSelf(h.y.k, Apply(h.y, op).k, Stopping(op, h.y.k));
    CodeKeepsHost(h, Apply(h.y, op), Blocking(op));
  }

  lemma HeldMatches(h: Host)
    requires Controlled(h)
    ensures |h.held| == |h.stack|
  {
  }

  lemma InterruptParts(h: Host, k': Kernel)
    requires Controlled(h) && h.depth == 0 && Sched(h.y.k, k', None) && h.y.k.nextId <= k'.nextId
    ensures BeforeUnmask(h.(y := h.y.(k := k')))
  {
    hide LiveStack, NoneAbove, Chained;
    UntouchedLive(h.y.k, k', h.stack);
    StackPrios(h);
    CalmStays(h, h.(y := h.y.(k := k')), k', None);
  }

  lemma InterruptKeeps(h: Host, op: Op)
    requires HostInv(h) && CanAct(h, Interrupt(op))
    ensures |h.held| == |h.stack| && Controlled(Perform(h, Interrupt(op)))
  {
    hide Controlled, SysInv, Enabled, Apply, BeforeUnmask;
    var y' := Apply(h.y, op);
    HeldMatches(h);
    OpSched(h.y, op);
    InterruptParts(h, y'.k);
    SameParts(h.(y := h.y.(k := y'.k)), h.(y := y'));
    UnmaskControls(h.(y := y'));
  }

  lemma EnableKeeps(h: Host)
    requires Controlled(h) && Executing(h) && h.depth > Inherited(h)
    ensures Controlled(Unmask(h.(depth := h.depth - 1)))
  {
    EnableParts(h);
    UnmaskControls(h.(depth := h.depth - 1));
  }

  lemma EnableParts(h: Host)
    requires Controlled(h) && Executing(h) && h.depth > Inherited(h)
    ensures BeforeUnmask(h.(depth := h.depth - 1))
  {
    hide LiveStack, NoneAbove, Chained, Named;
    HeldBelow(h);
    SameTasksLive(h.y.k, h.y.k, h.stack);
  }

  lemma HeldBelow(h: Host)
    requires DepthInv(h)
    ensures forall i :: 0 <= i < |h.held| ==> h.held[i] <= Inherited(h)
  {
  }

  lemma DisableKeeps(h: Host)
    requires Controlled(h) && Executing(h)
    ensures Controlled(h.(depth := h.depth + 1))
  {
    hide LiveStack, NoneAbove, Chained;
  }

  // ---------------------------------------------------------------- resuming

  lemma PushedStack(h: Host, k': Kernel, t: TaskId, p: nat)
    requires StackInv(h) && ReadyAt(h.y.k, t, p) && p < |h.y.k.ready| && t < h.y.k.nextId
    requires !InHandler(h) ==> TopExecutes(h.stack)
    requires k'.tasks == h.y.k.tasks[t := h.y.k.tasks[t].(state := Running)] && k'.nextId == h.y.k.nextId
    requires |k'.ready| == |h.y.k.ready|
    ensures StackInv(Pushed(h, k', t, p))
  {
    PushedLive(h.y.k, k', h.stack, Activation(t, p, false, h.y.k.current, h.y.k.runningPrio));
    hide LiveStack;
  }

  lemma PushedRegisters(h: Host, k': Kernel, t: TaskId, p: nat)
    requires RegistersInv(h) && (InHandler(h) ==> p < h.entryPrio)
    requires k'.current == Some(t) && k'.runningPrio == p
    ensures RegistersInv(Pushed(h, k', t, p))
  {
    PushedChained(h.stack, Activation(t, p, false, h.y.k.current, h.y.k.runningPrio), Broken(h));
    hide Chained;
  }

  lemma PushedDepth(h: Host, k': Kernel, t: TaskId, p: nat)
    requires DepthInv(h) && k'.pendingPreempt == h.y.k.pendingPreempt && (h.active ==> h.mark <= |h.stack|)
    ensures DepthInv(Pushed(h, k', t, p))
  {
  }

  /** Outside critical sections, and whenever nothing pends, `run_one` finds nothing more
      urgent than the task that pumps it. */
  lemma PushedLevels(h: Host, k': Kernel, t: TaskId, p: nat)
    requires Levelled(h) && Calm(h) && DepthInv(h) && p < |h.y.k.ready| && h.y.k.ready[p] != []
    requires (h.active ==> h.mark <= |h.stack|) && k'.preemptive == h.y.k.preemptive
    ensures Levelled(Pushed(h, k', t, p))
    ensures h.y.k.preemptive && !h.active && !h.y.k.pendingPreempt && h.stack != [] ==> Top(h).prio <= p
  {
    if h.y.k.preemptive && !h.active && !h.y.k.pendingPreempt && h.stack != [] {
      assert !(p < Top(h).prio);
    }
  }

  lemma PushedCalm(h: Host, k': Kernel, t: TaskId, p: nat)
    requires Calm(h) && k'.pendingPreempt == h.y.k.pendingPreempt && NoneAbove(k', p)
    requires k'.preemptive == h.y.k.preemptive
    requires h.y.k.preemptive && !h.active && !h.y.k.pendingPreempt && h.stack != [] ==> Top(h).prio <= p
    ensures Calm(Pushed(h, k', t, p))
  {
    hide NoneAbove;
  }

  lemma PushedControls(h: Host, k': Kernel, t: TaskId, p: nat)
    requires Controlled(h) && (InHandler(h) || Executing(h)) && (InHandler(h) ==> p < h.entryPrio)
    requires p < |h.y.k.ready| && h.y.k.ready[p] != [] && ReadyAt(h.y.k, t, p) && t < h.y.k.nextId
    requires k'.tasks == h.y.k.tasks[t := h.y.k.tasks[t].(state := Running)] && k'.nextId == h.y.k.nextId
    requires |k'.ready| == |h.y.k.ready| && k'.current == Some(t) && k'.runningPrio == p
    requires k'.pendingPreempt == h.y.k.pendingPreempt && k'.preemptive == h.y.k.preemptive && NoneAbove(k', p)
    ensures Controlled(Pushed(h, k', t, p))
  {
    hide StackInv, DepthInv, Levelled, Calm, Chained, NoneAbove;
    PushedStack(h, k', t, p);
    PushedRegisters(h, k', t, p);
    PushedDepth(h, k', t, p);
    PushedLevels(h, k', t, p);
    PushedCalm(h, k', t, p);
  }

  /** What dispatching below `limit` does to the kernel, as far as the stack is concerned. */
  lemma DispatchFacts(k: Kernel, limit: nat)
    requires Inv(k) && limit <= |k.ready| && Urgent(k.ready, limit) < limit
    ensures HeadsKnown(k)
    ensures var p := Urgent(k.ready, limit); var t := k.ready[p][0]; var k' := Dispatch(k, limit);
            && ReadyAt(k, t, p) && t < k.nextId
            && k'.tasks == k.tasks[t := k.tasks[t].(state := Running)] && k'.nextId == k.nextId
            && |k'.ready| == |k.ready| && k'.current == Some(t) && k'.runningPrio == p
            && k'.pendingPreempt == k.pendingPreempt && k'.preemptive == k.preemptive && NoneAbove(k', p)
  {
    DispatchEffect(k, limit);
  }

  lemma ResumeKeeps(h: Host)
    requires Inv(h.y.k) && Controlled(h) && Executing(h) && HeadsKnown(h.y.k)
    ensures Controlled(Resume(h))
  {
    hide Inv, Controlled, Dispatch;
    var k := h.y.k;
    if Urgent(k.ready, |k.ready|) < |k.ready| {
      DispatchFacts(k, |k.ready|);
      var p := Urgent(k.ready, |k.ready|);
      PushedControls(h, Dispatch(k, |k.ready|), k.ready[p][0], p);
    }
  }

  /** The critical section of `run_one` itself never starts the handler: a pend is masked by an
      outer one, or the handler is active. */
  lemma RunOneStartsNoHandler(h: Host)
    requires Controlled(h)
    ensures Unmask(h) == h
  {
  }

  lemma HeadsKnownHere(h: Host)
    requires SysInv(h.y)
    ensures Inv(h.y.k) && HeadsKnown(h.y.k)
  {
    HeadsAreTasks(h.y.k);
  }

  lemma RunOneKeeps(h: Host)
    requires HostInv(h) && CanAct(h, RunOne)
    ensures |h.held| == |h.stack| && Controlled(Perform(h, RunOne)) && HeadsKnown(h.y.k)
    ensures Perform(h, RunOne) == Resume(h)
  {
    hide Inv, Controlled, Resume, Unmask, ReadyAt, Enabled, SysInv;
    HeadsKnownHere(h);
    HeldMatches(h);
    ResumeKeeps(h);
    RunOneStartsNoHandler(Resume(h));
  }

  // ---------------------------------------------------------------- returning

  lemma PoppedStack(h: Host)
    requires StackInv(h) && h.stack != [] && h.held != [] && Top(h).suspended
    requires h.active ==> |h.stack| > h.mark
    ensures StackInv(Popped(h))
    ensures (h.active && |h.stack| == h.mark + 1) || TopExecutes(Popped(h).stack)
  {
    PoppedLive(h.y.k, h.y.k, h.stack);
    hide LiveStack;
  }

  lemma PoppedDepth(h: Host)
    requires DepthInv(h) && h.stack != [] && Top(h).suspended && !InHandler(h)
    requires h.active ==> |h.stack| > h.mark
    requires (h.active && |h.stack| == h.mark + 1) || TopExecutes(Popped(h).stack)
    ensures DepthInv(Popped(h))
  {
    assert !TopExecutes(h.stack) && h.depth == Inherited(h);
    assert forall i :: 0 <= i < |h.stack| - 1 ==> Popped(h).held[i] == h.held[i];
  }

  lemma PoppedCalm(h: Host)
    requires Calm(h) && h.stack != [] && h.held != []
    ensures Calm(Popped(h))
  {
    var h' := Popped(h);
    if h.y.k.preemptive && !h'.active && !h'.y.k.pendingPreempt && h'.stack != [] {
      assert Top(h').prio == h.stack[|h.stack| - 2].prio <= Top(h).prio;
    }
  }

  lemma PoppedLevels(h: Host)
    requires Levelled(h) && |h.held| == |h.stack| && h.stack != [] && (h.active ==> h.mark < |h.stack|)
    ensures Levelled(Popped(h))
  {
    var h' := Popped(h);
    assert forall i :: 0 <= i < |h'.stack| ==> h'.stack[i] == h.stack[i] && h'.held[i] == h.held[i];
  }

  lemma LeaveRegisters(h: Host)
    requires RegistersInv(h) && h.stack != [] && h.held != [] && (h.active ==> |h.stack| > h.mark + 1)
    ensures RegistersInv(Leave(h))
  {
    PoppedChained(h.stack, Broken(h));
    PoppedNamed(Leave(h).y.k, h.stack, Broken(h));
    hide Chained;
    assert h.active ==> CallerTask(Leave(h).stack, h.mark) == CallerTask(h.stack, h.mark);
  }

  lemma SameRegistersApart(h: Host, h': Host)
    requires StackInv(h) && DepthInv(h) && Levelled(h) && Calm(h)
    requires h' == h.(y := h.y.(k := h.y.k.(current := h'.y.k.current, runningPrio := h'.y.k.runningPrio)))
    ensures StackInv(h') && DepthInv(h') && Levelled(h') && Calm(h')
  {
    SameTasksLive(h.y.k, h'.y.k, h.stack);
    hide LiveStack;
  }

  lemma ReturnKeeps(h: Host)
    requires Controlled(h) && h.stack != [] && Top(h).suspended && (h.active ==> |h.stack| > h.mark + 1)
    ensures h.held != [] && Controlled(Leave(h))
  {
    hide StackInv, Levelled, Calm, RegistersInv;
    PoppedStack(h);
    PoppedDepth(h);
    PoppedLevels(h);
    PoppedCalm(h);
    LeaveRegisters(h);
    hide DepthInv;
    SameRegistersApart(Popped(h), Leave(h));
  }

  lemma HandlerResumesKeeps(h: Host)
    requires Controlled(h) && h.active && |h.stack| == h.mark + 1 && Top(h).suspended
    ensures h.held != [] && Controlled(Popped(h))
  {
    hide StackInv, Levelled, Calm;
    PoppedStack(h);
    PoppedDepth(h);
    PoppedLevels(h);
    PoppedCalm(h);
    PoppedChained(h.stack, Broken(h));
    hide Chained, DepthInv;
    assert CallerTask(Popped(h).stack, h.mark) == CallerTask(h.stack, h.mark);
  }

  // ---------------------------------------------------------------- the handler

  /** Leaving the handler: nothing ready is above the interrupted task, hence above any task
      below it. */
  lemma HandlerLeaves(h: Host)
    requires Controlled(h) && InHandler(h) && HeadsKnown(h.y.k)
    requires Urgent(h.y.k.ready, Limit(h.y.k, h.entryPrio)) == Limit(h.y.k, h.entryPrio)
    ensures Controlled(ScanReady(h))
  {
    var h' := ScanReady(h);
    SameTasksLive(h.y.k, h'.y.k, h.stack);
    ChainedInside(h.stack, h.mark);
    hide LiveStack, Chained;
  }

  lemma ChainedInside(s: seq<Activation>, broken: nat)
    requires Chained(s, Some(broken)) && broken >= |s|
    ensures Chained(s, None)
  {
  }

  lemma ScanKeeps(h: Host)
    requires Inv(h.y.k) && Controlled(h) && InHandler(h) && HeadsKnown(h.y.k)
    ensures Controlled(ScanReady(h))
  {
    hide Inv, Controlled, Dispatch;
    var k := h.y.k;
    var limit := Limit(k, h.entryPrio);
    var p := Urgent(k.ready, limit);
    if p < limit {
      DispatchFacts(k, limit);
      PushedControls(h, Dispatch(k, limit), k.ready[p][0], p);
    } else {
      HandlerLeaves(h);
    }
  }

  // ---------------------------------------------------------------- every step

  /** Every step keeps the host port under control. */
  lemma ActKeeps(h: Host, a: Act)
    requires HostInv(h) && CanAct(h, a)
    ensures |h.held| == |h.stack| && Controlled(Perform(h, a))
  {
    hide Controlled, Inv, SysInv, ScanReady, Resume, Unmask, Leave, Popped, Settle, Enabled;
    HeadsKnownHere(h);
    HeldMatches(h);
    match a
    case Code(op) => CodeKeeps(h, op);
    case Interrupt(op) => InterruptKeeps(h, op);
    case Disable => DisableKeeps(h);
    case Enable => EnableKeeps(h);
    case RunOne => RunOneKeeps(h);
    case Return => ReturnKeeps(h);
    case Scan => ScanKeeps(h);
    case HandlerResumes => HandlerResumesKeeps(h);
  }

  lemma SameButRegisters(y: Sys, k': Kernel)
    requires SysInv(y)
    requires k' == y.k.(current := k'.current, runningPrio := k'.runningPrio, pendingPreempt := k'.pendingPreempt)
    ensures SysInv(y.(k := k'))
  {
    RegistersKeep(y.k, k'.current, k'.runningPrio, k'.pendingPreempt);
    OwnersStay(y, k');
    NothingOwned(y, k');
  }

  lemma UnmaskKeepsSys(h: Host)
    requires SysInv(h.y)
    ensures SysInv(Unmask(h).y)
  {
    SameButRegisters(h.y, Unmask(h).y.k);
  }

  lemma DispatchKeepsSys(y: Sys, limit: nat)
    requires SysInv(y) && limit <= |y.k.ready|
    ensures HeadsKnown(y.k) && SysInv(y.(k := Dispatch(y.k, limit)))
  {
    DispatchEvolves(y.k, limit);
    OwnersStay(y, Dispatch(y.k, limit));
    NothingOwned(y, Dispatch(y.k, limit));
  }

  lemma ScanKeepsSys(h: Host)
    requires SysInv(h.y)
    ensures HeadsKnown(h.y.k) && SysInv(ScanReady(h).y)
  {
    HeadsAreTasks(h.y.k);
    var limit := Limit(h.y.k, h.entryPrio);
    if Urgent(h.y.k.ready, limit) < limit {
      DispatchKeepsSys(h.y, limit);
    } else {
      SameButRegisters(h.y, ScanReady(h).y.k);
    }
  }

  lemma ActKeepsSys(h: Host, a: Act)
    requires HostInv(h) && CanAct(h, a)
    ensures |h.held| == |h.stack| && SysInv(Perform(h, a).y)
  {
    hide Inv, Dispatch, RegistersInv, StackInv, Levelled, Calm;
    match a
    case Code(op) =>
      var y' := Apply(h.y, op);
      StepKeeps(h.y, op);
      UnmaskKeepsSys(h.(y := y', stack := Settle(y'.k, h.stack)));
    case Interrupt(op) => StepKeeps(h.y, op); UnmaskKeepsSys(h.(y := Apply(h.y, op)));
    case Disable =>
    case Enable => UnmaskKeepsSys(h.(depth := h.depth - 1));
    case RunOne => DispatchKeepsSys(h.y, |h.y.k.ready|); UnmaskKeepsSys(Resume(h));
    case Return => SameButRegisters(h.y, Leave(h).y.k);
    case Scan => ScanKeepsSys(h);
    case HandlerResumes =>
  }
}
