/** The cooperative scheduler with a re-entrant `run_one`: a running task, or the main
    context, may pump the scheduler to any depth, and interrupts may come at any moment. */
module Reentrant {
  import opened Sequences
  import opened Kernel
  import opened KernelProofs
  import opened ResumeStack
  import opened System

  /** The last activation is the innermost. */
  datatype Machine = Machine(y: Sys, stack: seq<Activation>)

  datatype Act =
    | Code(op: Op)
    | Interrupt(op: Op)
    | CallRunOne
    | Return

  function Top(m: Machine): Activation
    requires m.stack != []
  {
    m.stack[|m.stack| - 1]
  }

  /** Code runs in the main context or in the task resumed last. */
  predicate Executing(m: Machine) {
    TopExecutes(m.stack)
  }

  ghost predicate CanAct(m: Machine, a: Act) {
    match a
    case Code(op) => Executing(m) && !IsControl(op) && Enabled(m.y, op)
    case Interrupt(op) => !IsControl(op) && !TaskOnly(op) && Enabled(m.y, op)
    case CallRunOne => Executing(m)
    case Return => m.stack != [] && Top(m).suspended
  }

  ghost function Perform(m: Machine, a: Act): Machine
    requires SysInv(m.y) && CanAct(m, a)
  {
    match a
    case Code(op) => var y' := Apply(m.y, op); Machine(y', Settle(y'.k, m.stack))
    case Interrupt(op) => Machine(Apply(m.y, op), m.stack)
    case CallRunOne =>
      var k := m.y.k;
      var p := Urgent(k.ready, |k.ready|);
      if p == |k.ready| then m
      else
        Machine(Apply(m.y, DispatchTask(|k.ready|)),
                m.stack + [Activation(k.ready[p][0], p, false, k.current, k.runningPrio)])
    case Return =>
      var f := Top(m);
      Machine(Apply(m.y, Registers(f.savedCurrent, f.savedPrio, m.y.k.pendingPreempt)), m.stack[..|m.stack| - 1])
  }

  // ---------------------------------------------------------------- invariant

  /** The tasks on the stack are distinct and, the innermost excepted once it has suspended,
      Running; no other task is Running. */
  ghost predicate StackRuns(k: Kernel, stack: seq<Activation>) {
    && LiveStack(k, stack)
    && (forall i, j :: 0 <= i < j < |stack| ==> stack[i].task != stack[j].task)
    && (forall i :: 0 <= i < |stack| - 1 ==> !stack[i].suspended)
  }

  ghost predicate Disciplined(k: Kernel, stack: seq<Activation>) {
    Chained(stack, None) && StackRuns(k, stack) && Named(k, stack)
  }

  ghost predicate MachineInv(m: Machine) {
    SysInv(m.y) && Disciplined(m.y.k, m.stack)
  }

  // ---------------------------------------------------------------- steps keep it

  lemma CodeKeeps(m: Machine, op: Op)
    requires MachineInv(m) && CanAct(m, Code(op))
    ensures Disciplined(Perform(m, Code(op)).y.k, Perform(m, Code(op)).stack)
  {
    hide SysInv, Enabled, LiveStack, Chained, Sched;
    var k' := Apply(m.y, op).k;
    OpSched(m.y, op);
    WidenSelf(m.y.k, k', Stopping(op, m.y.k));
    SettledLive(m.y.k, k', m.stack);
    SettledSame(k', m.stack);
    SettledChained(k', m.stack, None);
  }

  lemma InterruptKeeps(m: Machine, op: Op)
    requires MachineInv(m) && CanAct(m, Interrupt(op))
    ensures Disciplined(Perform(m, Interrupt(op)).y.k, m.stack)
  {
    OpSched(m.y, op);
    UntouchedLive(m.y.k, Apply(m.y, op).k, m.stack);
  }

  lemma CallEffect(m: Machine)
    requires SysInv(m.y) && CanAct(m, CallRunOne)
    ensures var k := m.y.k; var p := Urgent(k.ready, |k.ready|); var m' := Perform(m, CallRunOne);
            if p == |k.ready| then m' == m
            else k.ready[p][0] in k.tasks && k.ready[p] != [] &&
                 (forall q :: 0 <= q < |k.ready| && k.ready[q] != [] ==> k.ready[q][0] in k.tasks) &&
                 m' == Machine(m.y.(k := Dispatch(k, |k.ready|)),
                               m.stack + [Activation(k.ready[p][0], p, false, k.current, k.runningPrio)])
  {
    HeadsAreTasks(m.y.k);
  }

  lemma CallKeeps(m: Machine)
    requires MachineInv(m) && CanAct(m, CallRunOne)
    ensures Disciplined(Perform(m, CallRunOne).y.k, Perform(m, CallRunOne).stack)
  {
    hide Inv, StackRuns, Chained;
    CallEffect(m);
    if Urgent(m.y.k.ready, |m.y.k.ready|) != |m.y.k.ready| {
      PushDispatched(m.y.k, m.stack);
    }
  }

  lemma PushDispatched(k: Kernel, s: seq<Activation>)
    requires Inv(k) && Disciplined(k, s) && Urgent(k.ready, |k.ready|) < |k.ready|
    requires s != [] ==> !s[|s| - 1].suspended
    requires forall q :: 0 <= q < |k.ready| && k.ready[q] != [] ==> k.ready[q][0] in k.tasks
    ensures var p := Urgent(k.ready, |k.ready|);
            Disciplined(Dispatch(k, |k.ready|), s + [Activation(k.ready[p][0], p, false, k.current, k.runningPrio)])
  {
    var p := Urgent(k.ready, |k.ready|);
    DispatchEffect(k, |k.ready|);
    PushedLive(k, Dispatch(k, |k.ready|), s, Activation(k.ready[p][0], p, false, k.current, k.runningPrio));
    PushedChained(s, Activation(k.ready[p][0], p, false, k.current, k.runningPrio), None);
  }

  lemma ReturnEffect(m: Machine)
    requires SysInv(m.y) && CanAct(m, Return)
    ensures var f := Top(m);
            Perform(m, Return) == Machine(m.y.(k := m.y.k.(current := f.savedCurrent, runningPrio := f.savedPrio)),
                                          m.stack[..|m.stack| - 1])
  {
  }

  lemma ReturnKeeps(m: Machine)
    requires MachineInv(m) && CanAct(m, Return)
    ensures Disciplined(Perform(m, Return).y.k, Perform(m, Return).stack)
  {
    ReturnEffect(m);
    var k' := m.y.k.(current := Top(m).savedCurrent, runningPrio := Top(m).savedPrio);
    PoppedLive(m.y.k, k', m.stack);
    PoppedChained(m.stack, None);
    PoppedNamed(k', m.stack, None);
  }

  lemma ActKeepsSys(m: Machine, a: Act)
    requires SysInv(m.y) && CanAct(m, a)
    ensures SysInv(Perform(m, a).y)
  {
    match a
    case Code(op) => StepKeeps(m.y, op);
    case Interrupt(op) => StepKeeps(m.y, op);
    case CallRunOne =>
      if Urgent(m.y.k.ready, |m.y.k.ready|) != |m.y.k.ready| { StepKeeps(m.y, DispatchTask(|m.y.k.ready|)); }
    case Return => StepKeeps(m.y, Registers(Top(m).savedCurrent, Top(m).savedPrio, m.y.k.pendingPreempt));
  }

  /** Every step keeps the system's invariant and the discipline of the activation stack. */
  lemma ActKeeps(m: Machine, a: Act)
    requires MachineInv(m) && CanAct(m, a)
    ensures SysInv(Perform(m, a).y) && Disciplined(Perform(m, a).y.k, Perform(m, a).stack)
  {
    ActKeepsSys(m, a);
    match a
    case Code(op) => CodeKeeps(m, op);
    case Interrupt(op) => InterruptKeeps(m, op);
    case CallRunOne => CallKeeps(m);
    case Return => ReturnKeeps(m);
  }
}
