/** Runs of the cooperative scheduler: who is resumed, on whose behalf, and how soon. */
module ReentrantRuns {
  import opened Sequences
  import opened Kernel
  import opened KernelProofs
  import opened System
  import opened Reentrant
  import opened ResumeStack
  import Runs

  ghost predicate Moves(m: Machine, a: Act, m': Machine) {
    MachineInv(m) ==> CanAct(m, a) && m' == Perform(m, a)
  }

  ghost predicate Path(states: seq<Machine>, acts: seq<Act>) {
    && |states| == |acts| + 1
    && forall i :: 0 <= i < |acts| ==> Moves(states[i], acts[i], states[i + 1])
  }

  ghost predicate Start(m: Machine) {
    Runs.Initial(m.y) && m.stack == [] && !m.y.k.preemptive
  }

  lemma StartInv(m: Machine)
    requires Start(m)
    ensures MachineInv(m)
  {
    Runs.InitialInv(m.y);
  }

  /** Every state of every run is disciplined: at any nesting depth the tasks on the stack are
      distinct and Running, and `current` and `running_prio` name the innermost one. */
  lemma {:induction false} RunsAreDisciplined(states: seq<Machine>, acts: seq<Act>, i: nat)
    requires Path(states, acts) && MachineInv(states[0]) && i < |states|
    ensures MachineInv(states[i])
  {
    if i > 0 {
      RunsAreDisciplined(states, acts, i - 1);
      assert Moves(states[i - 1], acts[i - 1], states[i]);
      ActKeeps(states[i - 1], acts[i - 1]);
    }
  }

  /** No task is resumed a second time while it is on the stack. */
  lemma NeverResumedTwice(m: Machine, i: nat)
    requires MachineInv(m) && CanAct(m, CallRunOne)
    requires Urgent(m.y.k.ready, |m.y.k.ready|) < |m.y.k.ready| && i < |m.stack|
    ensures var m' := Perform(m, CallRunOne);
            && |m'.stack| == |m.stack| + 1 && m'.stack[i] == m.stack[i] && m'.stack[i].task != Top(m').task
            && InTask(m'.y.k) && m'.y.k.current == Some(Top(m').task)
  {
    CallEffect(m);
    CallKeeps(m);
    DispatchEffect(m.y.k, |m.y.k.ready|);
  }

  /** On return `current` and `running_prio` again name the caller, which is Running. */
  lemma ReturnNamesCaller(m: Machine)
    requires MachineInv(m) && CanAct(m, Return)
    ensures var m' := Perform(m, Return);
            if m'.stack == [] then m'.y.k.current == None && m'.y.k.runningPrio == NO_RUNNING_TASK
            else !Top(m').suspended && InTask(m'.y.k) && m'.y.k.current == Some(Top(m').task)
                 && m'.y.k.runningPrio == m'.y.k.tasks[Top(m').task].prio
  {
    ReturnEffect(m);
    ReturnKeeps(m);
    if |m.stack| > 1 { assert RunningAt(m.y.k, m.stack[|m.stack| - 2]); }
  }

  lemma LowerSettled(k: Kernel, y': Sys, s: seq<Activation>, i: nat)
    requires i < |s| - 1 && Disciplined(k, s) && Disciplined(y'.k, Settle(y'.k, s))
    ensures k.current == Some(s[|s| - 1].task) && Settle(y'.k, s)[i] == s[i] && RunningAt(y'.k, s[i])
  {
    assert !Settle(y'.k, s)[i].suspended;
  }

  lemma CodeEffect(m: Machine, op: Op)
    requires MachineInv(m) && CanAct(m, Code(op))
    ensures var m' := Perform(m, Code(op));
            m'.y == Apply(m.y, op) && m'.stack == Settle(m'.y.k, m.stack) && Disciplined(m'.y.k, m'.stack)
  {
    CodeKeeps(m, op);
  }

  /** Whatever a task calls, only that task can stop running by it: those that pumped the
      scheduler below it go on being Running. */
  lemma CallsActOnCaller(m: Machine, op: Op, i: nat)
    requires MachineInv(m) && CanAct(m, Code(op)) && i < |m.stack| - 1
    ensures m.y.k.current == Some(Top(m).task) && RunningAt(Perform(m, Code(op)).y.k, m.stack[i])
  {
    hide SysInv, Apply, Settle, Disciplined, Perform, RunningAt;
    CodeEffect(m, op);
    LowerSettled(m.y.k, Perform(m, Code(op)).y, m.stack, i);
  }

  // ---------------------------------------------------------------- priority and round robin

  /** How often `run_one` is called. */
  function Calls(acts: seq<Act>): nat {
    if acts == [] then 0 else (if acts[0].CallRunOne? then 1 else 0) + Calls(acts[1..])
  }

  lemma UrgentIs(k: Kernel, t: TaskId, p: nat, i: nat)
    requires At(k, t, p, i) && NoneAbove(k, p)
    ensures Urgent(k.ready, |k.ready|) == p
  {
  }

  /** A call moves a waiting task one place forward; nothing else moves it. */
  lemma StepMovesForward(m: Machine, a: Act, t: TaskId, p: nat, i: nat)
    requires MachineInv(m) && CanAct(m, a) && At(m.y.k, t, p, i)
    requires a.CallRunOne? ==> NoneAbove(m.y.k, p) && i > 0
    ensures At(Perform(m, a).y.k, t, p, if a.CallRunOne? then i - 1 else i)
  {
    match a
    case Code(op) => OpSched(m.y, op);
    case Interrupt(op) => OpSched(m.y, op);
    case CallRunOne =>
      UrgentIs(m.y.k, t, p, i);
      CallEffect(m);
      DispatchEffect(m.y.k, |m.y.k.ready|);
    case Return => ReturnEffect(m);
  }

  /** A call selects the head of the most urgent list. */
  lemma CallSelects(m: Machine, t: TaskId, p: nat)
    requires MachineInv(m) && CanAct(m, CallRunOne) && At(m.y.k, t, p, 0) && NoneAbove(m.y.k, p)
    ensures var m' := Perform(m, CallRunOne);
            m'.y.k.current == Some(t) && InTask(m'.y.k) && m'.y.k.runningPrio == p && Top(m').task == t
  {
    UrgentIs(m.y.k, t, p, 0);
    CallEffect(m);
    DispatchEffect(m.y.k, |m.y.k.ready|);
  }

  lemma {:induction false} LastCallCounts(acts: seq<Act>)
    requires acts != [] && acts[|acts| - 1].CallRunOne?
    ensures Calls(acts) >= 1
  {
    if |acts| > 1 { LastCallCounts(acts[1..]); }
  }

  /** A task at index `i` of its ready list is resumed by the (i + 1)-th call of `run_one`,
      whatever tasks and interrupts do in between, provided no more urgent task is ready at
      any of those calls. */
  lemma {:induction false} RoundRobin(states: seq<Machine>, acts: seq<Act>, t: TaskId, p: nat, i: nat)
    requires Path(states, acts) && MachineInv(states[0]) && At(states[0].y.k, t, p, i)
    requires forall j :: 0 <= j < |acts| && acts[j].CallRunOne? ==> NoneAbove(states[j].y.k, p)
    requires acts != [] && acts[|acts| - 1].CallRunOne? && Calls(acts) == i + 1
    ensures var k := states[|acts|].y.k; k.current == Some(t) && InTask(k) && k.runningPrio == p
    decreases |acts|
  {
    var a := acts[0];
    assert Moves(states[0], a, states[1]);
    ActKeeps(states[0], a);
    if |acts| == 1 {
      CallSelects(states[0], t, p);
    } else {
      LastCallCounts(acts[1..]);
      StepMovesForward(states[0], a, t, p, i);
      forall j | 0 <= j < |acts| - 1 ensures Moves(states[1..][j], acts[1..][j], states[1..][j + 1]) {
        assert Moves(states[j + 1], acts[j + 1], states[j + 2]);
      }
      RoundRobin(states[1..], acts[1..], t, p, if a.CallRunOne? then i - 1 else i);
    }
  }
}
