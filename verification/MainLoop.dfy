/** The main loop of the scheduler, in either build: it checks for work and falls asleep with
    interrupts masked, so that no wake-up is lost in between. */
module MainLoop {
  import opened Sequences
  import opened Kernel
  import opened ResumeStack
  import opened System
  import opened Preempt
  import PreemptRuns
  import Runs

  /** Where the loop stands: before masking interrupts, before the check, having found work or
      none, asleep, woken, about to call `run_one`, or inside it. */
  datatype Place = Top | Checking | Busy | Idle | Sleeping | Awake | Pump | Inside

  /** `pending` are the handlers of raised interrupts, in the order in which they will run. */
  datatype Loop = Loop(h: Host, at: Place, pending: seq<Op>)

  datatype Step =
    | Raise(op: Op)
    | Service
    | Next
    | Inner(act: Act)

  predicate Masked(p: Place) {
    p.Checking? || p.Busy? || p.Idle? || p.Sleeping? || p.Awake?
  }

  predicate AnyReady(k: Kernel) {
    Urgent(k.ready, |k.ready|) < |k.ready|
  }

  ghost predicate IsHandler(y: Sys, op: Op) {
    !IsControl(op) && !TaskOnly(op) && Enabled(y, op)
  }

  /** What the loop itself does on leaving a place. */
  function OwnAct(p: Place): Option<Act> {
    match p
    case Top => Some(Disable)
    case Busy => Some(Enable)
    case Awake => Some(Enable)
    case Pump => Some(RunOne)
    case _ => None
  }

  /** Outside critical sections interrupt handlers run before the loop, a task or the preemption
      handler goes on. Waiting for an interrupt ends once one is pending, masked or not. */
  ghost predicate CanStep(s: Loop, a: Step) {
    match a
    case Raise(op) => IsHandler(s.h.y, op)
    case Service => s.h.depth == 0 && s.pending != [] && IsHandler(s.h.y, s.pending[0])
    case Next =>
      && (s.h.depth > 0 || s.pending == []) && !s.at.Inside?
      && (s.at.Sleeping? ==> s.pending != [])
      && (OwnAct(s.at).Some? ==> CanAct(s.h, OwnAct(s.at).value))
    case Inner(act) => s.at.Inside? && (s.h.depth > 0 || s.pending == []) && !act.Interrupt? && CanAct(s.h, act)
  }

  function Along(p: Place, anyReady: bool): Place {
    match p
    case Top => Checking
    case Checking => if anyReady then Busy else Idle
    case Busy => Pump
    case Idle => Sleeping
    case Sleeping => Awake
    case Awake => Top
    case Pump => if anyReady then Inside else Top
    case Inside => Inside
  }

  ghost function Take(s: Loop, a: Step): Loop
    requires SysInv(s.h.y) && |s.h.held| == |s.h.stack| && CanStep(s, a)
  {
    match a
    case Raise(op) => s.(pending := s.pending + [op])
    case Service => s.(h := Perform(s.h, Interrupt(s.pending[0])), pending := s.pending[1..])
    case Next =>
      Loop(if OwnAct(s.at).Some? then Perform(s.h, OwnAct(s.at).value) else s.h, Along(s.at, AnyReady(s.h.y.k)),
           s.pending)
    case Inner(act) =>
      var h' := Perform(s.h, act);
      s.(h := h', at := if h'.stack == [] then Top else Inside)
  }

  // ---------------------------------------------------------------- below everything

  /** The loop pumps outside critical sections only; then nothing pends, and no handler runs,
      directly on top of it. */
  ghost predicate Grounded(h: Host) {
    && (h.stack == [] ==> !h.active && !h.y.k.pendingPreempt)
    && (h.active ==> h.mark > 0)
    && (h.held != [] ==> h.held[0] == 0)
  }

  /** Without a task on the stack no critical section pends the handler. */
  lemma NoPendBelow(h: Host, k': Kernel, self: Option<TaskId>)
    requires Controlled(h) && Grounded(h) && h.stack == [] && Sched(h.y.k, k', self)
    ensures !k'.pendingPreempt
  {
  }

  lemma UnmaskGrounds(h: Host)
    requires Grounded(h)
    ensures Grounded(Unmask(h)) && Unmask(h).stack == h.stack
  {
  }

  lemma CodeGrounds(h: Host, op: Op)
    requires HostInv(h) && Grounded(h) && CanAct(h, Code(op)) && |h.held| == |h.stack|
    ensures Grounded(Perform(h, Code(op))) && |Perform(h, Code(op)).stack| == |h.stack|
  {
    hide Apply, Enabled, SysInv, Controlled;
    OpSched(h.y, op);
    var k' := Apply(h.y, op).k;
    if h.stack == [] { NoPendBelow(h, k', Stopping(op, h.y.k)); }
    SettledSame(k', h.stack);
    UnmaskGrounds(h.(y := Apply(h.y, op), stack := Settle(k', h.stack)));
  }

  lemma InterruptGrounds(h: Host, op: Op)
    requires HostInv(h) && Grounded(h) && CanAct(h, Interrupt(op)) && |h.held| == |h.stack|
    ensures Grounded(Perform(h, Interrupt(op))) && Perform(h, Interrupt(op)).stack == h.stack
  {
    hide Apply, Enabled, SysInv, Controlled;
    OpSched(h.y, op);
    if h.stack == [] { NoPendBelow(h, Apply(h.y, op).k, None); }
    UnmaskGrounds(h.(y := Apply(h.y, op)));
  }

  lemma ReturnGrounds(h: Host)
    requires Controlled(h) && Grounded(h) && CanAct(h, Return) && |h.held| == |h.stack|
    ensures Grounded(Leave(h)) && (Leave(h).stack == [] ==> h.depth == 0)
  {
  }

  /** Every step keeps the loop below out of the handler's reach; control returns to it outside
      critical sections. */
  lemma ActGrounds(h: Host, a: Act)
    requires HostInv(h) && Grounded(h) && CanAct(h, a) && |h.held| == |h.stack|
    requires a.RunOne? && h.stack == [] ==> h.depth == 0
    ensures var h' := Perform(h, a); Grounded(h') && (h.stack != [] && h'.stack == [] ==> h'.depth == 0)
  {
    hide SysInv, Controlled, Apply, Enabled, Dispatch;
    match a
    case Code(op) => CodeGrounds(h, op);
    case Interrupt(op) => InterruptGrounds(h, op);
    case RunOne => RunOneKeeps(h);
    case Return => ReturnGrounds(h);
    case _ =>
  }

  // ---------------------------------------------------------------- invariant

  /** Work found under the mask is still there when `run_one` is called, and none appears
      between the check and waking up. */
  ghost predicate PlaceInv(s: Loop) {
    && (s.at.Inside? <==> s.h.stack != [])
    && (s.at.Idle? || s.at.Sleeping? || s.at.Awake? ==> !AnyReady(s.h.y.k))
    && (s.at.Busy? || s.at.Pump? ==> AnyReady(s.h.y.k))
    && (!s.at.Inside? ==> s.h.depth == if Masked(s.at) then 1 else 0)
  }

  ghost predicate HandlersInv(y: Sys, pending: seq<Op>) {
    forall i :: 0 <= i < |pending| ==> IsHandler(y, pending[i])
  }

  ghost predicate LoopInv(s: Loop) {
    && HostInv(s.h) && |s.h.held| == |s.h.stack| && Grounded(s.h)
    && PlaceInv(s) && HandlersInv(s.h.y, s.pending)
  }

  lemma HandlersStay(y: Sys, y': Sys, pending: seq<Op>)
    requires HandlersInv(y, pending) && SamePrimitives(y, y')
    ensures HandlersInv(y', pending)
  {
    forall i | 0 <= i < |pending| ensures IsHandler(y', pending[i]) {
      assert IsHandler(y, pending[i]);
    }
  }

  lemma ReadyStays(k: Kernel, k': Kernel, self: Option<TaskId>)
    requires Sched(k, k', self) && AnyReady(k)
    ensures AnyReady(k')
  {
    var p := Urgent(k.ready, |k.ready|);
    assert k.ready[p] <= k'.ready[p];
  }

  /** What the loop knows after any step of the host. */
  lemma HostSteps(h: Host, a: Act)
    requires HostInv(h) && Grounded(h) && CanAct(h, a) && |h.held| == |h.stack|
    requires a.RunOne? && h.stack == [] ==> h.depth == 0
    ensures var h' := Perform(h, a);
            && HostInv(h') && Grounded(h') && |h'.held| == |h'.stack| && SamePrimitives(h.y, h'.y)
            && (h.stack != [] && h'.stack == [] ==> h'.depth == 0)
  {
    hide SysInv, Controlled, Grounded, Enabled, Dispatch, SamePrimitives;
    ActKeepsSys(h, a);
    ActKeeps(h, a);
    HeldMatches(Perform(h, a));
    ActGrounds(h, a);
    HostPrimitives(h, a);
  }

  lemma HostPrimitives(h: Host, a: Act)
    requires HostInv(h) && CanAct(h, a) && |h.held| == |h.stack|
    ensures SamePrimitives(h.y, Perform(h, a).y)
  {
    hide SysInv, Controlled, Enabled, Apply, Dispatch, Settle, Limit;
    if a.Code? || a.Interrupt? { PrimitivesStay(h.y, a.op); }
  }

  lemma HandlersRest(y: Sys, pending: seq<Op>)
    requires HandlersInv(y, pending) && pending != []
    ensures HandlersInv(y, pending[1..])
  {
  }

  lemma InterruptStays(h: Host, op: Op)
    requires HostInv(h) && Grounded(h) && CanAct(h, Interrupt(op)) && |h.held| == |h.stack|
    ensures var h' := Perform(h, Interrupt(op));
            h'.stack == h.stack && h'.depth == h.depth && (AnyReady(h.y.k) ==> AnyReady(h'.y.k))
  {
    hide SysInv, Controlled, Enabled, Apply, AnyReady;
    OpSched(h.y, op);
    if AnyReady(h.y.k) { ReadyStays(h.y.k, Apply(h.y, op).k, None); }
    AnyReadyPend(Apply(h.y, op).k);
  }

  lemma AnyReadyPend(k: Kernel)
    ensures AnyReady(k.(pendingPreempt := false)) <==> AnyReady(k)
  {
  }

  lemma ServiceKeeps(s: Loop)
    requires LoopInv(s) && CanStep(s, Service)
    ensures LoopInv(Take(s, Service))
  {
    hide SysInv, Controlled, Grounded, AnyReady, HandlersInv, SamePrimitives, Perform;
    HandlerInterrupts(s);
    HostSteps(s.h, Interrupt(s.pending[0]));
    InterruptStays(s.h, Interrupt(s.pending[0]).op);
    HandlersRest(s.h.y, s.pending);
    HandlersStay(s.h.y, Perform(s.h, Interrupt(s.pending[0])).y, s.pending[1..]);
  }

  lemma HandlerInterrupts(s: Loop)
    requires CanStep(s, Service)
    ensures CanAct(s.h, Interrupt(s.pending[0]))
  {
  }

  lemma InnerKeeps(s: Loop, act: Act)
    requires LoopInv(s) && CanStep(s, Inner(act))
    ensures LoopInv(Take(s, Inner(act)))
  {
    hide SysInv, Controlled, Grounded, AnyReady, HandlersInv, SamePrimitives, Perform, CanAct;
    HostSteps(s.h, act);
    HandlersStay(s.h.y, Perform(s.h, act).y, s.pending);
  }

  /** What the loop's own acts do. */
  lemma OwnSteps(s: Loop)
    requires LoopInv(s) && CanStep(s, Next) && OwnAct(s.at).Some?
    ensures var h' := Perform(s.h, OwnAct(s.at).value);
            if s.at.Pump? then h'.depth == 0 && |h'.stack| == 1
            else h'.stack == [] && h'.y == s.h.y && h'.depth == if s.at.Top? then 1 else 0
  {
    hide SysInv, Controlled, HandlersInv, Dispatch;
    if s.at.Pump? { RunOneKeeps(s.h); }
  }

  lemma NextKeeps(s: Loop)
    requires LoopInv(s) && CanStep(s, Next)
    ensures LoopInv(Take(s, Next))
  {
    hide SysInv, Controlled, Grounded, AnyReady, HandlersInv, SamePrimitives, Perform, CanAct;
    if OwnAct(s.at).Some? {
      HostSteps(s.h, OwnAct(s.at).value);
      OwnSteps(s);
      HandlersStay(s.h.y, Perform(s.h, OwnAct(s.at).value).y, s.pending);
    }
  }

  lemma RaiseKeeps(s: Loop, op: Op)
    requires LoopInv(s) && CanStep(s, Raise(op))
    ensures LoopInv(Take(s, Raise(op)))
  {
    hide SysInv, Controlled, Grounded, AnyReady, IsHandler;
  }

  lemma StepKeepsLoop(s: Loop, a: Step)
    requires LoopInv(s) && CanStep(s, a)
    ensures LoopInv(Take(s, a))
  {
    hide HostInv, Grounded, PlaceInv;
    match a
    case Raise(op) => RaiseKeeps(s, op);
    case Service => ServiceKeeps(s);
    case Next => NextKeeps(s);
    case Inner(act) => InnerKeeps(s, act);
  }

  // ---------------------------------------------------------------- runs

  ghost predicate Start(s: Loop) {
    PreemptRuns.Start(s.h) && s.at == Top && s.pending == []
  }

  ghost predicate Moves(s: Loop, a: Step, s': Loop) {
    LoopInv(s) ==> CanStep(s, a) && s' == Take(s, a)
  }

  ghost predicate Path(states: seq<Loop>, steps: seq<Step>) {
    && |states| == |steps| + 1
    && Start(states[0])
    && forall i :: 0 <= i < |steps| ==> Moves(states[i], steps[i], states[i + 1])
  }

  lemma StartValid(s: Loop)
    requires Start(s)
    ensures LoopInv(s)
  {
    Runs.InitialInv(s.h.y);
    PreemptRuns.StartControlled(s.h);
  }

  lemma {:induction false} LoopsAreValid(states: seq<Loop>, steps: seq<Step>, i: nat)
    requires Path(states, steps) && i < |states|
    ensures LoopInv(states[i])
  {
    if i == 0 {
      StartValid(states[0]);
    } else {
      LoopsAreValid(states, steps, i - 1);
      assert Moves(states[i - 1], steps[i - 1], states[i]);
      StepKeepsLoop(states[i - 1], steps[i - 1]);
    }
  }

  /** No reachable state is about to sleep, or asleep, with a ready task; and whenever the loop
      calls `run_one` there is one. */
  lemma NeverSleepsOnWork(states: seq<Loop>, steps: seq<Step>, i: nat, t: TaskId)
    requires Path(states, steps) && i < |states|
    requires var k := states[i].h.y.k; t in k.tasks && k.tasks[t].state == Ready
    ensures !states[i].at.Idle? && !states[i].at.Sleeping? && !states[i].at.Awake?
  {
    LoopsAreValid(states, steps, i);
    var k := states[i].h.y.k;
    assert t in k.ready[k.tasks[t].prio];
  }

  /** The handlers that have run, and the interrupts raised, from one state to another. */
  ghost function Served(states: seq<Loop>, steps: seq<Step>, i: nat, j: nat): seq<Op>
    requires i <= j < |states| && |states| == |steps| + 1
  {
    if i == j then []
    else Served(states, steps, i, j - 1) +
         (if steps[j - 1].Service? && states[j - 1].pending != [] then [states[j - 1].pending[0]] else [])
  }

  ghost function Raised(steps: seq<Step>, i: nat, j: nat): seq<Op>
    requires i <= j <= |steps|
  {
    if i == j then []
    else Raised(steps, i, j - 1) + (if steps[j - 1].Raise? then [steps[j - 1].op] else [])
  }

  lemma Regroup<T>(a: seq<T>, b: seq<T>, c: seq<T>, d: seq<T>, e: seq<T>, x: seq<T>, y: seq<T>)
    requires b + c == d + e && a + d == x + y
    ensures (a + b) + c == x + (y + e)
  {
    assert (a + b) + c == a + (b + c) && a + (d + e) == (a + d) + e && (x + y) + e == x + (y + e);
  }

  /** Interrupts are neither lost nor reordered. */
  lemma {:induction false} ServedInOrder(states: seq<Loop>, steps: seq<Step>, i: nat, j: nat)
    requires Path(states, steps) && i <= j < |states|
    ensures Served(states, steps, i, j) + states[j].pending == states[i].pending + Raised(steps, i, j)
  {
    hide LoopInv, Take, CanStep;
    if i < j {
      ServedInOrder(states, steps, i, j - 1);
      LoopsAreValid(states, steps, j - 1);
      assert Moves(states[j - 1], steps[j - 1], states[j]);
      PendingStep(states[j - 1], steps[j - 1]);
      Regroup(Served(states, steps, i, j - 1),
              if steps[j - 1].Service? && states[j - 1].pending != [] then [states[j - 1].pending[0]] else [],
              states[j].pending, states[j - 1].pending, if steps[j - 1].Raise? then [steps[j - 1].op] else [],
              states[i].pending, Raised(steps, i, j - 1));
    }
  }

  lemma PendingStep(s: Loop, a: Step)
    requires LoopInv(s) && CanStep(s, a)
    ensures (if a.Service? && s.pending != [] then [s.pending[0]] else []) + Take(s, a).pending
            == s.pending + (if a.Raise? then [a.op] else [])
  {
  }

  /** A wake-up that pends during the check or while asleep is serviced: when the loop starts
      its next pass, every handler that was pending, or was raised since, has run. */
  lemma NoWakeupLost(states: seq<Loop>, steps: seq<Step>, i: nat, j: nat)
    requires Path(states, steps) && i <= j < |steps|
    requires states[j].at == Top && steps[j].Next?
    ensures Served(states, steps, i, j) == states[i].pending + Raised(steps, i, j)
  {
    ServedInOrder(states, steps, i, j);
    LoopsAreValid(states, steps, j);
    assert Moves(states[j], steps[j], states[j + 1]);
  }

  // ---------------------------------------------------------------- passes

  /** A pass that finds no work sleeps, and goes on only once an interrupt is pending. */
  lemma {:induction false} IdlePassSleeps(states: seq<Loop>, steps: seq<Step>, i: nat, j: nat) returns (m: nat)
    requires Path(states, steps) && i < j < |states| && states[j].at == Top
    requires states[i].at == Idle || states[i].at == Sleeping ||
             (states[i].at == Checking && !AnyReady(states[i].h.y.k))
    ensures i <= m < j && states[m].at == Sleeping && steps[m] == Next && states[m].pending != []
    ensures states[m].h.y.k.ready == states[i].h.y.k.ready
    decreases j - i
  {
    hide AnyReady, Controlled, SysInv, Enabled, Perform;
    LoopsAreValid(states, steps, i);
    assert Moves(states[i], steps[i], states[i + 1]);
    if states[i].at == Sleeping && steps[i] == Next {
      m := i;
    } else {
      m := IdlePassSleeps(states, steps, i + 1, j);
    }
  }

  /** A pass that finds work calls `run_one`. */
  lemma {:induction false} BusyPassRuns(states: seq<Loop>, steps: seq<Step>, i: nat, j: nat) returns (m: nat)
    requires Path(states, steps) && i < j < |states| && states[j].at == Top
    requires (states[i].at == Checking && AnyReady(states[i].h.y.k)) || states[i].at == Busy || states[i].at == Pump
    ensures i <= m < j && states[m].at == Pump && steps[m] == Next && AnyReady(states[m].h.y.k)
    decreases j - i
  {
    hide AnyReady, Controlled, SysInv, Enabled, Perform;
    LoopsAreValid(states, steps, i);
    assert Moves(states[i], steps[i], states[i + 1]);
    if states[i].at == Pump && steps[i] == Next {
      m := i;
    } else {
      m := BusyPassRuns(states, steps, i + 1, j);
    }
  }

  // ---------------------------------------------------------------- selection

  /** A task is selected: `run_one` is called, by the loop itself or by a task that pumps, or the
      preemption handler finds one. */
  ghost predicate IsCall(s: Loop, a: Step) {
    (a.Next? && s.at.Pump?) || (a.Inner? && PreemptRuns.Selects(s.h, a.act))
  }

  ghost function Calls(states: seq<Loop>, steps: seq<Step>): nat
    requires |states| == |steps| + 1
    decreases |steps|
  {
    if steps == [] then 0 else (if IsCall(states[0], steps[0]) then 1 else 0) + Calls(states[1..], steps[1..])
  }

  /** The act of the host that a step is, if any. */
  function HostAct(s: Loop, a: Step): Option<Act> {
    match a
    case Raise(_) => None
    case Service => if s.pending == [] then None else Some(Interrupt(s.pending[0]))
    case Next => OwnAct(s.at)
    case Inner(act) => Some(act)
  }

  /** Each step of the loop is an act of the host or leaves it alone. */
  lemma Simulates(s: Loop, a: Step)
    requires LoopInv(s) && CanStep(s, a)
    ensures match HostAct(s, a)
            case None => Take(s, a).h == s.h && !IsCall(s, a)
            case Some(act) =>
              CanAct(s.h, act) && Take(s, a).h == Perform(s.h, act) && (PreemptRuns.Selects(s.h, act) <==> IsCall(s, a))
  {
    hide HostInv, Grounded, PlaceInv, HandlersInv, Perform, Enabled;
  }

  lemma {:induction false} LastCallCounts(states: seq<Loop>, steps: seq<Step>)
    requires |states| == |steps| + 1 && steps != [] && IsCall(states[|steps| - 1], steps[|steps| - 1])
    ensures Calls(states, steps) >= 1
    decreases |steps|
  {
    if |steps| > 1 { LastCallCounts(states[1..], steps[1..]); }
  }

  ghost predicate Fragment(states: seq<Loop>, steps: seq<Step>) {
    && |states| == |steps| + 1
    && LoopInv(states[0])
    && forall i :: 0 <= i < |steps| ==> Moves(states[i], steps[i], states[i + 1])
  }

  lemma FragmentRest(states: seq<Loop>, steps: seq<Step>)
    requires Fragment(states, steps) && steps != []
    ensures CanStep(states[0], steps[0]) && states[1] == Take(states[0], steps[0])
    ensures Fragment(states[1..], steps[1..])
  {
    hide LoopInv;
    assert Moves(states[0], steps[0], states[1]);
    StepKeepsLoop(states[0], steps[0]);
    forall j | 0 <= j < |steps| - 1 ensures Moves(states[1..][j], steps[1..][j], states[1..][j + 1]) {
      assert Moves(states[j + 1], steps[j + 1], states[j + 2]);
    }
  }

  /** A task that was woken is selected in a later pass: at index `i` of its list it is resumed
      by the (i + 1)-th selection, whatever handlers and tasks do in between, provided no more
      urgent task is ready at any of them. */
  lemma {:induction false} SelectedLater(states: seq<Loop>, steps: seq<Step>, t: TaskId, p: nat, i: nat)
    requires Fragment(states, steps) && At(states[0].h.y.k, t, p, i)
    requires forall j :: 0 <= j < |steps| && IsCall(states[j], steps[j]) ==> NoneAbove(states[j].h.y.k, p)
    requires steps != [] && IsCall(states[|steps| - 1], steps[|steps| - 1]) && Calls(states, steps) == i + 1
    ensures var k := states[|steps|].h.y.k; k.current == Some(t) && InTask(k) && k.runningPrio == p
    decreases |steps|
  {
    hide PlaceInv, HandlersInv, HostInv, Grounded, Take, CanStep, Perform, CanAct, At, NoneAbove, PreemptRuns.Selects;
    FragmentRest(states, steps);
    Simulates(states[0], steps[0]);
    var act := HostAct(states[0], steps[0]);
    if |steps| == 1 {
      PreemptRuns.SelectsWhom(states[0].h, act.value, t, p, 0);
    } else {
      LastCallCounts(states[1..], steps[1..]);
      if act.Some? { PreemptRuns.StepMovesForward(states[0].h, act.value, t, p, i); }
      SelectedLater(states[1..], steps[1..], t, p, if IsCall(states[0], steps[0]) then i - 1 else i);
    }
  }
}
