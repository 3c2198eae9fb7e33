/** How long a timeout may be: the timer keeps its promises exactly up to 2^31 - 1 ticks. */
module TimerBound {
  import opened Sequences
  import opened Time
  import opened Kernel
  import opened KernelProofs
  import opened Timer
  import opened System
  import opened Runs
  import S = Semaphore

  // ---------------------------------------------------------------- one waiter

  lemma SignedFromNow(clock: nat, t: int)
    requires 0 <= t < TICK_SPAN
    ensures DeadlineLe(Wrap(Wrap(clock) + t), Wrap(Wrap(clock) + 1)) <==> t <= 1 || t > HALF_SPAN
  {
    hide Wrap, DeadlineLe;
    WrapAgain(clock, t);
    WrapAgain(clock, 1);
    if t == 0 {
      DeadlineLeExact(clock, clock + 1);
    } else {
      DeadlineLeAhead(clock + t, clock + 1);
    }
  }

  /** A node alone on the delay list is woken by the next tick exactly if it compares as due. */
  lemma AloneWakes(k: Kernel, n: NodeId)
    requires Inv(k) && k.delay == [n]
    ensures n in k.nodes && n in TickIsr(k).nodes && TickIsr(k).clock == k.clock + 1
    ensures TickIsr(k).nodes[n] ==
            if DeadlineLe(k.nodes[n].deadline, Wrap(k.tick + 1)) then k.nodes[n].(timedOut := true, wakes := 1)
            else k.nodes[n]
  {
    hide Inv, DeadlineLe, Wrap, TickIsr, Sched;
    DelayIsSound(k);
    assert n in k.delay;
    TickEffect(k);
    AloneDue(k, n);
  }

  lemma AloneDue(k: Kernel, n: NodeId)
    requires Inv(k) && k.delay == [n] && n in k.nodes
    ensures DueNodes(k) == if DeadlineLe(k.nodes[n].deadline, Wrap(k.tick + 1)) then [n] else []
  {
    hide Inv, DeadlineLe, Wrap;
    DelayIsSound(k);
    assert k.delay[1..] == [];
  }

  /** A lone waiter with timeout `t` is woken at the first tick, however far its deadline is,
      exactly if `t` is above 2^31 (or its deadline has really come). */
  lemma LoneWaiter(k: Kernel, home: Option<ListId>, payload: Payload, t: Tick)
    requires CanBlock(k, home, Some(t)) && k.tick == Wrap(k.clock) && k.delay == []
    ensures var n := k.nextId; var k1 := Block(k, home, payload, Some(t));
            && Inv(k1) && k1.clock == k.clock
            && n in k1.nodes && k1.nodes[n].due == k.clock + t
            && n in TickIsr(k1).nodes
            && (TickIsr(k1).nodes[n].timedOut <==> t <= 1 || t > HALF_SPAN)
  {
    hide Inv, DeadlineLe, Wrap;
    var k1 := Block(k, home, payload, Some(t));
    BlockKeepsInv(k, home, payload, Some(t));
    AloneArmed(k, home, payload, t);
    SignedFromNow(k.clock, t);
    AloneWakes(k1, k.nextId);
  }

  lemma AloneArmed(k: Kernel, home: Option<ListId>, payload: Payload, t: Tick)
    requires CanBlock(k, home, Some(t)) && k.delay == []
    ensures var k1 := Block(k, home, payload, Some(t));
            && k1.delay == [k.nextId] && k.nextId in k1.nodes && k1.tick == k.tick && k1.clock == k.clock
            && k1.nodes[k.nextId].deadline == Wrap(k.tick + t) && k1.nodes[k.nextId].due == k.clock + t
            && !k1.nodes[k.nextId].timedOut
  {
    hide Inv, Wrap;
  }

  // ---------------------------------------------------------------- two waiters

  lemma HalfSpanComparesPast(clock: nat)
    ensures DeadlineLe(Wrap(clock + HALF_SPAN), Wrap(Wrap(clock) + 0))
  {
    hide Wrap, DeadlineLe;
    WrapAgain(clock, 0);
    DeadlineLeAhead(clock + HALF_SPAN, clock);
  }

  lemma AlmostHalfSpanComparesAhead(clock: nat)
    ensures !DeadlineLe(Wrap(clock + HALF_SPAN), Wrap(Wrap(clock) + 1))
  {
    hide Wrap, DeadlineLe;
    WrapAgain(clock, 1);
    DeadlineLeAhead(clock + HALF_SPAN, clock + 1);
  }

  lemma ArmedBehind(k: Kernel, home: Option<ListId>, payload: Payload, a: NodeId)
    requires CanBlock(k, home, Some(0)) && k.tick == Wrap(k.clock)
    requires k.delay == [a] && a in k.nodes && k.nodes[a].deadline == Wrap(k.clock + HALF_SPAN)
    ensures var n := k.nextId; var k1 := Block(k, home, payload, Some(0));
            && k1.delay == [a, n] && a in k1.nodes && k1.nodes[a] == k.nodes[a]
            && n in k1.nodes && k1.nodes[n] == Episode(k, k.current.value, home, payload, Some(0))
            && k1.tick == k.tick && k1.clock == k.clock
  {
    hide Inv, DeadlineLe, Wrap, DelayInsert, Episode;
    BlockEffect(k, home, payload, Some(0));
    HalfSpanComparesPast(k.clock);
    BehindHalfSpan(k, a);
    FreshUnlinked(k);
  }

  /** If the first node of the delay list does not compare as due, a tick wakes nobody. */
  lemma HeadNotDue(k: Kernel)
    requires Inv(k) && k.delay != [] && k.delay[0] in k.nodes
    requires !DeadlineLe(k.nodes[k.delay[0]].deadline, Wrap(k.tick + 1))
    ensures TickIsr(k).clock == k.clock + 1
    ensures forall n :: n in k.nodes ==> n in TickIsr(k).nodes && TickIsr(k).nodes[n] == k.nodes[n]
  {
    hide Inv, DeadlineLe, Wrap, TickIsr, Sched;
    DelayIsSound(k);
    TickEffect(k);
    assert DueNodes(k) == [];
  }

  /** Behind a waiter armed for 2^31 ticks at this instant, a waiter armed for none is inserted
      last; the next tick leaves it waiting though its deadline has passed. */
  lemma ZeroBehindHalfSpan(k: Kernel, home: Option<ListId>, payload: Payload, a: NodeId)
    requires CanBlock(k, home, Some(0)) && k.tick == Wrap(k.clock)
    requires k.delay == [a] && a in k.nodes && k.nodes[a].deadline == Wrap(k.clock + HALF_SPAN)
    ensures var n := k.nextId; var k1 := Block(k, home, payload, Some(0));
            && Inv(k1) && k1.delay == [a, n]
            && n in TickIsr(k1).nodes
            && TickIsr(k1).nodes[n].wakes == 0 && TickIsr(k1).nodes[n].timed
            && TickIsr(k1).nodes[n].due < TickIsr(k1).clock
  {
    hide Inv, DeadlineLe, Wrap, Block, TickIsr;
    DelayIsSound(k);
    BlockKeepsInv(k, home, payload, Some(0));
    ArmedBehind(k, home, payload, a);
    AlmostHalfSpanComparesAhead(k.clock);
    HeadNotDue(Block(k, home, payload, Some(0)));
  }

  lemma BehindHalfSpan(k: Kernel, a: NodeId)
    requires k.delay == [a] && a in k.nodes && DeadlineLe(k.nodes[a].deadline, Wrap(k.tick + 0))
    ensures DelayInsert(k.nodes, k.delay, k.nextId, Wrap(k.tick + 0)) == [a, k.nextId]
  {
    hide DeadlineLe, Wrap;
    assert k.delay[1..] == [];
  }

  // ---------------------------------------------------------------- all runs

  ghost predicate Bounded(ops: seq<Op>, bound: nat) {
    forall i :: 0 <= i < |ops| ==> TimeoutOf(ops[i]) <= bound
  }

  ghost predicate AllPunctual(states: seq<Sys>) {
    forall i :: 0 <= i < |states| ==> Punctual(states[i].k)
  }

  ghost predicate KeepsPromises(bound: nat) {
    forall states: seq<Sys>, ops: seq<Op> :: Run(states, ops) && Bounded(ops, bound) ==> AllPunctual(states)
  }

  /** The kernel of the counterexample: one priority, two tasks. */
  function Bare(): Kernel {
    Kernel(map[], map[], 0, [[]], [], map[], None, NO_RUNNING_TASK, 0, 0, false, false)
  }

  function BareSys(k: Kernel): Sys {
    Sys(k, map[0 := S.Create(0, 1)], map[], map[], map[])
  }

  /** Two tasks are started, the first sleeps for 2^31 ticks, the second runs. */
  function Sleeping(): Kernel {
    Bare().(
      tasks := map[0 := Task(0, Blocked, 2), 1 := Task(0, Running, 0)],
      nodes := map[2 := WaitNode(0, None, true, HALF_SPAN, false, NoPayload, HALF_SPAN, 0)],
      nextId := 3, ready := [[]], delay := [2], current := Some(1), runningPrio := 0)
  }

  function Prelude(): seq<Op> {
    [StartTask(0), StartTask(0), DispatchTask(1), SleepFor(HALF_SPAN), DispatchTask(1)]
  }

  function AfterStarts(): Kernel {
    Bare().(tasks := map[0 := Task(0, Ready, 0), 1 := Task(0, Ready, 0)], nextId := 2, ready := [[0, 1]])
  }

  function AfterDispatch(): Kernel {
    AfterStarts().(tasks := map[0 := Task(0, Running, 0), 1 := Task(0, Ready, 0)], ready := [[1]],
                   current := Some(0), runningPrio := 0)
  }

  function AfterSleep(): Kernel {
    Sleeping().(tasks := map[0 := Task(0, Blocked, 2), 1 := Task(0, Ready, 0)], ready := [[1]],
                current := Some(0), runningPrio := 0)
  }

  lemma StartsOne()
    ensures Start(Bare(), 0) == Bare().(tasks := map[0 := Task(0, Ready, 0)], nextId := 1, ready := [[0]])
  {
    var created := Bare().(tasks := map[0 := Task(0, Created, 0)], nextId := 1);
    assert Bare().tasks[0 := Task(0, Created, 0)] == created.tasks;
    assert created.ready[0] + [0] == [0] && created.ready[0 := [0]] == [[0]];
    assert created.tasks[0 := Task(0, Ready, 0)] == map[0 := Task(0, Ready, 0)];
    assert MakeReady(created, 0) == created.(tasks := map[0 := Task(0, Ready, 0)], ready := [[0]]);
  }

  lemma StartsTwo()
    ensures Start(Start(Bare(), 0), 0) == AfterStarts()
  {
    StartsOne();
    var one := Start(Bare(), 0);
    var created := one.(tasks := one.tasks[1 := Task(0, Created, 0)], nextId := 2);
    assert created.ready[0] + [1] == [0, 1] && created.ready[0 := [0, 1]] == [[0, 1]];
    assert created.tasks[1 := Task(0, Ready, 0)] == AfterStarts().tasks;
    assert MakeReady(created, 1) == AfterStarts();
  }

  lemma DispatchesFirst()
    ensures Dispatch(AfterStarts(), 1) == AfterDispatch()
  {
    assert AfterStarts().ready[0][1..] == [1];
  }

  lemma FirstSleeps()
    ensures Block(AfterDispatch(), None, NoPayload, Some(HALF_SPAN)) == AfterSleep()
  {
  }

  lemma DispatchesSecond()
    ensures Dispatch(AfterSleep(), 1) == Sleeping()
  {
    assert AfterSleep().ready[0][1..] == [];
  }

  // ---------------------------------------------------------------- the run that breaks the promise

  lemma Begins()
    ensures Initial(BareSys(Bare()))
  {
  }

  lemma OneStep(states: seq<Sys>, ops: seq<Op>, op: Op)
    requires Run(states, ops) && Enabled(states[|ops|], op) && SysInv(states[|ops|])
    ensures Run(states + [Apply(states[|ops|], op)], ops + [op])
  {
    hide Initial, SysInv, Enabled, Apply;
    var longer, opsLonger := states + [Apply(states[|ops|], op)], ops + [op];
    forall i | 0 <= i < |opsLonger| ensures Follows(longer[i], opsLonger[i], longer[i + 1]) {
      if i < |ops| { assert Follows(states[i], ops[i], states[i + 1]); }
    }
  }

  lemma KernelApplies(y: Sys, op: Op, k': Kernel)
    requires SysInv(y) && Enabled(y, op) && !IsPrimitiveOp(op) && ApplyKernel(y.k, op) == k'
    ensures Apply(y, op) == y.(k := k')
  {
  }

  ghost predicate Does(k: Kernel, op: Op, k': Kernel) {
    SysInv(BareSys(k)) ==> Enabled(BareSys(k), op) && !IsPrimitiveOp(op) && ApplyKernel(k, op) == k'
  }

  lemma DoesStart()
    ensures Does(Bare(), StartTask(0), Start(Bare(), 0)) && Does(Start(Bare(), 0), StartTask(0), AfterStarts())
  {
    hide Inv;
    StartsTwo();
  }

  lemma DoesDispatch()
    ensures Does(AfterStarts(), DispatchTask(1), AfterDispatch()) && Does(AfterSleep(), DispatchTask(1), Sleeping())
  {
    hide Inv, Dispatch;
    DispatchesFirst();
    DispatchesSecond();
  }

  lemma DoesSleep()
    ensures Does(AfterDispatch(), SleepFor(HALF_SPAN), AfterSleep())
  {
    hide Inv, Block;
    FirstSleeps();
  }

  lemma Step(states: seq<Sys>, ops: seq<Op>, k: Kernel, op: Op, k': Kernel) returns (states': seq<Sys>)
    requires Run(states, ops) && states[|ops|] == BareSys(k)
    requires Does(k, op, k')
    ensures Run(states', ops + [op]) && states'[|ops| + 1] == BareSys(k') && SysInv(BareSys(k'))
  {
    hide Initial, SysInv, Enabled, Apply, ApplyKernel, IsPrimitiveOp;
    RunsAreValid(states, ops, |ops|);
    KernelApplies(BareSys(k), op, k');
    StepKeeps(BareSys(k), op);
    OneStep(states, ops, op);
    states' := states + [Apply(BareSys(k), op)];
  }

  lemma Starts() returns (states: seq<Sys>)
    ensures Run(states, [StartTask(0), StartTask(0)]) && states[2] == BareSys(AfterStarts())
  {
    hide SysInv, Does, Follows, Bare, AfterStarts, Start;
    Begins();
    DoesStart();
    states := Step([BareSys(Bare())], [], Bare(), StartTask(0), Start(Bare(), 0));
    states := Step(states, [StartTask(0)], Start(Bare(), 0), StartTask(0), AfterStarts());
  }

  lemma Sleeps() returns (states: seq<Sys>)
    ensures Run(states, Prelude()) && states[5] == BareSys(Sleeping()) && SysInv(BareSys(Sleeping()))
  {
    hide SysInv, Initial, Does, Follows, AfterStarts, AfterDispatch, AfterSleep, Sleeping;
    DoesDispatch();
    DoesSleep();
    states := Starts();
    var ops := [StartTask(0), StartTask(0)];
    states := Step(states, ops, AfterStarts(), DispatchTask(1), AfterDispatch());
    states := Step(states, ops + [DispatchTask(1)], AfterDispatch(), SleepFor(HALF_SPAN), AfterSleep());
    states := Step(states, ops + [DispatchTask(1), SleepFor(HALF_SPAN)], AfterSleep(), DispatchTask(1), Sleeping());
    assert ops + [DispatchTask(1), SleepFor(HALF_SPAN), DispatchTask(1)] == Prelude();
  }

  lemma SleepingAcquires()
    requires SysInv(BareSys(Sleeping()))
    ensures Enabled(BareSys(Sleeping()), Acquire(0, Some(0)))
    ensures CanBlock(Sleeping(), Some(SemaphoreWaiters(0)), Some(0))
    ensures Apply(BareSys(Sleeping()), Acquire(0, Some(0))).k
            == Block(Sleeping(), Some(SemaphoreWaiters(0)), NoPayload, Some(0))
  {
    hide Inv, Block;
  }

  lemma BreaksPromise()
    ensures exists states, ops :: Run(states, ops) && Bounded(ops, HALF_SPAN) && !AllPunctual(states)
  {
    hide SysInv, Initial, Inv, Apply, Enabled, Block, TickIsr;
    var states := Sleeps();
    var y5 := BareSys(Sleeping());
    SleepingAcquires();
    ZeroBehindHalfSpan(Sleeping(), Some(SemaphoreWaiters(0)), NoPayload, 2);
    var y6 := Apply(y5, Acquire(0, Some(0)));
    OneStep(states, Prelude(), Acquire(0, Some(0)));
    StepKeeps(y5, Acquire(0, Some(0)));
    TickStep(y6);
    var states6, ops6 := states + [y6], Prelude() + [Acquire(0, Some(0))];
    OneStep(states6, ops6, TimerTick);
    var y7 := Apply(y6, TimerTick);
    assert Run(states6 + [y7], ops6 + [TimerTick]);
    assert (states6 + [y7])[7] == y7 && !Punctual(y7.k) by {
      assert 3 in y7.k.nodes;
    }
    assert Bounded(ops6 + [TimerTick], HALF_SPAN);
    assert !AllPunctual(states6 + [y7]);
  }

  /** The timer keeps its promises in all runs with timeouts up to a bound, nobody woken early
      and nobody overdue left waiting, exactly if the bound is below 2^31 ticks. */
  lemma PunctualExactly(bound: nat)
    ensures KeepsPromises(bound) <==> bound < HALF_SPAN
  {
    hide Run, Punctual;
    if bound < HALF_SPAN {
      forall states: seq<Sys>, ops: seq<Op> | Run(states, ops) && Bounded(ops, bound) ensures AllPunctual(states) {
        forall i | 0 <= i < |states| ensures Punctual(states[i].k) {
          RunLengths(states, ops);
          RunsArePunctual(states, ops, i);
        }
      }
    } else {
      BreaksPromise();
      var states: seq<Sys>, ops: seq<Op> :| Run(states, ops) && Bounded(ops, HALF_SPAN) && !AllPunctual(states);
      assert Bounded(ops, bound);
    }
  }

  lemma RunLengths(states: seq<Sys>, ops: seq<Op>)
    requires Run(states, ops)
    ensures |states| == |ops| + 1
  {
  }
}
