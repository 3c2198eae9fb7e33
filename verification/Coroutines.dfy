/** Many tasks over one kernel: each is a coroutine with nested coroutines (include/rtos/task.hpp),
    and the kernel decides which of them runs (include/rtos/kernel.hpp). */
module Coroutines {
  import opened Sequences
  import opened Kernel
  import opened KernelProofs
  import opened System
  import opened Async
  import opened Sequential
  import Runs

  /** What a request asks of the kernel, and the body of the task that it starts, if it does. */
  datatype Api = Api(op: Request -> Op, child: Request -> Local)

  /** A task: the body it was started with, its frames, the replies it has used so far, and the
      number of its steps. `machine.resumePoint` is `TaskPromise::resume_point`. */
  datatype Body = Body(start: Local, machine: Machine, log: seq<Reply>, steps: nat)

  datatype World = World(y: Sys, bodies: map<TaskId, Body>)

  /** The main context starts a task; the current task makes a request, goes on within its
      coroutines, or is destroyed at its end; a task is dispatched; an interrupt handler runs or
      a register is written. Replies are arbitrary. */
  datatype Act =
    | Spawn(priority: nat, l: Local)
    | Asks(value: Value)
    | Inner
    | End
    | Resume(limit: nat, value: Value)
    | Other(op: Op)

  ghost predicate Executes(w: World) {
    && InTask(w.y.k) && w.y.k.current.value in w.bodies
    && w.bodies[w.y.k.current.value].machine.phase.Executing?
    && w.bodies[w.y.k.current.value].machine.active in w.bodies[w.y.k.current.value].machine.frames
  }

  /** What the current task does next. */
  ghost function NextOf(p: Program, w: World): Next
    requires Executes(w)
  {
    var m := w.bodies[w.y.k.current.value].machine;
    p.next(m.frames[m.active].local)
  }

  ghost predicate CanAct(p: Program, api: Api, w: World, a: Act) {
    match a
    case Spawn(_, _) => true
    case Asks(_) =>
      && Executes(w) && NextOf(p, w).Ask?
      && var op := api.op(NextOf(p, w).request);
         !IsControl(op) && !op.FinishTask? && !op.TimerTick? && Enabled(w.y, op)
    case Inner => Executes(w) && !NextOf(p, w).Ask?
    case End =>
      && InTask(w.y.k) && w.y.k.current.value in w.bodies && Enabled(w.y, FinishTask)
      && w.bodies[w.y.k.current.value].machine.phase.Finished?
    case Resume(limit, _) => limit <= |w.y.k.ready|
    case Other(op) => !TaskOnly(op) && !op.DispatchTask? && !op.StartTask? && Enabled(w.y, op)
  }

  /** The critical section of an act, if it has one. */
  ghost function OpOf(p: Program, api: Api, w: World, a: Act): Option<Op>
    requires CanAct(p, api, w, a)
  {
    match a
    case Spawn(priority, _) => Some(StartTask(priority))
    case Asks(_) => Some(api.op(NextOf(p, w).request))
    case Inner => None
    case End => Some(FinishTask)
    case Resume(limit, _) => Some(DispatchTask(limit))
    case Other(op) => Some(op)
  }

  // ---------------------------------------------------------------- invariant

  /** A task is Running while its frames execute, and suspended in its coroutines otherwise. */
  ghost predicate InStep(k: Kernel, t: TaskId, b: Body)
    requires t in k.tasks
  {
    k.tasks[t].state == Running <==> b.machine.phase.Executing? || b.machine.phase.Finished?
  }

  ghost predicate Sound(p: Program, b: Body) {
    Reached(p, b.start, b.log, b.steps, b.machine)
  }

  ghost predicate BodiesInv(p: Program, k: Kernel, bodies: map<TaskId, Body>) {
    && bodies.Keys == k.tasks.Keys
    && forall t {:trigger t in bodies} :: t in bodies ==> Sound(p, bodies[t]) && InStep(k, t, bodies[t])
  }

  ghost predicate WorldInv(p: Program, w: World) {
    SysInv(w.y) && BodiesInv(p, w.y.k, w.bodies)
  }

  lemma BodySteps(p: Program, b: Body, replies: seq<Reply>)
    requires Sound(p, b) && !b.machine.phase.Finished? && (Asking(p, b.machine) ==> replies != [])
    ensures CanStep(p, b.machine, replies)
    ensures b.machine.phase.Executing? ==> b.machine.active in b.machine.frames
  {
    hide Reached, Step, ChainInv;
    var v: Value :| true;
    var ids := ReachedChain(p, b.start, b.log, b.steps, b.machine, v);
    ChainSteps(p, b.machine, ids, replies);
  }

  // ---------------------------------------------------------------- steps of one body

  function Began(l: Local): Body {
    Body(l, Begun(l), [], 0)
  }

  /** A request with its reply; if the task suspends, the reply is used on resumption. */
  function Asked(p: Program, b: Body, r: Reply): Body
    requires CanStep(p, b.machine, [r])
  {
    b.(machine := Step(p, b.machine, [r]).0, log := if r.suspends then b.log else b.log + [r], steps := b.steps + 1)
  }

  function Moved(p: Program, b: Body): Body
    requires CanStep(p, b.machine, [])
  {
    b.(machine := Step(p, b.machine, []).0, steps := b.steps + 1)
  }

  /** `resume_point.resume()`. */
  function Resumed(p: Program, b: Body, v: Value): Body
    requires CanStep(p, b.machine, if b.machine.phase.Suspended? then [Reply(v, true)] else [])
  {
    if b.machine.phase.Suspended?
    then b.(machine := Step(p, b.machine, [Reply(v, true)]).0, log := b.log + [Reply(v, true)], steps := b.steps + 1)
    else Moved(p, b)
  }

  lemma AskedSound(p: Program, b: Body, r: Reply)
    requires Sound(p, b) && CanStep(p, b.machine, [r]) && b.machine.phase.Executing? && Asking(p, b.machine)
    ensures Sound(p, Asked(p, b, r))
    ensures if r.suspends then Asked(p, b, r).machine.phase.Suspended? else Asked(p, b, r).machine.phase.Executing?
  {
    hide Reached;
    ReachedAsk(p, b.start, b.log, b.steps, b.machine, r);
  }

  lemma MovedSound(p: Program, b: Body)
    requires Sound(p, b) && CanStep(p, b.machine, []) && !b.machine.phase.Suspended? && !b.machine.phase.Finished?
    ensures Sound(p, Moved(p, b)) && (Moved(p, b).machine.phase.Executing? || Moved(p, b).machine.phase.Finished?)
  {
    hide Reached;
    ReachedInner(p, b.start, b.log, b.steps, b.machine);
  }

  lemma ResumedSound(p: Program, b: Body, v: Value)
    requires Sound(p, b) && (b.machine.phase.Suspended? || b.machine.phase.Fresh?)
    requires CanStep(p, b.machine, if b.machine.phase.Suspended? then [Reply(v, true)] else [])
    ensures Sound(p, Resumed(p, b, v)) && Resumed(p, b, v).machine.phase.Executing?
  {
    hide Reached;
    if b.machine.phase.Suspended? {
      ReachedResume(p, b.start, b.log, b.steps, b.machine, v);
    } else {
      ReachedInner(p, b.start, b.log, b.steps, b.machine);
    }
  }

  // ---------------------------------------------------------------- acts

  ghost function StillRuns(k: Kernel, t: TaskId): bool {
    t in k.tasks && k.tasks[t].state == Running
  }

  ghost function WithChild(bodies: map<TaskId, Body>, op: Op, id: TaskId, l: Local): map<TaskId, Body> {
    if op.StartTask? then bodies[id := Began(l)] else bodies
  }

  ghost function AskAct(p: Program, api: Api, w: World, v: Value): World
    requires WorldInv(p, w) && CanAct(p, api, w, Asks(v))
  {
    var t := w.y.k.current.value;
    var q := NextOf(p, w).request;
    var y' := Apply(w.y, api.op(q));
    var r := Reply(v, !StillRuns(y'.k, t));
    BodySteps(p, w.bodies[t], [r]);
    World(y', WithChild(w.bodies[t := Asked(p, w.bodies[t], r)], api.op(q), w.y.k.nextId, api.child(q)))
  }

  ghost function InnerAct(p: Program, w: World): World
    requires WorldInv(p, w) && Executes(w) && !NextOf(p, w).Ask?
  {
    var t := w.y.k.current.value;
    BodySteps(p, w.bodies[t], []);
    w.(bodies := w.bodies[t := Moved(p, w.bodies[t])])
  }

  ghost function DispatchAct(p: Program, w: World, limit: nat, v: Value): World
    requires WorldInv(p, w) && limit <= |w.y.k.ready|
  {
    var y' := Apply(w.y, DispatchTask(limit));
    var pr := Urgent(w.y.k.ready, limit);
    if pr == limit then World(y', w.bodies)
    else
      var t := w.y.k.ready[pr][0];
      HeadSuspended(p, w, pr);
      BodySteps(p, w.bodies[t], if w.bodies[t].machine.phase.Suspended? then [Reply(v, true)] else []);
      World(y', w.bodies[t := Resumed(p, w.bodies[t], v)])
  }

  ghost function Perform(p: Program, api: Api, w: World, a: Act): World
    requires WorldInv(p, w) && CanAct(p, api, w, a)
  {
    match a
    case Spawn(priority, l) => World(Apply(w.y, StartTask(priority)), w.bodies[w.y.k.nextId := Began(l)])
    case Asks(v) => AskAct(p, api, w, v)
    case Inner => InnerAct(p, w)
    case End => World(Apply(w.y, FinishTask), w.bodies - {w.y.k.current.value})
    case Resume(limit, v) => DispatchAct(p, w, limit, v)
    case Other(op) => World(Apply(w.y, op), w.bodies)
  }

  /** The task that a dispatch selects is suspended in its coroutines. */
  lemma HeadSuspended(p: Program, w: World, pr: nat)
    requires WorldInv(p, w) && pr < |w.y.k.ready| && w.y.k.ready[pr] != []
    ensures var t := w.y.k.ready[pr][0];
            && t in w.y.k.tasks && w.y.k.tasks[t].state == Ready && t in w.bodies
            && (w.bodies[t].machine.phase.Suspended? || w.bodies[t].machine.phase.Fresh?)
  {
    hide Sound;
    assert ReadyAt(w.y.k, w.y.k.ready[pr][0], pr);
  }

  // ---------------------------------------------------------------- acts keep the invariant

  /** A critical section neither starts nor stops any task but the one that asked for it. */
  lemma RunningSame(y: Sys, op: Op, u: TaskId)
    requires SysInv(y) && Enabled(y, op) && !IsControl(op) && Some(u) != Stopping(op, y.k)
    ensures StillRuns(Apply(y, op).k, u) <==> StillRuns(y.k, u)
  {
    hide SysInv, Enabled, Apply;
    OpSched(y, op);
  }

  ghost predicate Matches(k: Kernel, t: TaskId, b: Body) {
    StillRuns(k, t) <==> b.machine.phase.Executing? || b.machine.phase.Finished?
  }

  lemma AfterOp(p: Program, y: Sys, op: Op, bodies: map<TaskId, Body>, bodies': map<TaskId, Body>)
    requires SysInv(y) && Enabled(y, op) && !IsControl(op) && BodiesInv(p, y.k, bodies)
    requires bodies'.Keys == TasksAfter(y.k, op)
    requires forall t {:trigger t in bodies'} :: t in bodies' ==>
               || (t in bodies && Some(t) != Stopping(op, y.k) && bodies'[t] == bodies[t])
               || (Sound(p, bodies'[t]) && Matches(Apply(y, op).k, t, bodies'[t]))
    ensures BodiesInv(p, Apply(y, op).k, bodies')
  {
    hide SysInv, Enabled, Apply, Sound;
    OpTasks(y, op);
    forall t | t in bodies' ensures Sound(p, bodies'[t]) && InStep(Apply(y, op).k, t, bodies'[t]) {
      if t in bodies && Some(t) != Stopping(op, y.k) && bodies'[t] == bodies[t] { RunningSame(y, op, t); }
    }
  }

  lemma BeganSound(p: Program, l: Local)
    ensures Sound(p, Began(l)) && Began(l).machine.phase.Fresh?
  {
    ReachedStart(p, l);
  }

  lemma FreshTask(y: Sys, op: Op)
    requires SysInv(y) && Enabled(y, op) && !IsControl(op)
    ensures y.k.nextId !in y.k.tasks && !StillRuns(Apply(y, op).k, y.k.nextId)
  {
    OpSched(y, op);
  }

  lemma SpawnKeeps(p: Program, w: World, priority: nat, l: Local)
    requires WorldInv(p, w)
    ensures BodiesInv(p, Apply(w.y, StartTask(priority)).k, w.bodies[w.y.k.nextId := Began(l)])
  {
    hide SysInv, Apply, Sound;
    FreshTask(w.y, StartTask(priority));
    BeganSound(p, l);
    AfterOp(p, w.y, StartTask(priority), w.bodies, w.bodies[w.y.k.nextId := Began(l)]);
  }

  lemma AskKeeps(p: Program, api: Api, w: World, v: Value)
    requires WorldInv(p, w) && CanAct(p, api, w, Asks(v))
    ensures BodiesInv(p, AskAct(p, api, w, v).y.k, AskAct(p, api, w, v).bodies)
  {
    hide SysInv, Enabled, Apply, Sound;
    var t := w.y.k.current.value;
    var q := NextOf(p, w).request;
    var op := api.op(q);
    var r := Reply(v, !StillRuns(Apply(w.y, op).k, t));
    BodySteps(p, w.bodies[t], [r]);
    AskedSound(p, w.bodies[t], r);
    FreshTask(w.y, op);
    BeganSound(p, api.child(q));
    AfterOp(p, w.y, op, w.bodies, AskAct(p, api, w, v).bodies);
  }

  lemma InnerKeeps(p: Program, w: World)
    requires WorldInv(p, w) && Executes(w) && !NextOf(p, w).Ask?
    ensures BodiesInv(p, w.y.k, InnerAct(p, w).bodies)
  {
    hide SysInv, Sound;
    BodySteps(p, w.bodies[w.y.k.current.value], []);
    MovedSound(p, w.bodies[w.y.k.current.value]);
  }

  lemma EndKeeps(p: Program, w: World)
    requires WorldInv(p, w) && InTask(w.y.k) && Enabled(w.y, FinishTask)
    ensures BodiesInv(p, Apply(w.y, FinishTask).k, w.bodies - {w.y.k.current.value})
  {
    hide SysInv, Enabled, Apply, Sound;
    AfterOp(p, w.y, FinishTask, w.bodies, w.bodies - {w.y.k.current.value});
  }

  lemma DispatchedBodies(p: Program, k: Kernel, k': Kernel, bodies: map<TaskId, Body>, t: TaskId, b': Body)
    requires BodiesInv(p, k, bodies) && t in k.tasks && k'.tasks == k.tasks[t := k.tasks[t].(state := Running)]
    requires Sound(p, b') && b'.machine.phase.Executing?
    ensures BodiesInv(p, k', bodies[t := b'])
  {
    hide Sound;
  }

  lemma DispatchApplies(y: Sys, limit: nat)
    requires SysInv(y) && limit <= |y.k.ready|
    ensures Enabled(y, DispatchTask(limit))
    ensures DispatchRuns(y.k, Apply(y, DispatchTask(limit)).k, limit)
  {
    hide Inv, Dispatch, DispatchRuns;
    DispatchedRuns(y.k, limit);
  }

  ghost predicate DispatchRuns(k: Kernel, k': Kernel, limit: nat)
    requires limit <= |k.ready|
  {
    var pr := Urgent(k.ready, limit);
    if pr == limit then k'.tasks == k.tasks
    else k.ready[pr][0] in k.tasks && k'.tasks == k.tasks[k.ready[pr][0] := k.tasks[k.ready[pr][0]].(state := Running)]
  }

  lemma DispatchedRuns(k: Kernel, limit: nat)
    requires Inv(k) && limit <= |k.ready|
    ensures forall p :: 0 <= p < |k.ready| && k.ready[p] != [] ==> k.ready[p][0] in k.tasks
    ensures DispatchRuns(k, Dispatch(k, limit), limit)
  {
    hide Dispatch, ListsInv, BlockedInv, NodesInv;
    HeadsAreTasks(k);
    if Urgent(k.ready, limit) < limit { DispatchEffect(k, limit); } else { NothingDispatched(k, limit); }
  }

  lemma NothingDispatched(k: Kernel, limit: nat)
    requires limit <= |k.ready| && Urgent(k.ready, limit) == limit
    requires forall p :: 0 <= p < |k.ready| && k.ready[p] != [] ==> k.ready[p][0] in k.tasks
    ensures Dispatch(k, limit) == k
  {
  }

  lemma DispatchKeeps(p: Program, w: World, limit: nat, v: Value)
    requires WorldInv(p, w) && limit <= |w.y.k.ready|
    ensures BodiesInv(p, DispatchAct(p, w, limit, v).y.k, DispatchAct(p, w, limit, v).bodies)
  {
    hide Sound, SysInv, Apply, Enabled;
    var pr := Urgent(w.y.k.ready, limit);
    DispatchApplies(w.y, limit);
    if pr < limit {
      HeadSuspended(p, w, pr);
      var t := w.y.k.ready[pr][0];
      BodySteps(p, w.bodies[t], if w.bodies[t].machine.phase.Suspended? then [Reply(v, true)] else []);
      ResumedSound(p, w.bodies[t], v);
      DispatchedBodies(p, w.y.k, DispatchAct(p, w, limit, v).y.k, w.bodies, t, Resumed(p, w.bodies[t], v));
    }
  }

  lemma OtherKeeps(p: Program, w: World, op: Op)
    requires WorldInv(p, w) && !TaskOnly(op) && !op.DispatchTask? && !op.StartTask? && Enabled(w.y, op)
    ensures BodiesInv(p, Apply(w.y, op).k, w.bodies)
  {
    hide Sound;
    if !op.Registers? {
      hide SysInv, Enabled, Apply;
      AfterOp(p, w.y, op, w.bodies, w.bodies);
    }
  }

  lemma ActKeeps(p: Program, api: Api, w: World, a: Act)
    requires WorldInv(p, w) && CanAct(p, api, w, a)
    ensures WorldInv(p, Perform(p, api, w, a))
  {
    hide SysInv, BodiesInv, Enabled, Apply, AskAct, InnerAct, DispatchAct;
    ActEffect(p, api, w, a);
    if OpOf(p, api, w, a).Some? { StepKeeps(w.y, OpOf(p, api, w, a).value); }
    match a
    case Spawn(priority, l) => SpawnKeeps(p, w, priority, l);
    case Asks(v) => AskKeeps(p, api, w, v);
    case Inner => InnerKeeps(p, w);
    case End => EndKeeps(p, w);
    case Resume(limit, v) => DispatchKeeps(p, w, limit, v);
    case Other(op) => OtherKeeps(p, w, op);
  }

  /** Each act is at most one critical section. */
  lemma ActEffect(p: Program, api: Api, w: World, a: Act)
    requires WorldInv(p, w) && CanAct(p, api, w, a)
    ensures OpOf(p, api, w, a).Some? ==> Enabled(w.y, OpOf(p, api, w, a).value)
    ensures Perform(p, api, w, a).y == match OpOf(p, api, w, a) case None => w.y case Some(op) => Apply(w.y, op)
  {
    hide SysInv, Apply;
  }

  // ---------------------------------------------------------------- runs

  ghost predicate Start(w: World) {
    Runs.Initial(w.y) && w.bodies == map[]
  }

  ghost predicate Moves(p: Program, api: Api, w: World, a: Act, w': World) {
    WorldInv(p, w) ==> CanAct(p, api, w, a) && w' == Perform(p, api, w, a)
  }

  ghost predicate Path(p: Program, api: Api, worlds: seq<World>, acts: seq<Act>) {
    && |worlds| == |acts| + 1
    && Start(worlds[0])
    && forall i :: 0 <= i < |acts| ==> Moves(p, api, worlds[i], acts[i], worlds[i + 1])
  }

  /** In every state of every run the tasks of the kernel are those with a body, a task is
      Running exactly while its frames execute, and its frames are what its body and its replies
      make them. */
  lemma {:induction false} RunsAreSound(p: Program, api: Api, worlds: seq<World>, acts: seq<Act>, i: nat)
    requires Path(p, api, worlds, acts) && i < |worlds|
    ensures WorldInv(p, worlds[i])
  {
    hide Perform, CanAct, SysInv, BodiesInv;
    if i == 0 {
      Runs.InitialInv(worlds[0].y);
      NoBodies(p, worlds[0]);
    } else {
      RunsAreSound(p, api, worlds, acts, i - 1);
      assert Moves(p, api, worlds[i - 1], acts[i - 1], worlds[i]);
      ActKeeps(p, api, worlds[i - 1], acts[i - 1]);
    }
  }

  lemma NoBodies(p: Program, w: World)
    requires Start(w)
    ensures BodiesInv(p, w.y.k, w.bodies)
  {
  }

  /** However the tasks are interleaved, preempted and nested: each has made exactly the requests
      that its body makes as a plain program with plain nested calls, given the replies it got;
      and a task that has finished has the result of that program. */
  lemma TasksAreCalls(p: Program, api: Api, worlds: seq<World>, acts: seq<Act>, i: nat, t: TaskId, v: Value, fuel: nat)
    requires Path(p, api, worlds, acts) && i < |worlds| && t in worlds[i].bodies
    requires !worlds[i].bodies[t].machine.phase.Fresh? && fuel >= worlds[i].bodies[t].steps
    ensures var b := worlds[i].bodies[t]; var o := Call(p, b.start, Replies(b.log, b.machine, v), fuel);
            && o.trace == b.machine.trace
            && (b.machine.phase.Finished? ==> o == Done(b.machine.phase.value, b.machine.trace, []))
  {
    hide Path, SysInv, Reached, Call;
    RunsAreSound(p, api, worlds, acts, i);
    var b := worlds[i].bodies[t];
    TaskSoFarIsCall(p, b.start, b.log, b.steps, b.machine, v, fuel);
  }

  /** An act changes no task but the one that acts and the one that is dispatched. */
  lemma OthersWait(p: Program, api: Api, w: World, a: Act, t: TaskId)
    requires WorldInv(p, w) && CanAct(p, api, w, a)
    requires t in w.y.k.tasks && !StillRuns(w.y.k, t)
    requires var k' := Perform(p, api, w, a).y.k; t in k'.tasks && !StillRuns(k', t)
    ensures t in w.bodies && t in Perform(p, api, w, a).bodies && Perform(p, api, w, a).bodies[t] == w.bodies[t]
  {
    hide Sound, Apply, Enabled, Step, ListsInv, BlockedInv, NodesInv;
    assert t < w.y.k.nextId;
    if a.Resume? { DispatchApplies(w.y, a.limit); }
  }

  lemma {:induction false} StaysSuspended(p: Program, api: Api, worlds: seq<World>, acts: seq<Act>, i: nat, j: nat,
                                          t: TaskId)
    requires Path(p, api, worlds, acts) && i <= j < |worlds|
    requires forall m :: i <= m <= j ==> t in worlds[m].y.k.tasks && !StillRuns(worlds[m].y.k, t)
    ensures t in worlds[i].bodies && t in worlds[j].bodies && worlds[j].bodies[t] == worlds[i].bodies[t]
  {
    hide Perform, CanAct, SysInv, Start, Sound, InStep;
    RunsAreSound(p, api, worlds, acts, j);
    if i < j {
      StaysSuspended(p, api, worlds, acts, i, j - 1, t);
      RunsAreSound(p, api, worlds, acts, j - 1);
      assert Moves(p, api, worlds[j - 1], acts[j - 1], worlds[j]);
      OthersWait(p, api, worlds[j - 1], acts[j - 1], t);
    }
  }

  lemma AskSuspends(p: Program, api: Api, w: World, v: Value, t: TaskId)
    requires WorldInv(p, w) && CanAct(p, api, w, Asks(v)) && w.y.k.current == Some(t)
    requires !StillRuns(Perform(p, api, w, Asks(v)).y.k, t)
    ensures var b := w.bodies[t]; var m := b.machine; var w' := Perform(p, api, w, Asks(v));
            && t in w'.bodies && NextOf(p, w).Ask? && m.active in m.frames
            && w'.bodies[t].machine
               == m.(resumePoint := m.active, phase := Suspended, trace := m.trace + [NextOf(p, w).request])
            && w'.bodies[t].log == b.log && w'.bodies[t].start == b.start
  {
    hide Sound, Apply, Enabled;
    assert t < w.y.k.nextId;
    BodySteps(p, w.bodies[t], [Reply(v, true)]);
  }

  lemma ResumeEffect(p: Program, api: Api, w: World, limit: nat, v: Value, t: TaskId)
    requires WorldInv(p, w) && CanAct(p, api, w, Resume(limit, v)) && t in w.bodies
    requires w.bodies[t].machine.phase.Suspended? && StillRuns(Perform(p, api, w, Resume(limit, v)).y.k, t)
    ensures var b := w.bodies[t]; var m := b.machine; var w' := Perform(p, api, w, Resume(limit, v));
            && t in w'.bodies && m.resumePoint in m.frames
            && w'.bodies[t].machine
               == m.(active := m.resumePoint, phase := Executing,
                     frames := m.frames[m.resumePoint := Fed(p, m.frames[m.resumePoint], v)])
            && w'.bodies[t].log == b.log + [Reply(v, true)] && w'.bodies[t].start == b.start
  {
    hide Sound, Apply, Enabled, SysInv;
    DispatchApplies(w.y, limit);
    BodySteps(p, w.bodies[t], [Reply(v, true)]);
  }

  /** A task that suspends in a coroutine, however deeply nested, is resumed in that coroutine by
      the dispatch that next runs it: the resume point stays what was stored, whatever all other
      tasks, nested `run_one` calls and interrupts do meanwhile; the coroutine gets the reply, and
      its other frames are untouched. */
  lemma ResumesWhereItAsked(p: Program, api: Api, worlds: seq<World>, acts: seq<Act>, i: nat, j: nat, t: TaskId)
    requires Path(p, api, worlds, acts) && i < j < |acts|
    requires acts[i].Asks? && worlds[i].y.k.current == Some(t) && t in worlds[i].bodies
    requires forall m :: i < m <= j ==> t in worlds[m].y.k.tasks && !StillRuns(worlds[m].y.k, t)
    requires acts[j].Resume? && StillRuns(worlds[j + 1].y.k, t)
    ensures t in worlds[j].bodies && t in worlds[j + 1].bodies
    ensures var m := worlds[i].bodies[t].machine; var m' := worlds[j + 1].bodies[t].machine;
            && worlds[j].bodies[t].machine.resumePoint == m.active && m.active in m.frames
            && m'.phase.Executing? && m'.active == m.active
            && m'.frames == m.frames[m.active := Fed(p, m.frames[m.active], acts[j].value)]
            && worlds[j + 1].bodies[t].log == worlds[i].bodies[t].log + [Reply(acts[j].value, true)]
  {
    hide Perform, CanAct, WorldInv, StillRuns, Start;
    RunsAreSound(p, api, worlds, acts, i);
    RunsAreSound(p, api, worlds, acts, j);
    assert Moves(p, api, worlds[i], acts[i], worlds[i + 1]);
    assert Moves(p, api, worlds[j], acts[j], worlds[j + 1]);
    AskSuspends(p, api, worlds[i], acts[i].value, t);
    StaysSuspended(p, api, worlds, acts, i + 1, j, t);
    ResumeEffect(p, api, worlds[j], acts[j].limit, acts[j].value, t);
  }

  /** A task keeps its body, and uses replies in the order in which it gets them. */
  lemma BodyGoesOn(p: Program, api: Api, w: World, a: Act, t: TaskId)
    requires WorldInv(p, w) && CanAct(p, api, w, a) && t in w.bodies && t in Perform(p, api, w, a).bodies
    ensures var b, b' := w.bodies[t], Perform(p, api, w, a).bodies[t]; b'.start == b.start && b.log <= b'.log
  {
    hide Sound, Apply, Enabled, Step, ListsInv, BlockedInv, NodesInv;
    assert t < w.y.k.nextId;
  }

  lemma {:induction false} BodyStays(p: Program, api: Api, worlds: seq<World>, acts: seq<Act>, i: nat, j: nat,
                                     t: TaskId)
    requires Path(p, api, worlds, acts) && i <= j < |worlds|
    requires forall m :: i <= m <= j ==> t in worlds[m].bodies
    ensures worlds[j].bodies[t].start == worlds[i].bodies[t].start
    ensures worlds[i].bodies[t].log <= worlds[j].bodies[t].log
  {
    hide Perform, CanAct, WorldInv, Start;
    if i < j {
      BodyStays(p, api, worlds, acts, i, j - 1, t);
      RunsAreSound(p, api, worlds, acts, j - 1);
      assert Moves(p, api, worlds[j - 1], acts[j - 1], worlds[j]);
      BodyGoesOn(p, api, worlds[j - 1], acts[j - 1], t);
    }
  }
}
