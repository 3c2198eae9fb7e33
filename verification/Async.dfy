/** Nested coroutines (include/rtos/task.hpp): frames linked by continuations behave like
    plain nested calls. */
module Async {
  import opened Sequences
  import opened Kernel

  /** The local state of a coroutine body, its program counter included. */
  type Local(!new)

  /** A request to the kernel: a blocking operation with its arguments. */
  type Request(!new)

  type FrameId = nat

  /** What a body does next: ask the kernel, await a nested coroutine, or return. */
  datatype Next = Ask(request: Request) | Await(callee: Local) | Return(value: Value)

  /** The code of all bodies: the next action, and the state after an awaited result. */
  datatype Program = Program(next: Local -> Next, feed: (Local, Value) -> Local)

  /** The kernel's answer to a request, and whether the task was suspended in between. */
  datatype Reply = Reply(value: Value, suspends: bool)

  // ---------------------------------------------------------------- plain nested calls

  datatype Outcome =
    | Done(value: Value, trace: seq<Request>, rest: seq<Reply>)
    | Starved(trace: seq<Request>)
    | Tired(trace: seq<Request>)

  function After(trace: seq<Request>, o: Outcome): Outcome {
    match o
    case Done(v, t, rest) => Done(v, trace + t, rest)
    case Starved(t) => Starved(trace + t)
    case Tired(t) => Tired(trace + t)
  }

  /** Run a body as a function that calls nested bodies directly, as far as the replies and
      the fuel go. */
  function Call(p: Program, l: Local, replies: seq<Reply>, fuel: nat): Outcome
    decreases fuel
  {
    if fuel == 0 then Tired([])
    else
      match p.next(l)
      case Return(v) => Done(v, [], replies)
      case Ask(q) =>
        if replies == [] then Starved([])
        else After([q], Call(p, p.feed(l, replies[0].value), replies[1..], fuel - 1))
      case Await(callee) =>
        var inner := Call(p, callee, replies, fuel - 1);
        if inner.Done? then After(inner.trace, Call(p, p.feed(l, inner.value), inner.rest, fuel - 1)) else inner
  }

  // ---------------------------------------------------------------- frames and continuations

  /** A coroutine frame; a task's own frame has no continuation. */
  datatype Frame = Frame(local: Local, continuation: Option<FrameId>)

  /** A task is created suspended; a suspended task waits for the reply to its request. */
  datatype Phase = Fresh | Executing | Suspended | Finished(value: Value)

  /** `active` is the frame that runs, `resumePoint` what the scheduler resumes. */
  datatype Machine = Machine(
    frames: map<FrameId, Frame>,
    nextFrame: FrameId,
    active: FrameId,
    resumePoint: FrameId,
    phase: Phase,
    trace: seq<Request>)

  function Fed(p: Program, f: Frame, v: Value): Frame {
    f.(local := p.feed(f.local, v))
  }

  /** The frame that runs, or that will be resumed. */
  function Innermost(m: Machine): FrameId {
    if m.phase.Suspended? || m.phase.Fresh? then m.resumePoint else m.active
  }

  /** The next step needs a reply: the task is suspended, or makes a request. */
  predicate Asking(p: Program, m: Machine) {
    m.phase.Suspended? || (m.phase.Executing? && m.active in m.frames && p.next(m.frames[m.active].local).Ask?)
  }

  ghost predicate CanStep(p: Program, m: Machine, replies: seq<Reply>) {
    && Innermost(m) in m.frames
    && (m.frames[Innermost(m)].continuation.Some? ==> m.frames[Innermost(m)].continuation.value in m.frames)
    && (Asking(p, m) ==> replies != [])
  }

  /** One step of a task that has not finished. A blocking awaiter stores the handle of the
      coroutine it was reached from, and takes the reply when that is resumed; awaiting starts
      the nested coroutine; returning transfers back to the continuation, which takes the
      result, and the frame is freed. */
  function Step(p: Program, m: Machine, replies: seq<Reply>): (Machine, seq<Reply>)
    requires CanStep(p, m, replies)
  {
    var f := m.frames[Innermost(m)];
    match m.phase
    case Finished(_) => (m, replies)
    case Fresh => (m.(active := m.resumePoint, phase := Executing), replies)
    case Suspended =>
      (m.(active := m.resumePoint, phase := Executing,
          frames := m.frames[m.resumePoint := Fed(p, f, replies[0].value)]),
       replies[1..])
    case Executing =>
      match p.next(f.local)
      case Ask(q) =>
        if replies[0].suspends then
          (m.(resumePoint := m.active, phase := Suspended, trace := m.trace + [q]), replies)
        else
          (m.(frames := m.frames[m.active := Fed(p, f, replies[0].value)], trace := m.trace + [q]), replies[1..])
      case Await(callee) =>
        (m.(frames := m.frames[m.nextFrame := Frame(callee, Some(m.active))],
            active := m.nextFrame, nextFrame := m.nextFrame + 1),
         replies)
      case Return(v) =>
        if f.continuation == None then (m.(frames := m.frames - {m.active}, phase := Finished(v)), replies)
        else
          var c := f.continuation.value;
          (m.(frames := m.frames[c := Fed(p, m.frames[c], v)] - {m.active}, active := c), replies)
  }

  // ---------------------------------------------------------------- the chain

  /** `ids` are all frames there are, innermost first, each continued by the next one; the
      last is the task's own. */
  ghost predicate IsChain(frames: map<FrameId, Frame>, ids: seq<FrameId>) {
    && ids != [] && NoDup(ids)
    && (forall id :: id in frames <==> id in ids)
    && (forall i :: 0 <= i < |ids| ==> ids[i] in frames && frames[ids[i]].continuation == Continues(ids, i))
  }

  ghost function Continues(ids: seq<FrameId>, i: nat): Option<FrameId> {
    if i + 1 < |ids| then Some(ids[i + 1]) else None
  }

  ghost predicate ChainInv(m: Machine, ids: seq<FrameId>) {
    if m.phase.Finished? then m.frames == map[] && ids == []
    else IsChain(m.frames, ids) && ids[0] == Innermost(m) && forall i :: 0 <= i < |ids| ==> ids[i] < m.nextFrame
  }

  lemma ChainSteps(p: Program, m: Machine, ids: seq<FrameId>, replies: seq<Reply>)
    requires ChainInv(m, ids) && !m.phase.Finished? && (Asking(p, m) ==> replies != [])
    ensures CanStep(p, m, replies)
  {
    assert m.frames[ids[0]].continuation == Continues(ids, 0);
  }

  /** The frames on the chain after a step. */
  ghost function ChainAfter(p: Program, m: Machine, ids: seq<FrameId>): seq<FrameId>
    requires ChainInv(m, ids)
  {
    if !m.phase.Executing? then ids
    else
      match p.next(m.frames[m.active].local)
      case Ask(_) => ids
      case Await(_) => [m.nextFrame] + ids
      case Return(_) => ids[1..]
  }

  lemma UpdateChain(frames: map<FrameId, Frame>, ids: seq<FrameId>, id: FrameId, f: Frame)
    requires IsChain(frames, ids) && id in frames && f.continuation == frames[id].continuation
    ensures IsChain(frames[id := f], ids)
  {
  }

  lemma PushChain(frames: map<FrameId, Frame>, ids: seq<FrameId>, id: FrameId, callee: Local)
    requires IsChain(frames, ids) && id !in frames
    ensures IsChain(frames[id := Frame(callee, Some(ids[0]))], [id] + ids)
  {
    hide NoDup;
    PrependNoDup(ids, id);
    var longer := [id] + ids;
    forall i | 0 <= i < |longer|
      ensures var fs := frames[id := Frame(callee, Some(ids[0]))];
              longer[i] in fs && fs[longer[i]].continuation == Continues(longer, i)
    {
      if i > 0 { assert longer[i] == ids[i - 1] && Continues(longer, i) == Continues(ids, i - 1); }
    }
  }

  lemma PopChain(frames: map<FrameId, Frame>, ids: seq<FrameId>)
    requires IsChain(frames, ids) && |ids| > 1
    ensures IsChain(frames - {ids[0]}, ids[1..])
  {
    var rest := ids[1..];
    forall i | 0 <= i < |rest|
      ensures rest[i] in frames - {ids[0]} && (frames - {ids[0]})[rest[i]].continuation == Continues(rest, i)
    {
      assert rest[i] == ids[i + 1] && Continues(rest, i) == Continues(ids, i + 1);
    }
  }

  /** Every step keeps the chain: it is acyclic, holds every frame there is, starts at the
      innermost coroutine and ends at the task's own frame. */
  lemma StepKeepsChain(p: Program, m: Machine, ids: seq<FrameId>, replies: seq<Reply>)
    requires ChainInv(m, ids) && !m.phase.Finished? && (Asking(p, m) ==> replies != [])
    ensures CanStep(p, m, replies)
    ensures ChainInv(Step(p, m, replies).0, ChainAfter(p, m, ids))
  {
    ChainSteps(p, m, ids, replies);
    if m.phase.Suspended? {
      UpdateChain(m.frames, ids, ids[0], Fed(p, m.frames[ids[0]], replies[0].value));
    } else if m.phase.Executing? {
      match p.next(m.frames[m.active].local)
      case Ask(q) => UpdateChain(m.frames, ids, ids[0], Fed(p, m.frames[ids[0]], replies[0].value));
      case Await(callee) => PushChain(m.frames, ids, m.nextFrame, callee);
      case Return(v) => ReturnKeepsChain(p, m, ids, replies, v);
    }
  }

  lemma ReturnKeepsChain(p: Program, m: Machine, ids: seq<FrameId>, replies: seq<Reply>, v: Value)
    requires ChainInv(m, ids) && m.phase.Executing? && p.next(m.frames[m.active].local) == Return(v)
    requires CanStep(p, m, replies)
    ensures ChainInv(Step(p, m, replies).0, ids[1..])
  {
    hide NoDup;
    if |ids| == 1 {
      assert m.frames[ids[0]].continuation == Continues(ids, 0);
      assert m.frames - {ids[0]} == map[];
    } else {
      var c := ids[1];
      assert m.frames[ids[0]].continuation == Continues(ids, 0);
      UpdateChain(m.frames, ids, c, Fed(p, m.frames[c], v));
      PopChain(m.frames[c := Fed(p, m.frames[c], v)], ids);
    }
  }

  // ---------------------------------------------------------------- runs

  /** `n` steps lead from `m` to `m'`, leaving the replies `rest`. */
  ghost predicate Leads(p: Program, m: Machine, replies: seq<Reply>, n: nat, m': Machine, rest: seq<Reply>)
    decreases n
  {
    if n == 0 then m == m' && replies == rest
    else CanStep(p, m, replies) && Leads(p, Step(p, m, replies).0, Step(p, m, replies).1, n - 1, m', rest)
  }

  lemma {:induction false} LeadsOn(p: Program, m: Machine, replies: seq<Reply>, n: nat,
                                   m1: Machine, rest1: seq<Reply>, n1: nat, m2: Machine, rest2: seq<Reply>)
    requires Leads(p, m, replies, n, m1, rest1) && Leads(p, m1, rest1, n1, m2, rest2)
    ensures Leads(p, m, replies, n + n1, m2, rest2)
    decreases n
  {
    if n > 0 {
      LeadsOn(p, Step(p, m, replies).0, Step(p, m, replies).1, n - 1, m1, rest1, n1, m2, rest2);
    }
  }

  lemma FinishedStops(p: Program, m: Machine, ids: seq<FrameId>, replies: seq<Reply>)
    requires ChainInv(m, ids) && m.phase.Finished?
    ensures !CanStep(p, m, replies)
  {
  }

  /** A finished task has no frame left and takes no step. */
  lemma NoFramesNoSteps(p: Program, m: Machine, replies: seq<Reply>, n: nat, m': Machine, rest: seq<Reply>)
    requires ChainInv(m, []) && Leads(p, m, replies, n, m', rest)
    ensures m' == m
  {
  }

  lemma TaskFrameStays(p: Program, m: Machine, ids: seq<FrameId>)
    requires ChainInv(m, ids) && ids != [] && ChainAfter(p, m, ids) != []
    ensures ChainAfter(p, m, ids)[|ChainAfter(p, m, ids)| - 1] == ids[|ids| - 1]
  {
    hide ChainInv, IsChain;
  }

  /** Along every run from a task's start the chain is in order. */
  lemma {:induction false} RunsKeepChain(p: Program, m: Machine, ids: seq<FrameId>, replies: seq<Reply>, n: nat,
                                         m': Machine, rest: seq<Reply>) returns (ids': seq<FrameId>)
    requires ChainInv(m, ids) && Leads(p, m, replies, n, m', rest)
    ensures ChainInv(m', ids')
    ensures ids != [] && ids' != [] ==> ids'[|ids'| - 1] == ids[|ids| - 1]
    decreases n
  {
    hide Step, IsChain, ChainAfter;
    if n == 0 {
      ids' := ids;
    } else {
      if m.phase.Finished? { FinishedStops(p, m, ids, replies); }
      StepKeepsChain(p, m, ids, replies);
      if ids != [] && ChainAfter(p, m, ids) != [] { TaskFrameStays(p, m, ids); }
      if ChainAfter(p, m, ids) == [] {
        NoFramesNoSteps(p, Step(p, m, replies).0, Step(p, m, replies).1, n - 1, m', rest);
        ids' := [];
      } else {
        ids' := RunsKeepChain(p, Step(p, m, replies).0, ChainAfter(p, m, ids), Step(p, m, replies).1, n - 1, m', rest);
      }
    }
  }

  // ---------------------------------------------------------------- nested frames are nested calls

  /** Frames other than the innermost one are untouched. */
  ghost predicate SameCallers(m: Machine, m': Machine, ids: seq<FrameId>) {
    forall i :: 0 < i < |ids| ==> ids[i] in m.frames && ids[i] in m'.frames && m'.frames[ids[i]] == m.frames[ids[i]]
  }

  ghost predicate At(m: Machine, ids: seq<FrameId>, l: Local, trace: seq<Request>) {
    && m.phase.Executing? && ChainInv(m, ids) && ids != []
    && m.active == ids[0] && m.active in m.frames
    && m.frames[ids[0]].local == l && m.trace == trace
  }

  lemma AskStep(p: Program, m: Machine, ids: seq<FrameId>, replies: seq<Reply>, q: Request)
      returns (n: nat, m': Machine)
    requires m.phase.Executing? && ChainInv(m, ids) && p.next(m.frames[m.active].local) == Ask(q) && replies != []
    ensures n >= 1 && Leads(p, m, replies, n, m', replies[1..])
    ensures At(m', ids, p.feed(m.frames[ids[0]].local, replies[0].value), m.trace + [q]) && SameCallers(m, m', ids)
  {
    StepKeepsChain(p, m, ids, replies);
    var (m1, r1) := Step(p, m, replies);
    if replies[0].suspends {
      StepKeepsChain(p, m1, ids, r1);
      m' := Step(p, m1, r1).0;
      assert Leads(p, m1, r1, 1, m', replies[1..]) by { assert Leads(p, m', replies[1..], 0, m', replies[1..]); }
      n := 2;
    } else {
      m' := m1;
      assert Leads(p, m', r1, 0, m', r1);
      n := 1;
    }
  }

  lemma AwaitStep(p: Program, m: Machine, ids: seq<FrameId>, replies: seq<Reply>, callee: Local) returns (m': Machine)
    requires m.phase.Executing? && ChainInv(m, ids) && p.next(m.frames[m.active].local) == Await(callee)
    ensures Leads(p, m, replies, 1, m', replies)
    ensures At(m', [m.nextFrame] + ids, callee, m.trace)
    ensures forall i :: 0 <= i < |ids| ==>
              ids[i] in m.frames && ids[i] in m'.frames && m'.frames[ids[i]] == m.frames[ids[i]]
  {
    StepKeepsChain(p, m, ids, replies);
    m' := Step(p, m, replies).0;
    assert Leads(p, m', replies, 0, m', replies);
  }

  lemma ReturnStep(p: Program, m: Machine, ids: seq<FrameId>, replies: seq<Reply>, v: Value) returns (m': Machine)
    requires m.phase.Executing? && ChainInv(m, ids) && |ids| > 1 && p.next(m.frames[m.active].local) == Return(v)
    ensures Leads(p, m, replies, 1, m', replies)
    ensures ids[1] in m.frames && At(m', ids[1..], p.feed(m.frames[ids[1]].local, v), m.trace)
    ensures SameCallers(m, m', ids[1..])
  {
    assert m.frames[ids[0]].continuation == Continues(ids, 0);
    StepKeepsChain(p, m, ids, replies);
    m' := Step(p, m, replies).0;
    assert Leads(p, m', replies, 0, m', replies);
    forall i | 0 < i < |ids| - 1
      ensures ids[1..][i] in m.frames && ids[1..][i] in m'.frames && m'.frames[ids[1..][i]] == m.frames[ids[1..][i]]
    {
      assert ids[1..][i] == ids[i + 1];
    }
  }

  /** What running the innermost body with plain nested calls gives, the frames give: the same
      requests in the same order, answered by the same replies, and the same result, with all
      callers as they were. Short of a result the machine has made the same requests and, if
      the replies have run out, stands at a request. */
  ghost predicate Agrees(p: Program, m: Machine, ids: seq<FrameId>, o: Outcome, m': Machine, rest: seq<Reply>,
                         ids': seq<FrameId>) {
    && m'.phase.Executing? && ChainInv(m', ids') && ids' != [] && m'.active == ids'[0] && m'.active in m'.frames
    && m'.trace == m.trace + o.trace
    && match o
       case Done(v, _, r) =>
          rest == r && ids' == ids && SameCallers(m, m', ids) && p.next(m'.frames[ids[0]].local) == Return(v)
       case Starved(_) => rest == [] && p.next(m'.frames[ids'[0]].local).Ask?
       case Tired(_) => true
  }

  lemma Stays(p: Program, m: Machine, ids: seq<FrameId>, replies: seq<Reply>)
    requires m.phase.Executing? && ChainInv(m, ids)
    ensures Leads(p, m, replies, 0, m, replies) && SameCallers(m, m, ids)
    ensures ids != [] && ids[0] == m.active && m.active in m.frames && m.nextFrame !in m.frames
  {
  }

  lemma {:induction false} NestedIsCall(p: Program, m: Machine, ids: seq<FrameId>, replies: seq<Reply>, fuel: nat)
      returns (n: nat, m': Machine, rest: seq<Reply>, ids': seq<FrameId>)
    requires m.phase.Executing? && ChainInv(m, ids)
    ensures Leads(p, m, replies, n, m', rest)
    ensures Agrees(p, m, ids, Call(p, m.frames[m.active].local, replies, fuel), m', rest, ids')
    ensures Call(p, m.frames[m.active].local, replies, fuel).Tired? ==> n >= fuel
    decreases fuel
  {
    hide Step, Leads, ChainInv, IsChain, CanStep, SameCallers;
    n, m', rest, ids' := 0, m, replies, ids;
    Stays(p, m, ids, replies);
    var l := m.frames[m.active].local;
    assert m.trace + [] == m.trace;
    if fuel > 0 {
      match p.next(l)
      case Return(v) =>
      case Ask(q) =>
        if replies != [] {
          var n1, m1 := AskStep(p, m, ids, replies, q);
          var n2: nat;
          n2, m', rest, ids' := NestedIsCall(p, m1, ids, replies[1..], fuel - 1);
          LeadsOn(p, m, replies, n1, m1, replies[1..], n2, m', rest);
          n := n1 + n2;
          AfterAsk(p, m, m1, ids, q, Call(p, p.feed(l, replies[0].value), replies[1..], fuel - 1), m', rest, ids');
        }
      case Await(callee) =>
        n, m', rest, ids' := NestedAwait(p, m, ids, replies, fuel, callee);
    }
  }

  lemma CallersTrans(m: Machine, m1: Machine, m2: Machine, ids: seq<FrameId>)
    requires SameCallers(m, m1, ids) && SameCallers(m1, m2, ids)
    ensures SameCallers(m, m2, ids)
  {
  }

  lemma AfterAsk(p: Program, m: Machine, m1: Machine, ids: seq<FrameId>, q: Request, o: Outcome,
                 m': Machine, rest: seq<Reply>, ids': seq<FrameId>)
    requires Agrees(p, m1, ids, o, m', rest, ids') && m1.trace == m.trace + [q] && SameCallers(m, m1, ids)
    ensures Agrees(p, m, ids, After([q], o), m', rest, ids')
  {
    hide ChainInv, SameCallers;
    assert m.trace + ([q] + o.trace) == (m.trace + [q]) + o.trace;
    if o.Done? { CallersTrans(m, m1, m', ids); }
  }

  lemma NestedAwait(p: Program, m: Machine, ids: seq<FrameId>, replies: seq<Reply>, fuel: nat, callee: Local)
      returns (n: nat, m': Machine, rest: seq<Reply>, ids': seq<FrameId>)
    requires m.phase.Executing? && ChainInv(m, ids) && fuel > 0 && p.next(m.frames[m.active].local) == Await(callee)
    ensures Leads(p, m, replies, n, m', rest)
    ensures Agrees(p, m, ids, Call(p, m.frames[m.active].local, replies, fuel), m', rest, ids')
    ensures Call(p, m.frames[m.active].local, replies, fuel).Tired? ==> n >= fuel
    decreases fuel, 0
  {
    hide Step, Leads, ChainInv, IsChain, CanStep, SameCallers;
    Stays(p, m, ids, replies);
    var l := m.frames[m.active].local;
    var m1 := AwaitStep(p, m, ids, replies, callee);
    var longer := [m.nextFrame] + ids;
    var n2, m2, rest2, ids2 := NestedIsCall(p, m1, longer, replies, fuel - 1);
    LeadsOn(p, m, replies, 1, m1, replies, n2, m2, rest2);
    var inner := Call(p, callee, replies, fuel - 1);
    if inner.Done? {
      assert longer[1..] == ids && longer[1] == ids[0];
      var m3 := ReturnStep(p, m2, longer, rest2, inner.value);
      CallersThrough(m, m1, m2, m3, ids);
      LeadsOn(p, m, replies, 1 + n2, m2, rest2, 1, m3, rest2);
      var n4: nat;
      n4, m', rest, ids' := NestedIsCall(p, m3, ids, rest2, fuel - 1);
      LeadsOn(p, m, replies, 1 + n2 + 1, m3, rest2, n4, m', rest);
      n := 1 + n2 + 1 + n4;
      AfterAwait(p, m, m3, ids, inner, Call(p, p.feed(l, inner.value), inner.rest, fuel - 1), m', rest, ids');
    } else {
      n, m', rest, ids' := 1 + n2, m2, rest2, ids2;
    }
  }

  lemma CallersThrough(m: Machine, m1: Machine, m2: Machine, m3: Machine, ids: seq<FrameId>)
    requires ids != [] && SameCallers(m1, m2, [m.nextFrame] + ids) && SameCallers(m2, m3, ids)
    requires forall i :: 0 <= i < |ids| ==>
               ids[i] in m.frames && ids[i] in m1.frames && m1.frames[ids[i]] == m.frames[ids[i]]
    ensures SameCallers(m, m3, ids)
    ensures ids[0] in m.frames && ids[0] in m2.frames && m2.frames[ids[0]] == m.frames[ids[0]]
  {
    var longer := [m.nextFrame] + ids;
    forall i | 0 <= i < |ids| ensures ids[i] in m2.frames && m2.frames[ids[i]] == m.frames[ids[i]] {
      assert longer[i + 1] == ids[i];
    }
  }

  lemma AfterAwait(p: Program, m: Machine, m3: Machine, ids: seq<FrameId>, inner: Outcome, o: Outcome, m': Machine,
                   rest: seq<Reply>, ids': seq<FrameId>)
    requires Agrees(p, m3, ids, o, m', rest, ids') && m3.trace == m.trace + inner.trace
    requires SameCallers(m, m3, ids)
    ensures Agrees(p, m, ids, After(inner.trace, o), m', rest, ids')
  {
    hide ChainInv, SameCallers;
    assert m.trace + (inner.trace + o.trace) == (m.trace + inner.trace) + o.trace;
    if o.Done? { CallersTrans(m, m3, m', ids); }
  }

  function Begun(l: Local): Machine {
    Machine(map[0 := Frame(l, None)], 1, 0, 0, Fresh, [])
  }

  /** A task whose body, run with plain nested calls, ends with a result makes the same
      requests and ends with the same result, and no frame is left over. */
  lemma TaskIsCall(p: Program, l: Local, replies: seq<Reply>, fuel: nat) returns (n: nat, m': Machine)
    requires Call(p, l, replies, fuel).Done?
    ensures var o := Call(p, l, replies, fuel);
            && Leads(p, Begun(l), replies, n, m', o.rest)
            && m'.phase == Finished(o.value) && m'.trace == o.trace && m'.frames == map[]
  {
    var m := BeginStep(p, l, replies);
    var n1, m1, rest, ids := NestedIsCall(p, m, [0], replies, fuel);
    var o := Call(p, l, replies, fuel);
    TaskEnds(p, m1, rest, o.value);
    m' := Step(p, m1, rest).0;
    assert Leads(p, m', rest, 0, m', rest);
    LeadsOn(p, m, replies, n1, m1, rest, 1, m', rest);
    LeadsOn(p, Begun(l), replies, 1, m, replies, n1 + 1, m', rest);
    n := n1 + 2;
  }

  /** A task that was started runs its body from the beginning. */
  lemma BeginStep(p: Program, l: Local, replies: seq<Reply>) returns (m: Machine)
    ensures Leads(p, Begun(l), replies, 1, m, replies)
    ensures At(m, [0], l, []) && m.nextFrame == 1
  {
    m := Step(p, Begun(l), replies).0;
    assert ChainInv(m, [0]);
    assert Leads(p, m, replies, 0, m, replies);
  }

  lemma TaskEnds(p: Program, m: Machine, rest: seq<Reply>, v: Value)
    requires m.phase.Executing? && ChainInv(m, [0]) && p.next(m.frames[0].local) == Return(v)
    ensures CanStep(p, m, rest)
    ensures var (m', r) := Step(p, m, rest);
            m'.phase == Finished(v) && m'.trace == m.trace && m'.frames == map[] && r == rest
  {
    assert m.frames[0].continuation == Continues([0], 0);
    assert m.frames - {0} == map[];
  }
}
