/** The machines of the scheduler are runs of the system: what holds over all runs of `Runs`
    holds along every path of the cooperative scheduler, the host port and the main loop. */
module Embedding {
  import opened Sequences
  import opened Kernel
  import opened KernelProofs
  import opened System
  import opened Timer
  import opened Barrier
  import opened BarrierRuns
  import opened Runs
  import A = Async
  import C = Coroutines
  import H = Preempt
  import HR = PreemptRuns
  import L = MainLoop
  import R = Reentrant
  import RR = ReentrantRuns
  import RS = ResumeStack

  // ---------------------------------------------------------------- steps made of operations

  /** The operations lead from `y` to `y'`, each of them enabled and `good` where it happens. */
  ghost predicate Leads(y: Sys, ops: seq<Op>, y': Sys, good: (Sys, Op) -> bool)
    decreases |ops|
  {
    if ops == [] then y == y'
    else SysInv(y) && Enabled(y, ops[0]) && good(y, ops[0]) && Leads(Apply(y, ops[0]), ops[1..], y', good)
  }

  ghost predicate Woven(ys: seq<Sys>, opss: seq<seq<Op>>, good: (Sys, Op) -> bool) {
    && |ys| == |opss| + 1
    && Initial(ys[0])
    && forall i :: 0 <= i < |opss| ==> Leads(ys[i], opss[i], ys[i + 1], good)
  }

  ghost predicate AllGood(states: seq<Sys>, ops: seq<Op>, good: (Sys, Op) -> bool)
    requires |states| == |ops| + 1
  {
    forall i :: 0 <= i < |ops| ==> good(states[i], ops[i])
  }

  lemma {:induction false} Extend(states: seq<Sys>, ops: seq<Op>, more: seq<Op>, y': Sys, good: (Sys, Op) -> bool)
      returns (states': seq<Sys>, ops': seq<Op>)
    requires Run(states, ops) && AllGood(states, ops, good) && Leads(states[|ops|], more, y', good)
    ensures Run(states', ops') && AllGood(states', ops', good) && states <= states' && ops' == ops + more
    ensures states'[|ops'|] == y'
    decreases |more|
  {
    hide SysInv, Initial, Apply, Enabled;
    if more == [] {
      states', ops' := states, ops;
    } else {
      var y1 := Apply(states[|ops|], more[0]);
      var longer, opsLonger := states + [y1], ops + [more[0]];
      forall i | 0 <= i < |opsLonger|
        ensures Follows(longer[i], opsLonger[i], longer[i + 1]) && good(longer[i], opsLonger[i])
      {
        if i < |ops| { assert Follows(states[i], ops[i], states[i + 1]); }
      }
      states', ops' := Extend(longer, opsLonger, more[1..], y', good);
      assert ops + more == opsLonger + more[1..];
    }
  }

  /** Where the states of a path are found again in a run. */
  ghost predicate Placed(ys: seq<Sys>, states: seq<Sys>, at: seq<nat>) {
    && |at| == |ys|
    && (forall i :: 0 <= i < |ys| ==> at[i] < |states| && states[at[i]] == ys[i])
    && (forall i, j :: 0 <= i <= j < |ys| ==> at[i] <= at[j])
  }

  /** A path whose steps are made of operations is a run of the system. */
  lemma {:induction false} Weave(ys: seq<Sys>, opss: seq<seq<Op>>, good: (Sys, Op) -> bool)
      returns (states: seq<Sys>, ops: seq<Op>, at: seq<nat>)
    requires Woven(ys, opss, good)
    ensures Run(states, ops) && AllGood(states, ops, good) && Placed(ys, states, at) && at[|opss|] == |ops|
    ensures states[0] == ys[0]
    decreases |opss|
  {
    hide Initial, Leads, Follows;
    if opss == [] {
      states, ops, at := ys, [], [0];
    } else {
      var n := |opss| - 1;
      forall i | 0 <= i < n ensures Leads(ys[..n + 1][i], opss[..n][i], ys[..n + 1][i + 1], good) {
        assert Leads(ys[i], opss[i], ys[i + 1], good);
      }
      var before, opsBefore, atBefore := Weave(ys[..n + 1], opss[..n], good);
      assert before[atBefore[n]] == ys[..n + 1][n] == ys[n];
      states, ops := Extend(before, opsBefore, opss[n], ys[n + 1], good);
      at := atBefore + [|ops|];
      forall i | 0 <= i < |ys| ensures at[i] < |states| && states[at[i]] == ys[i] {
        if i <= n { assert before[atBefore[i]] == ys[..n + 1][i]; }
      }
    }
  }

  // ---------------------------------------------------------------- what carries over

  ghost function Short(): (Sys, Op) -> bool {
    (y: Sys, op: Op) => ShortOp(op)
  }

  ghost function Any(): (Sys, Op) -> bool {
    (y: Sys, op: Op) => true
  }

  ghost function PoliteTo(r: Rendezvous): (Sys, Op) -> bool {
    (y: Sys, op: Op) => Polite(y.k, r, op)
  }

  lemma WovenPunctual(ys: seq<Sys>, opss: seq<seq<Op>>, i: nat)
    requires Woven(ys, opss, Short()) && i < |ys|
    ensures SysInv(ys[i]) && TimeInv(ys[i].k) && Punctual(ys[i].k)
  {
    var states, ops, at := Weave(ys, opss, Short());
    forall j | 0 <= j < at[i] ensures ShortOp(ops[j]) {
      assert Short()(states[j], ops[j]);
    }
    RunsArePunctual(states, ops, at[i]);
    RunsAreValid(states, ops, at[i]);
  }

  lemma WovenOutcomes(ys: seq<Sys>, opss: seq<seq<Op>>, i: nat, j: nat, n: NodeId)
    requires Woven(ys, opss, Any()) && i <= j < |ys|
    requires n in ys[i].k.nodes && ys[i].k.nodes[n].wakes == 1
    ensures n in ys[j].k.nodes && ys[j].k.nodes[n] == ys[i].k.nodes[n]
  {
    var states, ops, at := Weave(ys, opss, Any());
    OutcomesAreFinal(states, ops, at[i], at[j], n);
  }

  /** The state belongs to a run in which the bits are those of the arrived and all participants
      have completed the same number of rounds. */
  ghost predicate InBarrier(y: Sys, r: Rendezvous, states: seq<Sys>, ops: seq<Op>, at: nat, n: nat) {
    && Run(states, ops) && at < |states| && states[at] == y
    && BarrierInv(y, r) && InRound(y.k, r, History(states, ops, r, at), n)
  }

  lemma WovenBarrier(ys: seq<Sys>, opss: seq<seq<Op>>, r: Rendezvous, i: nat)
      returns (states: seq<Sys>, ops: seq<Op>, at: seq<nat>, n: nat)
    requires Woven(ys, opss, PoliteTo(r)) && i < |ys| && Valid(r) && r.group in ys[0].groups
    ensures Placed(ys, states, at) && InBarrier(ys[i], r, states, ops, at[i], n)
  {
    states, ops, at := Weave(ys, opss, PoliteTo(r));
    forall j | 0 <= j < at[i] ensures Polite(states[j].k, r, ops[j]) {
      assert PoliteTo(r)(states[j], ops[j]);
    }
    n := BarrierOverRuns(states, ops, r, at[i]);
  }

  /** Scheduling as such is never what a restriction on operations is about. */
  ghost predicate Lenient(good: (Sys, Op) -> bool) {
    forall y, op :: IsControl(op) ==> good(y, op)
  }

  lemma AllLenient(r: Rendezvous)
    ensures Lenient(Short()) && Lenient(Any()) && Lenient(PoliteTo(r))
  {
  }

  lemma One(y: Sys, op: Op, good: (Sys, Op) -> bool)
    requires SysInv(y) && Enabled(y, op) && good(y, op)
    ensures Leads(y, [op], Apply(y, op), good)
  {
    hide SysInv, Enabled, Apply;
    assert Leads(Apply(y, op), [], Apply(y, op), good);
  }

  lemma Nothing(y: Sys, good: (Sys, Op) -> bool)
    ensures Leads(y, [], y, good)
  {
  }

  /** If the act is an operation of a task or of an interrupt, it is `good`. */
  ghost predicate GoodIf(y: Sys, op: Option<Op>, good: (Sys, Op) -> bool) {
    op.Some? ==> good(y, op.value)
  }

  // ---------------------------------------------------------------- the cooperative scheduler

  function Requested(a: R.Act): Option<Op> {
    if a.Code? || a.Interrupt? then Some(a.op) else None
  }

  ghost function ReentrantOps(m: R.Machine, a: R.Act): seq<Op>
    requires a.Return? ==> m.stack != []
  {
    match a
    case Code(op) => [op]
    case Interrupt(op) => [op]
    case CallRunOne => if L.AnyReady(m.y.k) then [DispatchTask(|m.y.k.ready|)] else []
    case Return => [Registers(R.Top(m).savedCurrent, R.Top(m).savedPrio, m.y.k.pendingPreempt)]
  }

  lemma ReentrantLeads(m: R.Machine, a: R.Act, good: (Sys, Op) -> bool)
    requires SysInv(m.y) && R.CanAct(m, a) && GoodIf(m.y, Requested(a), good) && Lenient(good)
    ensures Leads(m.y, ReentrantOps(m, a), R.Perform(m, a).y, good)
  {
    hide SysInv, Leads, Apply;
    match a
    case Code(op) => One(m.y, op, good);
    case Interrupt(op) => One(m.y, op, good);
    case CallRunOne =>
      if L.AnyReady(m.y.k) { One(m.y, DispatchTask(|m.y.k.ready|), good); } else { Nothing(m.y, good); }
    case Return => One(m.y, Registers(R.Top(m).savedCurrent, R.Top(m).savedPrio, m.y.k.pendingPreempt), good);
  }

  ghost predicate CooperativePath(states: seq<R.Machine>, acts: seq<R.Act>, good: (Sys, Op) -> bool) {
    && RR.Path(states, acts) && RR.Start(states[0])
    && forall i :: 0 <= i < |acts| ==> GoodIf(states[i].y, Requested(acts[i]), good)
  }

  ghost function CooperativeStates(states: seq<R.Machine>): (ys: seq<Sys>)
    ensures |ys| == |states| && forall i :: 0 <= i < |states| ==> ys[i] == states[i].y
  {
    seq(|states|, i requires 0 <= i < |states| => states[i].y)
  }

  lemma CooperativeWeaves(states: seq<R.Machine>, acts: seq<R.Act>, good: (Sys, Op) -> bool)
      returns (opss: seq<seq<Op>>)
    requires CooperativePath(states, acts, good) && Lenient(good)
    ensures Woven(CooperativeStates(states), opss, good)
  {
    hide SysInv, R.Disciplined, R.CanAct, R.Perform, Leads, Initial;
    opss := [];
    RR.StartInv(states[0]);
    while |opss| < |acts|
      invariant |opss| <= |acts|
      invariant forall i :: 0 <= i < |opss| ==> Leads(states[i].y, opss[i], states[i + 1].y, good)
    {
      var i := |opss|;
      RR.RunsAreDisciplined(states, acts, i);
      assert RR.Moves(states[i], acts[i], states[i + 1]);
      ReturnHasTop(states[i], acts[i]);
      ReentrantLeads(states[i], acts[i], good);
      opss := opss + [ReentrantOps(states[i], acts[i])];
    }
  }

  lemma ReturnHasTop(m: R.Machine, a: R.Act)
    requires R.CanAct(m, a)
    ensures a.Return? ==> m.stack != []
  {
  }

  // ---------------------------------------------------------------- the host port

  function HostRequested(a: H.Act): Option<Op> {
    if a.Code? || a.Interrupt? then Some(a.op) else None
  }

  /** Taking the pend away when the handler starts. */
  ghost function UnmaskOps(h: H.Host): seq<Op> {
    if H.Unmask(h) == h then [] else [Registers(h.y.k.current, h.y.k.runningPrio, false)]
  }

  lemma UnmaskLeads(h: H.Host, good: (Sys, Op) -> bool)
    requires SysInv(h.y) && Lenient(good)
    ensures Leads(h.y, UnmaskOps(h), H.Unmask(h).y, good)
  {
    hide SysInv, Leads;
    if H.Unmask(h) == h {
      Nothing(h.y, good);
    } else {
      One(h.y, Registers(h.y.k.current, h.y.k.runningPrio, false), good);
    }
  }

  lemma Then(y: Sys, op: Op, ops: seq<Op>, y': Sys, good: (Sys, Op) -> bool)
    requires SysInv(y) && Enabled(y, op) && good(y, op) && Leads(Apply(y, op), ops, y', good)
    ensures Leads(y, [op] + ops, y', good)
  {
    hide SysInv, Enabled, Apply;
    assert ([op] + ops)[1..] == ops;
  }

  ghost function HostOps(h: H.Host, a: H.Act): seq<Op>
    requires SysInv(h.y) && |h.held| == |h.stack| && H.CanAct(h, a)
  {
    match a
    case Code(op) =>
      var y' := Apply(h.y, op); [op] + UnmaskOps(h.(y := y', stack := RS.Settle(y'.k, h.stack)))
    case Interrupt(op) => [op] + UnmaskOps(h.(y := Apply(h.y, op)))
    case Disable => []
    case Enable => UnmaskOps(h.(depth := h.depth - 1))
    case RunOne => if L.AnyReady(h.y.k) then [DispatchTask(|h.y.k.ready|)] else []
    case Return => [Registers(H.Top(h).savedCurrent, H.Top(h).savedPrio, h.y.k.pendingPreempt)]
    case Scan =>
      var limit := H.Limit(h.y.k, h.entryPrio);
      if Urgent(h.y.k.ready, limit) < limit then [DispatchTask(limit)]
      else [Registers(h.savedCurrent, h.entryPrio, false)]
    case HandlerResumes => []
  }

  lemma HostCodeLeads(h: H.Host, op: Op, stack: seq<RS.Activation>, good: (Sys, Op) -> bool)
    requires SysInv(h.y) && Enabled(h.y, op) && good(h.y, op) && Lenient(good)
    ensures var h' := h.(y := Apply(h.y, op), stack := stack);
            Leads(h.y, [op] + UnmaskOps(h'), H.Unmask(h').y, good)
  {
    hide SysInv, Enabled, Apply, Leads, UnmaskOps;
    StepKeeps(h.y, op);
    var h' := h.(y := Apply(h.y, op), stack := stack);
    UnmaskLeads(h', good);
    Then(h.y, op, UnmaskOps(h'), H.Unmask(h').y, good);
  }

  lemma DispatchLeads(y: Sys, limit: nat, good: (Sys, Op) -> bool)
    requires SysInv(y) && limit <= |y.k.ready| && Lenient(good)
    ensures H.HeadsKnown(y.k) && Leads(y, [DispatchTask(limit)], y.(k := Dispatch(y.k, limit)), good)
  {
    HeadsAreTasks(y.k);
    hide SysInv, Leads;
    One(y, DispatchTask(limit), good);
  }

  lemma RegistersLead(y: Sys, current: Option<TaskId>, prio: nat, pending: bool, good: (Sys, Op) -> bool)
    requires SysInv(y) && Lenient(good)
    ensures Leads(y, [Registers(current, prio, pending)],
                  y.(k := y.k.(current := current, runningPrio := prio, pendingPreempt := pending)), good)
  {
    hide SysInv, Leads;
    One(y, Registers(current, prio, pending), good);
  }

  lemma HostLeads(h: H.Host, a: H.Act, good: (Sys, Op) -> bool)
    requires H.HostInv(h) && |h.held| == |h.stack| && H.CanAct(h, a) && Lenient(good)
    requires GoodIf(h.y, HostRequested(a), good)
    ensures Leads(h.y, HostOps(h, a), H.Perform(h, a).y, good)
  {
    hide SysInv, Leads, Apply, Enabled, H.Controlled, UnmaskOps, H.Unmask, RS.Settle, Lenient, Dispatch;
    match a
    case Code(op) => HostCodeLeads(h, op, RS.Settle(Apply(h.y, op).k, h.stack), good);
    case Interrupt(op) => HostCodeLeads(h, op, h.stack, good);
    case Disable => Nothing(h.y, good);
    case Enable => UnmaskLeads(h.(depth := h.depth - 1), good);
    case RunOne =>
      H.RunOneKeeps(h);
      if L.AnyReady(h.y.k) { DispatchLeads(h.y, |h.y.k.ready|, good); } else { Nothing(h.y, good); }
    case Return => RegistersLead(h.y, H.Top(h).savedCurrent, H.Top(h).savedPrio, h.y.k.pendingPreempt, good);
    case Scan =>
      var limit := H.Limit(h.y.k, h.entryPrio);
      if Urgent(h.y.k.ready, limit) < limit {
        DispatchLeads(h.y, limit, good);
      } else {
        RegistersLead(h.y, h.savedCurrent, h.entryPrio, false, good);
      }
    case HandlerResumes => Nothing(h.y, good);
  }

  ghost predicate HostPath(states: seq<H.Host>, acts: seq<H.Act>, good: (Sys, Op) -> bool) {
    && HR.Path(states, acts)
    && forall i :: 0 <= i < |acts| ==> GoodIf(states[i].y, HostRequested(acts[i]), good)
  }

  ghost function HostStates(states: seq<H.Host>): (ys: seq<Sys>)
    ensures |ys| == |states| && forall i :: 0 <= i < |states| ==> ys[i] == states[i].y
  {
    seq(|states|, i requires 0 <= i < |states| => states[i].y)
  }

  lemma HostWeaves(states: seq<H.Host>, acts: seq<H.Act>, good: (Sys, Op) -> bool) returns (opss: seq<seq<Op>>)
    requires HostPath(states, acts, good) && Lenient(good)
    ensures Woven(HostStates(states), opss, good)
  {
    hide H.HostInv, H.CanAct, H.Perform, Leads, Initial, HostOps;
    opss := [];
    while |opss| < |acts|
      invariant |opss| <= |acts|
      invariant forall i :: 0 <= i < |opss| ==> Leads(states[i].y, opss[i], states[i + 1].y, good)
    {
      var i := |opss|;
      HR.RunsAreControlled(states, acts, i);
      assert HR.Moves(states[i], acts[i], states[i + 1]);
      HostIsSys(states[i]);
      HostLeads(states[i], acts[i], good);
      opss := opss + [HostOps(states[i], acts[i])];
    }
  }

  lemma HostIsSys(h: H.Host)
    requires H.HostInv(h)
    ensures SysInv(h.y)
  {
  }

  // ---------------------------------------------------------------- the main loop

  ghost function LoopOps(s: L.Loop, a: L.Step): seq<Op>
    requires L.LoopInv(s) && L.CanStep(s, a)
  {
    match a
    case Raise(_) => []
    case Service => HostOps(s.h, H.Interrupt(s.pending[0]))
    case Next => if L.OwnAct(s.at).Some? then HostOps(s.h, L.OwnAct(s.at).value) else []
    case Inner(act) => HostOps(s.h, act)
  }

  function LoopRequested(s: L.Loop, a: L.Step): Option<Op> {
    if L.HostAct(s, a).Some? then HostRequested(L.HostAct(s, a).value) else None
  }

  lemma LoopLeads(s: L.Loop, a: L.Step, good: (Sys, Op) -> bool)
    requires L.LoopInv(s) && L.CanStep(s, a) && GoodIf(s.h.y, LoopRequested(s, a), good) && Lenient(good)
    ensures Leads(s.h.y, LoopOps(s, a), L.Take(s, a).h.y, good)
  {
    hide H.HostInv, L.Grounded, L.PlaceInv, L.HandlersInv, Leads, H.Perform, HostOps, Lenient;
    L.Simulates(s, a);
    match L.HostAct(s, a)
    case None => Nothing(s.h.y, good);
    case Some(act) => HostLeads(s.h, act, good);
  }

  ghost predicate LoopPath(states: seq<L.Loop>, steps: seq<L.Step>, good: (Sys, Op) -> bool) {
    && L.Path(states, steps)
    && forall i :: 0 <= i < |steps| ==> GoodIf(states[i].h.y, LoopRequested(states[i], steps[i]), good)
  }

  ghost function LoopStates(states: seq<L.Loop>): (ys: seq<Sys>)
    ensures |ys| == |states| && forall i :: 0 <= i < |states| ==> ys[i] == states[i].h.y
  {
    seq(|states|, i requires 0 <= i < |states| => states[i].h.y)
  }

  lemma LoopWeaves(states: seq<L.Loop>, steps: seq<L.Step>, good: (Sys, Op) -> bool) returns (opss: seq<seq<Op>>)
    requires LoopPath(states, steps, good) && Lenient(good)
    ensures Woven(LoopStates(states), opss, good)
  {
    hide L.LoopInv, L.CanStep, L.Take, Leads, Initial, LoopOps;
    opss := [];
    while |opss| < |steps|
      invariant |opss| <= |steps|
      invariant forall i :: 0 <= i < |opss| ==> Leads(states[i].h.y, opss[i], states[i + 1].h.y, good)
    {
      var i := |opss|;
      L.LoopsAreValid(states, steps, i);
      assert L.Moves(states[i], steps[i], states[i + 1]);
      LoopLeads(states[i], steps[i], good);
      opss := opss + [LoopOps(states[i], steps[i])];
    }
  }

  // ---------------------------------------------------------------- many coroutines

  ghost function WorldOps(p: A.Program, api: C.Api, w: C.World, a: C.Act): seq<Op>
    requires C.CanAct(p, api, w, a)
  {
    match C.OpOf(p, api, w, a)
    case None => []
    case Some(op) => [op]
  }

  ghost function WorldStates(worlds: seq<C.World>): (ys: seq<Sys>)
    ensures |ys| == |worlds| && forall i :: 0 <= i < |worlds| ==> ys[i] == worlds[i].y
  {
    seq(|worlds|, i requires 0 <= i < |worlds| => worlds[i].y)
  }

  lemma WorldLeads(p: A.Program, api: C.Api, w: C.World, a: C.Act)
    requires C.WorldInv(p, w) && C.CanAct(p, api, w, a)
    ensures Leads(w.y, WorldOps(p, api, w, a), C.Perform(p, api, w, a).y, Any())
  {
    hide SysInv, Apply, Enabled, C.BodiesInv, C.CanAct, C.Perform, Leads;
    C.ActEffect(p, api, w, a);
    match C.OpOf(p, api, w, a)
    case None => Nothing(w.y, Any());
    case Some(op) => One(w.y, op, Any());
  }

  /** What many coroutine tasks do is a run of critical sections, too. */
  lemma WorldWeaves(p: A.Program, api: C.Api, worlds: seq<C.World>, acts: seq<C.Act>) returns (opss: seq<seq<Op>>)
    requires C.Path(p, api, worlds, acts)
    ensures Woven(WorldStates(worlds), opss, Any())
  {
    hide C.WorldInv, C.CanAct, C.Perform, Leads, Initial, WorldOps;
    opss := [];
    while |opss| < |acts|
      invariant |opss| <= |acts|
      invariant forall i :: 0 <= i < |opss| ==> Leads(worlds[i].y, opss[i], worlds[i + 1].y, Any())
    {
      var i := |opss|;
      C.RunsAreSound(p, api, worlds, acts, i);
      assert C.Moves(p, api, worlds[i], acts[i], worlds[i + 1]);
      WorldLeads(p, api, worlds[i], acts[i]);
      opss := opss + [WorldOps(p, api, worlds[i], acts[i])];
    }
  }

  // ---------------------------------------------------------------- carried over

  /** On the cooperative scheduler, at any nesting of `run_one`, the timer is true and nobody is
      woken early or left behind. */
  lemma CooperativePunctual(states: seq<R.Machine>, acts: seq<R.Act>, i: nat)
    requires CooperativePath(states, acts, Short()) && i < |states|
    ensures TimeInv(states[i].y.k) && Punctual(states[i].y.k)
  {
    AllLenient(Rendezvous(0, [], [], 0));
    var opss := CooperativeWeaves(states, acts, Short());
    WovenPunctual(CooperativeStates(states), opss, i);
  }

  /** So it is on the host port, whatever the handler interrupts. */
  lemma HostPunctual(states: seq<H.Host>, acts: seq<H.Act>, i: nat)
    requires HostPath(states, acts, Short()) && i < |states|
    ensures TimeInv(states[i].y.k) && Punctual(states[i].y.k)
  {
    AllLenient(Rendezvous(0, [], [], 0));
    var opss := HostWeaves(states, acts, Short());
    WovenPunctual(HostStates(states), opss, i);
  }

  /** And in the main loop, asleep or not. */
  lemma LoopPunctual(states: seq<L.Loop>, steps: seq<L.Step>, i: nat)
    requires LoopPath(states, steps, Short()) && i < |states|
    ensures TimeInv(states[i].h.y.k) && Punctual(states[i].h.y.k)
  {
    AllLenient(Rendezvous(0, [], [], 0));
    var opss := LoopWeaves(states, steps, Short());
    WovenPunctual(LoopStates(states), opss, i);
  }

  /** An outcome is final until its task runs again, however the scheduler gets there. */
  lemma CooperativeOutcomes(states: seq<R.Machine>, acts: seq<R.Act>, i: nat, j: nat, n: NodeId)
    requires CooperativePath(states, acts, Any()) && i <= j < |states|
    requires n in states[i].y.k.nodes && states[i].y.k.nodes[n].wakes == 1
    ensures n in states[j].y.k.nodes && states[j].y.k.nodes[n] == states[i].y.k.nodes[n]
  {
    AllLenient(Rendezvous(0, [], [], 0));
    var opss := CooperativeWeaves(states, acts, Any());
    WovenOutcomes(CooperativeStates(states), opss, i, j, n);
  }

  lemma HostOutcomes(states: seq<H.Host>, acts: seq<H.Act>, i: nat, j: nat, n: NodeId)
    requires HostPath(states, acts, Any()) && i <= j < |states|
    requires n in states[i].y.k.nodes && states[i].y.k.nodes[n].wakes == 1
    ensures n in states[j].y.k.nodes && states[j].y.k.nodes[n] == states[i].y.k.nodes[n]
  {
    AllLenient(Rendezvous(0, [], [], 0));
    var opss := HostWeaves(states, acts, Any());
    WovenOutcomes(HostStates(states), opss, i, j, n);
  }

  lemma LoopOutcomes(states: seq<L.Loop>, steps: seq<L.Step>, i: nat, j: nat, n: NodeId)
    requires LoopPath(states, steps, Any()) && i <= j < |states|
    requires n in states[i].h.y.k.nodes && states[i].h.y.k.nodes[n].wakes == 1
    ensures n in states[j].h.y.k.nodes && states[j].h.y.k.nodes[n] == states[i].h.y.k.nodes[n]
  {
    AllLenient(Rendezvous(0, [], [], 0));
    var opss := LoopWeaves(states, steps, Any());
    WovenOutcomes(LoopStates(states), opss, i, j, n);
  }

  /** The barrier holds under each of the schedulers. */
  lemma CooperativeBarrier(states: seq<R.Machine>, acts: seq<R.Act>, r: Rendezvous, i: nat)
      returns (run: seq<Sys>, ops: seq<Op>, at: seq<nat>, n: nat)
    requires CooperativePath(states, acts, PoliteTo(r)) && i < |states| && Valid(r) && r.group in states[0].y.groups
    ensures Placed(CooperativeStates(states), run, at) && InBarrier(states[i].y, r, run, ops, at[i], n)
  {
    AllLenient(r);
    var opss := CooperativeWeaves(states, acts, PoliteTo(r));
    run, ops, at, n := WovenBarrier(CooperativeStates(states), opss, r, i);
  }

  lemma HostBarrier(states: seq<H.Host>, acts: seq<H.Act>, r: Rendezvous, i: nat)
      returns (run: seq<Sys>, ops: seq<Op>, at: seq<nat>, n: nat)
    requires HostPath(states, acts, PoliteTo(r)) && i < |states| && Valid(r) && r.group in states[0].y.groups
    ensures Placed(HostStates(states), run, at) && InBarrier(states[i].y, r, run, ops, at[i], n)
  {
    AllLenient(r);
    var opss := HostWeaves(states, acts, PoliteTo(r));
    run, ops, at, n := WovenBarrier(HostStates(states), opss, r, i);
  }

  lemma LoopBarrier(states: seq<L.Loop>, steps: seq<L.Step>, r: Rendezvous, i: nat)
      returns (run: seq<Sys>, ops: seq<Op>, at: seq<nat>, n: nat)
    requires LoopPath(states, steps, PoliteTo(r)) && i < |states| && Valid(r) && r.group in states[0].h.y.groups
    ensures Placed(LoopStates(states), run, at) && InBarrier(states[i].h.y, r, run, ops, at[i], n)
  {
    AllLenient(r);
    var opss := LoopWeaves(states, steps, PoliteTo(r));
    run, ops, at, n := WovenBarrier(LoopStates(states), opss, r, i);
  }
}
