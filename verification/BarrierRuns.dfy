/** `sync` is a reusable barrier, in every run in which only participants use its bits. */
module BarrierRuns {
  import opened Sequences
  import opened Kernel
  import opened Timer
  import opened Barrier
  import opened BarrierSteps
  import opened Arriving
  import opened System
  import E = EventGroup
  import Runs

  /** The step is the arrival of participant `i`. */
  ghost predicate Joins(k: Kernel, r: Rendezvous, op: Op, i: nat) {
    && i < |r.members| && i < |r.masks| && k.current == Some(r.members[i])
    && op == Sync(r.group, r.masks[i], r.whole)
  }

  /** The step leaves the bits of the rendezvous alone. */
  ghost predicate Foreign(r: Rendezvous, op: Op) {
    && (op.Wait? && op.g == r.group && op.clear ==> E.Disjoint(op.want, r.whole))
    && (op.Sync? && op.g == r.group ==> E.Disjoint(op.bits, r.whole) && E.Disjoint(op.want, r.whole))
    && (op.SetBits? && op.g == r.group ==> E.Disjoint(op.bits, r.whole))
    && (op.ClearBits? && op.g == r.group ==> E.Disjoint(op.bits, r.whole))
  }

  ghost predicate Polite(k: Kernel, r: Rendezvous, op: Op) {
    Foreign(r, op) || exists i :: Joins(k, r, op, i)
  }

  ghost predicate BarrierInv(y: Sys, r: Rendezvous) {
    r.group in y.groups && BarrierOn(y.k, y.groups[r.group], r)
  }

  // ---------------------------------------------------------------- steps

  lemma ForeignGroupOp(k: Kernel, g: E.Group, r: Rendezvous, op: Op)
    requires Inv(k) && E.GroupInv(k, g, GroupWaiters(r.group)) && BarrierOn(k, g, r)
    requires IsGroupOp(op) && op.g == r.group && (TaskOnly(op) ==> InTask(k)) && Foreign(r, op)
    ensures var (k', g') := OnGroup(k, g, op); BarrierOn(k', g', r) && Arrivals(k', r) == Arrivals(k, r)
  {
    hide BarrierOn, Inv, InTask, E.GroupInv, E.Disjoint, E.Wait, E.Sync, E.Set, E.Clear;
    match op
    case Wait(i, want, all, clear, timeout) => Watching(k, g, r, want, all, clear, timeout);
    case Sync(i, bits, want) => ForeignSync(k, g, r, bits, want);
    case SetBits(i, bits) => ForeignSet(k, g, r, bits);
    case ClearBits(i, bits) => ForeignClear(k, g, r, bits);
  }

  lemma ElsewhereOn(k: Kernel, k': Kernel, own: set<ListId>, g: E.Group, r: Rendezvous)
    requires Inv(k) && BarrierOn(k, g, r) && Frame(k, k', own) && GroupWaiters(r.group) !in own
    ensures BarrierOn(k', g, r) && Arrivals(k', r) == Arrivals(k, r)
  {
    ElsewhereKeeps(k, k', own, r);
  }

  lemma TickOn(k: Kernel, g: E.Group, r: Rendezvous)
    requires Inv(k) && BarrierOn(k, g, r)
    ensures BarrierOn(TickIsr(k), g, r) && Arrivals(TickIsr(k), r) == Arrivals(k, r)
  {
    TickKeeps(k, r);
  }

  lemma GroupOpIsCalled(y: Sys, op: Op)
    requires SysInv(y) && Enabled(y, op) && IsGroupOp(op)
    ensures Inv(y.k) && op.g in y.groups && E.GroupInv(y.k, y.groups[op.g], GroupWaiters(op.g))
    ensures TaskOnly(op) ==> InTask(y.k)
  {
    hide Inv, InTask, E.GroupInv;
  }

  lemma GroupOpEffect(y: Sys, op: Op)
    requires Inv(y.k) && (TaskOnly(op) ==> InTask(y.k)) && IsGroupOp(op) && op.g in y.groups
    requires SysInv(y) && Enabled(y, op)
    ensures var (k', g') := OnGroup(y.k, y.groups[op.g], op);
            Apply(y, op) == y.(k := k', groups := y.groups[op.g := g'])
  {
    hide Inv, InTask, SysInv, E.GroupInv, E.Wait, E.Sync, E.Set, E.Clear, OnGroup;
  }

  lemma OtherOpEffect(y: Sys, op: Op, group: nat)
    requires SysInv(y) && Enabled(y, op) && !op.TimerTick? && !(IsGroupOp(op) && op.g == group) && group in y.groups
    ensures GroupWaiters(group) !in Own(op) && Frame(y.k, Apply(y, op).k, Own(op))
    ensures group in Apply(y, op).groups && Apply(y, op).groups[group] == y.groups[group]
  {
    hide SysInv, Frame, OnSemaphore, OnMutex, OnQueue, OnGroup, ApplyKernel;
    Runs.StepFrame(y, op);
  }

  /** A step that is nobody's arrival changes neither who has arrived nor the bits. */
  lemma ForeignStep(y: Sys, op: Op, r: Rendezvous)
    requires SysInv(y) && Enabled(y, op) && BarrierInv(y, r) && Foreign(r, op)
    ensures BarrierInv(Apply(y, op), r) && Arrivals(Apply(y, op).k, r) == Arrivals(y.k, r)
  {
    hide BarrierOn, Arrivals, Inv, Frame, InTask, E.GroupInv, OnGroup, Foreign;
    if IsGroupOp(op) && op.g == r.group {
      GroupOpIsCalled(y, op);
      GroupOpEffect(y, op);
      ForeignGroupOp(y.k, y.groups[op.g], r, op);
    } else if op.TimerTick? {
      TickOn(y.k, y.groups[r.group], r);
    } else {
      OtherOpEffect(y, op, r.group);
      ElsewhereOn(y.k, Apply(y, op).k, Own(op), y.groups[r.group], r);
    }
  }

  lemma JoinStep(y: Sys, op: Op, r: Rendezvous, i: nat)
    requires SysInv(y) && Enabled(y, op) && BarrierInv(y, r) && Joins(y.k, r, op, i)
    ensures BarrierInv(Apply(y, op), r)
    ensures OthersArrived(y.k, r, i) ==> forall j :: 0 <= j < |r.members| ==> !Arrived(Apply(y, op).k, r, j)
    ensures !OthersArrived(y.k, r, i) ==> Arrivals(Apply(y, op).k, r) == Arrivals(y.k, r)[i := true]
  {
    hide E.Sync, BarrierOn;
    GroupOpIsCalled(y, op);
    GroupOpEffect(y, op);
    if OthersArrived(y.k, r, i) {
      LastArrival(y.k, y.groups[r.group], r, i);
    } else {
      EarlyArrival(y.k, y.groups[r.group], r, i);
    }
  }

  // ---------------------------------------------------------------- rounds

  /** How often each participant has arrived, and how often it has been let through. */
  datatype Rounds = Rounds(entered: seq<nat>, completed: seq<nat>)

  ghost predicate Enters(k: Kernel, r: Rendezvous, op: Op, i: nat) {
    Joins(k, r, op, i)
  }

  /** It was waiting, or arrives, and does not wait any longer. */
  ghost predicate Completes(k: Kernel, op: Op, k': Kernel, r: Rendezvous, i: nat)
    requires i < |r.members|
  {
    (Arrived(k, r, i) || Enters(k, r, op, i)) && !Arrived(k', r, i)
  }

  ghost function Record(k: Kernel, op: Op, k': Kernel, r: Rendezvous, h: Rounds): Rounds
    requires |h.entered| == |h.completed| == |r.members|
  {
    Rounds(
      seq(|r.members|, i requires 0 <= i < |r.members| => h.entered[i] + if Enters(k, r, op, i) then 1 else 0),
      seq(|r.members|, i requires 0 <= i < |r.members| => h.completed[i] + if Completes(k, op, k', r, i) then 1 else 0))
  }

  ghost function History(states: seq<Sys>, ops: seq<Op>, r: Rendezvous, m: nat): (h: Rounds)
    requires m < |states| && |states| == |ops| + 1
    ensures |h.entered| == |h.completed| == |r.members|
  {
    if m == 0 then Rounds(seq(|r.members|, i => 0), seq(|r.members|, i => 0))
    else Record(states[m - 1].k, ops[m - 1], states[m].k, r, History(states, ops, r, m - 1))
  }

  /** All participants have completed the same `n` rounds; those waiting have entered the next. */
  ghost predicate InRound(k: Kernel, r: Rendezvous, h: Rounds, n: nat) {
    && |h.entered| == |h.completed| == |r.members|
    && forall i :: 0 <= i < |r.members| ==>
         h.completed[i] == n && h.entered[i] == n + if Arrived(k, r, i) then 1 else 0
  }

  lemma ForeignRound(k: Kernel, op: Op, k': Kernel, r: Rendezvous, h: Rounds, n: nat)
    requires InRound(k, r, h, n) && Arrivals(k', r) == Arrivals(k, r) && forall i :: !Joins(k, r, op, i)
    ensures InRound(k', r, Record(k, op, k', r, h), n)
  {
    hide Arrived, Joins;
    forall i | 0 <= i < |r.members| ensures Arrived(k', r, i) <==> Arrived(k, r, i) {
      assert Arrivals(k', r)[i] == Arrivals(k, r)[i];
    }
  }

  lemma JoinedOnce(k: Kernel, r: Rendezvous, op: Op, i: nat)
    requires Valid(r) && Joins(k, r, op, i)
    ensures forall j :: Joins(k, r, op, j) <==> j == i
  {
  }

  lemma EarlyRound(k: Kernel, op: Op, k': Kernel, r: Rendezvous, h: Rounds, n: nat, i: nat)
    requires InRound(k, r, h, n) && i < |r.members| && !Arrived(k, r, i)
    requires Arrivals(k', r) == Arrivals(k, r)[i := true] && forall j :: Joins(k, r, op, j) <==> j == i
    ensures InRound(k', r, Record(k, op, k', r, h), n)
  {
    hide Arrived, Joins;
    forall j | 0 <= j < |r.members| ensures Arrived(k', r, j) <==> Arrived(k, r, j) || j == i {
      assert Arrivals(k', r)[j] == Arrivals(k, r)[i := true][j];
    }
  }

  lemma LastRound(k: Kernel, op: Op, k': Kernel, r: Rendezvous, h: Rounds, n: nat, i: nat)
    requires InRound(k, r, h, n) && i < |r.members| && !Arrived(k, r, i) && OthersArrived(k, r, i)
    requires forall j :: 0 <= j < |r.members| ==> !Arrived(k', r, j)
    requires forall j :: Joins(k, r, op, j) <==> j == i
    ensures InRound(k', r, Record(k, op, k', r, h), n + 1)
  {
    hide Arrived, Joins;
  }

  lemma NobodyJoins(k: Kernel, r: Rendezvous, op: Op)
    requires Valid(r) && Foreign(r, op)
    ensures forall i :: !Joins(k, r, op, i)
  {
    WholeNonZero(r);
    NotDisjointSelf(r.whole);
  }

  /** A step either leaves the round as it is, or is the arrival that completes it for all. */
  lemma RoundStep(y: Sys, op: Op, r: Rendezvous, h: Rounds, n: nat) returns (n': nat)
    requires SysInv(y) && Enabled(y, op) && BarrierInv(y, r) && Polite(y.k, r, op) && InRound(y.k, r, h, n)
    ensures BarrierInv(Apply(y, op), r)
    ensures InRound(Apply(y, op).k, r, Record(y.k, op, Apply(y, op).k, r, h), n')
    ensures n' == if exists i :: Joins(y.k, r, op, i) && OthersArrived(y.k, r, i) then n + 1 else n
  {
    hide Apply, InRound, Shown, AllTame, Arrivals, IsUnion;
    if Foreign(r, op) {
      NobodyJoins(y.k, r, op);
      ForeignStep(y, op, r);
      ForeignRound(y.k, op, Apply(y, op).k, r, h, n);
      n' := n;
    } else {
      var i :| Joins(y.k, r, op, i);
      JoinedOnce(y.k, r, op, i);
      MemberIsNotWaiting(y.k, r, i);
      JoinStep(y, op, r, i);
      if OthersArrived(y.k, r, i) {
        LastRound(y.k, op, Apply(y, op).k, r, h, n, i);
        n' := n + 1;
      } else {
        EarlyRound(y.k, op, Apply(y, op).k, r, h, n, i);
        n' := n;
      }
    }
  }

  lemma NothingShown(r: Rendezvous, nobody: seq<bool>)
    requires |nobody| == |r.masks| && forall i :: 0 <= i < |nobody| ==> !nobody[i]
    ensures Shown(0, r, nobody)
  {
    forall i | 0 <= i < |r.masks| ensures Reflects(0, r.masks[i], nobody[i]) {
      E.NoneWanted(r.masks[i]);
    }
  }

  lemma InitialBarrier(y: Sys, r: Rendezvous)
    requires Runs.Initial(y) && Valid(r) && r.group in y.groups
    ensures BarrierInv(y, r) && forall i :: 0 <= i < |r.members| ==> !Arrived(y.k, r, i)
  {
    Runs.InitialKernel(y);
    assert Listed(y.k, GroupWaiters(r.group)) == [];
    NothingShown(r, Arrivals(y.k, r));
  }

  /** In every state of every run in which only participants use the bits of the rendezvous,
      these bits are exactly those of the participants that have arrived in the present round,
      and all participants have completed equally many rounds. */
  lemma {:induction false} BarrierOverRuns(states: seq<Sys>, ops: seq<Op>, r: Rendezvous, m: nat) returns (n: nat)
    requires Runs.Run(states, ops) && m < |states| && Valid(r) && r.group in states[0].groups
    requires forall j :: 0 <= j < m ==> Polite(states[j].k, r, ops[j])
    ensures BarrierInv(states[m], r) && InRound(states[m].k, r, History(states, ops, r, m), n)
  {
    hide BarrierOn, SysInv;
    if m == 0 {
      InitialBarrier(states[0], r);
      n := 0;
    } else {
      n := BarrierOverRuns(states, ops, r, m - 1);
      Runs.RunsAreValid(states, ops, m - 1);
      assert Runs.Follows(states[m - 1], ops[m - 1], states[m]);
      n := RoundStep(states[m - 1], ops[m - 1], r, History(states, ops, r, m - 1), n);
    }
  }

  /** Nobody completes a round before everybody has arrived in it, and nobody is left behind
      in an old round, however fast others come back. */
  lemma NobodyAheadNobodyStranded(states: seq<Sys>, ops: seq<Op>, r: Rendezvous, m: nat, i: nat, j: nat)
    requires Runs.Run(states, ops) && m < |states| && Valid(r) && r.group in states[0].groups
    requires forall c :: 0 <= c < m ==> Polite(states[c].k, r, ops[c])
    requires i < |r.members| && j < |r.members|
    ensures var h := History(states, ops, r, m);
            && h.completed[i] <= h.entered[j] && h.completed[i] == h.completed[j]
            && (Arrived(states[m].k, r, i) <==> h.entered[i] == h.completed[i] + 1)
            && (!Arrived(states[m].k, r, i) <==> h.entered[i] == h.completed[i])
  {
    hide Arrived, Joins;
    var n := BarrierOverRuns(states, ops, r, m);
  }
}
