/** The machine stack of nested `run_one` calls (include/rtos/kernel.hpp:147-182). */
module ResumeStack {
  import opened Sequences
  import opened Kernel

  /** One activation of `run_one`: the task it resumed, with its priority, whether that task has
      suspended (so that `resume` is about to return), and the two registers that `run_one`
      saved on entry. */
  datatype Activation = Activation(
    task: TaskId,
    prio: nat,
    suspended: bool,
    savedCurrent: Option<TaskId>,
    savedPrio: nat)

  /** The task and the priority that activation `i`, the last being the innermost, runs on top of. */
  function CallerTask(stack: seq<Activation>, i: nat): Option<TaskId>
    requires i <= |stack|
  {
    if i == 0 then None else Some(stack[i - 1].task)
  }

  function CallerPrio(stack: seq<Activation>, i: nat): nat
    requires i <= |stack|
  {
    if i == 0 then NO_RUNNING_TASK else stack[i - 1].prio
  }

  /** No task more urgent than `p` is ready. */
  ghost predicate NoneAbove(k: Kernel, p: nat) {
    forall q :: 0 <= q < p && q < |k.ready| ==> k.ready[q] == []
  }

  /** The task is at index `i` of ready list `p`. */
  ghost predicate At(k: Kernel, t: TaskId, p: nat, i: nat) {
    p < |k.ready| && i < |k.ready[p]| && k.ready[p][i] == t
  }

  predicate TopExecutes(stack: seq<Activation>) {
    stack != [] ==> !stack[|stack| - 1].suspended
  }

  /** Marks the innermost activation once its task is no longer running. */
  function Settle(k: Kernel, stack: seq<Activation>): seq<Activation> {
    if stack == [] then stack
    else
      var top := stack[|stack| - 1];
      if top.task in k.tasks && k.tasks[top.task].state == Running then stack
      else stack[|stack| - 1 := top.(suspended := true)]
  }

  // ---------------------------------------------------------------- saved registers

  ghost predicate SavedRight(stack: seq<Activation>, i: nat)
    requires i < |stack|
  {
    stack[i].savedCurrent == CallerTask(stack, i) && stack[i].savedPrio == CallerPrio(stack, i)
  }

  /** Each activation but `broken` has saved the registers of the one below it. */
  ghost predicate Chained(stack: seq<Activation>, broken: Option<nat>) {
    forall i {:trigger SavedRight(stack, i)} :: 0 <= i < |stack| && Some(i) != broken ==> SavedRight(stack, i)
  }

  /** `current` and `running_prio` name the innermost activation. */
  ghost predicate Named(k: Kernel, stack: seq<Activation>) {
    k.current == CallerTask(stack, |stack|) && k.runningPrio == CallerPrio(stack, |stack|)
  }

  lemma SettledSame(k: Kernel, s: seq<Activation>)
    ensures var s' := Settle(k, s);
            && |s'| == |s|
            && (forall i :: 0 <= i < |s| ==> s'[i] == s[i].(suspended := s'[i].suspended))
            && (forall i :: 0 <= i < |s| - 1 ==> s'[i] == s[i])
            && CallerTask(s', |s|) == CallerTask(s, |s|) && CallerPrio(s', |s|) == CallerPrio(s, |s|)
  {
  }

  lemma SettledChained(k: Kernel, s: seq<Activation>, broken: Option<nat>)
    requires Chained(s, broken)
    ensures Chained(Settle(k, s), broken)
  {
    SettledSame(k, s);
    var s' := Settle(k, s);
    forall i | 0 <= i < |s'| && Some(i) != broken ensures SavedRight(s', i) {
      assert SavedRight(s, i);
    }
  }

  lemma PushedChained(s: seq<Activation>, f: Activation, broken: Option<nat>)
    requires Chained(s, broken)
    requires Some(|s|) != broken ==> f.savedCurrent == CallerTask(s, |s|) && f.savedPrio == CallerPrio(s, |s|)
    ensures Chained(s + [f], broken)
    ensures CallerTask(s + [f], |s| + 1) == Some(f.task) && CallerPrio(s + [f], |s| + 1) == f.prio
  {
    var s' := s + [f];
    forall i | 0 <= i < |s'| && Some(i) != broken ensures SavedRight(s', i) {
      if i < |s| { assert SavedRight(s, i); }
    }
  }

  lemma PoppedChained(s: seq<Activation>, broken: Option<nat>)
    requires s != [] && Chained(s, broken)
    ensures Chained(s[..|s| - 1], broken)
  {
    var s' := s[..|s| - 1];
    forall i | 0 <= i < |s'| && Some(i) != broken ensures SavedRight(s', i) {
      assert SavedRight(s, i);
    }
  }

  /** What the innermost activation saved names the one below it. */
  lemma PoppedNamed(k: Kernel, s: seq<Activation>, broken: Option<nat>)
    requires s != [] && Chained(s, broken) && Some(|s| - 1) != broken
    requires k.current == s[|s| - 1].savedCurrent && k.runningPrio == s[|s| - 1].savedPrio
    ensures Named(k, s[..|s| - 1])
  {
    assert SavedRight(s, |s| - 1);
  }

  // ---------------------------------------------------------------- running tasks

  ghost predicate RunningAt(k: Kernel, f: Activation) {
    f.task in k.tasks && k.tasks[f.task].state == Running && k.tasks[f.task].prio == f.prio
  }

  ghost predicate OnStack(stack: seq<Activation>, t: TaskId) {
    exists i :: 0 <= i < |stack| && !stack[i].suspended && stack[i].task == t
  }

  /** The activations that have not suspended belong to distinct tasks, which are Running; no
      other task is. */
  ghost predicate LiveStack(k: Kernel, stack: seq<Activation>) {
    && (forall i, j :: 0 <= i < j < |stack| && !stack[i].suspended && !stack[j].suspended ==>
          stack[i].task != stack[j].task)
    && (forall i :: 0 <= i < |stack| ==> stack[i].task < k.nextId)
    && (forall i :: 0 <= i < |stack| && !stack[i].suspended ==> RunningAt(k, stack[i]))
    && (forall t {:trigger OnStack(stack, t)} :: t in k.tasks && k.tasks[t].state == Running ==> OnStack(stack, t))
  }

  /** Only the running task may stop running by what it calls. */
  lemma SettledLive(k: Kernel, k': Kernel, s: seq<Activation>)
    requires LiveStack(k, s) && TopExecutes(s) && Sched(k, k', k.current) && k.nextId <= k'.nextId
    requires k.current == CallerTask(s, |s|)
    ensures LiveStack(k', Settle(k', s))
  {
    var s' := Settle(k', s);
    forall i | 0 <= i < |s'| && !s'[i].suspended ensures RunningAt(k', s'[i]) {
      assert RunningAt(k, s[i]);
    }
    forall t | t in k'.tasks && k'.tasks[t].state == Running ensures OnStack(s', t) {
      assert OnStack(s, t);
      var i :| 0 <= i < |s| && !s[i].suspended && s[i].task == t;
      assert s'[i] == s[i];
    }
  }

  lemma UntouchedLive(k: Kernel, k': Kernel, s: seq<Activation>)
    requires LiveStack(k, s) && Sched(k, k', None) && k.nextId <= k'.nextId
    ensures LiveStack(k', s)
  {
    forall i | 0 <= i < |s| && !s[i].suspended ensures RunningAt(k', s[i]) {
      assert RunningAt(k, s[i]);
    }
  }

  lemma PushedLive(k: Kernel, k': Kernel, s: seq<Activation>, f: Activation)
    requires LiveStack(k, s) && !f.suspended
    requires ReadyAt(k, f.task, f.prio) && f.task < k.nextId
    requires k'.tasks == k.tasks[f.task := k.tasks[f.task].(state := Running)] && k'.nextId == k.nextId
    ensures LiveStack(k', s + [f])
    ensures forall i :: 0 <= i < |s| && !s[i].suspended ==> s[i].task != f.task
  {
    var s' := s + [f];
    forall i | 0 <= i < |s| && !s[i].suspended ensures s[i].task != f.task && RunningAt(k', s[i]) && s'[i] == s[i] {
      assert RunningAt(k, s[i]);
    }
    forall u | u in k'.tasks && k'.tasks[u].state == Running ensures OnStack(s', u) {
      if u == f.task {
        assert s'[|s|].task == u;
      } else {
        assert OnStack(s, u);
        var i :| 0 <= i < |s| && !s[i].suspended && s[i].task == u;
        assert s'[i] == s[i];
      }
    }
  }

  lemma PoppedLive(k: Kernel, k': Kernel, s: seq<Activation>)
    requires LiveStack(k, s) && s != [] && s[|s| - 1].suspended
    requires k'.tasks == k.tasks && k'.nextId == k.nextId
    ensures LiveStack(k', s[..|s| - 1])
  {
    var s' := s[..|s| - 1];
    forall i | 0 <= i < |s'| && !s'[i].suspended ensures RunningAt(k', s'[i]) {
      assert RunningAt(k, s[i]);
    }
    forall u | u in k'.tasks && k'.tasks[u].state == Running ensures OnStack(s', u) {
      assert OnStack(s, u);
      var i :| 0 <= i < |s| && !s[i].suspended && s[i].task == u;
      assert s'[i] == s[i];
    }
  }
}
