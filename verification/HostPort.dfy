/** The host port (include/rtos/port/host.hpp): nested critical sections, and the emulated
    preemption interrupt that fires when the outermost one ends. */
module HostPort {
  import opened Sequences
  import opened Kernel
  import opened KernelProofs
  import opened Preempt
  import opened ResumeStack
  import opened Scheduling
  import opened System

  class Port {
    const kernel: Scheduler
    var criticalDepth: nat
    var preemptActive: bool
    var entryPrio: nat
    var savedCurrent: Option<TaskId>

    constructor (kernel: Scheduler)
      ensures this.kernel == kernel && criticalDepth == 0 && !preemptActive
    {
      this.kernel := kernel;
      criticalDepth, preemptActive, entryPrio, savedCurrent := 0, false, NO_RUNNING_TASK, None;
    }

    /** The state of the host machine; the machine stack is not in the port's hands. */
    ghost function AsHost(y: Sys, stack: seq<Activation>, held: seq<nat>, mark: nat): Host
      reads this, kernel
    {
      Host(y.(k := kernel.State()), stack, held, preemptActive, mark, entryPrio, savedCurrent, criticalDepth)
    }

    method IrqDisable()
      modifies this
      ensures criticalDepth == old(criticalDepth) + 1
      ensures preemptActive == old(preemptActive) && entryPrio == old(entryPrio) && savedCurrent == old(savedCurrent)
    {
      criticalDepth := criticalDepth + 1;
    }

    /** Leaving a critical section. The outermost one starts a pending handler unless it is
        already active; then the pend stays for the handler's loop. */
    method IrqEnable(ghost y: Sys, ghost stack: seq<Activation>, ghost held: seq<nat>, ghost mark: nat)
        returns (dispatch: bool)
      requires criticalDepth > 0
      modifies this, kernel
      ensures dispatch <==> old(criticalDepth) == 1 && old(kernel.pendingPreempt) && !old(preemptActive)
      ensures AsHost(y, stack, held, if dispatch then |stack| else mark)
              == Unmask(old(AsHost(y, stack, held, mark)).(depth := old(criticalDepth) - 1))
      ensures kernel.resumePoints == old(kernel.resumePoints)
    {
      criticalDepth := criticalDepth - 1;
      dispatch := false;
      if criticalDepth == 0 && kernel.pendingPreempt && !preemptActive {
        dispatch := true;
        preemptActive := true;
        kernel.pendingPreempt := false;
        EnterHandler();
      }
    }

    method EnterHandler()
      modifies this`entryPrio, this`savedCurrent
      ensures entryPrio == kernel.runningPrio && savedCurrent == kernel.current
    {
      entryPrio := kernel.runningPrio;
      savedCurrent := kernel.current;
    }

    /** The end of the handler and of the dispatch loop's turn: the registers are restored, and
        the handler runs again if it was pended meanwhile. */
    method LeaveHandler()
      requires preemptActive
      modifies this, kernel
      ensures kernel.State() ==
              old(kernel.State()).(current := old(savedCurrent), runningPrio := old(entryPrio), pendingPreempt := false)
      ensures preemptActive == old(kernel.pendingPreempt) && kernel.resumePoints == old(kernel.resumePoints)
      ensures entryPrio == old(entryPrio) && savedCurrent == old(savedCurrent) && criticalDepth == old(criticalDepth)
    {
      kernel.LeaveRunOne(savedCurrent, entryPrio);
      if kernel.pendingPreempt {
        kernel.pendingPreempt := false;
        EnterHandler();
      } else {
        preemptActive := false;
      }
    }

    /** One turn of the handler's loop and, once it finds nothing, its end. */
    method Scan(ghost y: Sys, ghost stack: seq<Activation>, ghost held: seq<nat>) returns (t: Option<TaskId>)
      requires Inv(kernel.State()) && preemptActive && criticalDepth == 0
      modifies this, kernel
      ensures HeadsKnown(old(kernel.State()))
      ensures t.Some? ==>
              AsHost(y, Deeper(stack, t.value, kernel.runningPrio, old(kernel.current), old(kernel.runningPrio)),
                     held + [0], |stack|)
              == ScanReady(old(AsHost(y, stack, held, |stack|)))
      ensures t == None ==> AsHost(y, stack, held, |stack|) == ScanReady(old(AsHost(y, stack, held, |stack|)))
      ensures kernel.resumePoints == old(kernel.resumePoints)
      ensures t == None ==> kernel.current == old(savedCurrent) && kernel.runningPrio == old(entryPrio)
    {
      hide Inv, Dispatch, ScanReady, HeadsKnown, ReadyInv;
      ScanEffect(kernel.State(), entryPrio);
      ghost var h := AsHost(y, stack, held, |stack|);
      ScanIs(h);
      t := kernel.DispatchReady(if entryPrio < |kernel.ready| then entryPrio else |kernel.ready|);
      if t == None {
        LeaveHandler();
      }
    }
  }

  ghost function Deeper(stack: seq<Activation>, t: TaskId, prio: nat, current: Option<TaskId>, was: nat)
      : seq<Activation> {
    stack + [Activation(t, prio, false, current, was)]
  }

  /** The host after a scan that found a task, and after one that did not. */
  ghost function Found(h: Host, k': Kernel, t: TaskId): Host {
    var k := h.y.k;
    h.(y := h.y.(k := k'), stack := Deeper(h.stack, t, k'.runningPrio, k.current, k.runningPrio),
       held := h.held + [h.depth])
  }

  ghost function Done(h: Host): Host {
    var k := h.y.k;
    h.(y := h.y.(k := k.(current := h.savedCurrent, runningPrio := h.entryPrio, pendingPreempt := false)),
       active := k.pendingPreempt)
  }

  /** The two outcomes of a scan. */
  lemma ScanIs(h: Host)
    requires Inv(h.y.k)
    ensures HeadsKnown(h.y.k)
    ensures var k := h.y.k; var limit := Limit(k, h.entryPrio); var k' := Dispatch(k, limit);
            Urgent(k.ready, limit) < limit ==> k'.current.Some? && ScanReady(h) == Found(h, k', k'.current.value)
    ensures var k := h.y.k; var limit := Limit(k, h.entryPrio);
            Urgent(k.ready, limit) == limit ==> ScanReady(h) == Done(h)
  {
    hide Inv, Dispatch;
    ScanEffect(h.y.k, h.entryPrio);
  }

  lemma ScanEffect(k: Kernel, entryPrio: nat)
    requires Inv(k)
    ensures ReadyInv(k) && HeadsKnown(k)
    ensures var limit := Limit(k, entryPrio); limit <= |k.ready|
    ensures var limit := Limit(k, entryPrio); var p := Urgent(k.ready, limit);
            && (p < limit ==> Dispatch(k, limit).runningPrio == p && Dispatch(k, limit).current == Some(k.ready[p][0]))
            && (p == limit ==> Dispatch(k, limit) == k)
  {
    HeadsAreTasks(k);
    if Urgent(k.ready, Limit(k, entryPrio)) < Limit(k, entryPrio) { DispatchEffect(k, Limit(k, entryPrio)); }
  }
}
