/** A task as such: what it has done is determined by its body and by the replies it got. */
module Sequential {
  import opened Kernel
  import opened Async

  // ---------------------------------------------------------------- more replies, fewer steps

  /** Replies that come later do not change what has happened. */
  lemma {:induction false} LeadsMore(p: Program, m: Machine, replies: seq<Reply>, n: nat, m': Machine, rest: seq<Reply>,
                                     more: seq<Reply>)
    requires Leads(p, m, replies, n, m', rest)
    ensures Leads(p, m, replies + more, n, m', rest + more)
    decreases n
  {
    if n > 0 {
      var (m1, rest1) := Step(p, m, replies);
      StepMore(p, m, replies, more);
      LeadsMore(p, m1, rest1, n - 1, m', rest, more);
    }
  }

  lemma StepMore(p: Program, m: Machine, replies: seq<Reply>, more: seq<Reply>)
    requires CanStep(p, m, replies)
    ensures CanStep(p, m, replies + more)
    ensures Step(p, m, replies + more) == (Step(p, m, replies).0, Step(p, m, replies).1 + more)
  {
    if replies != [] { assert (replies + more)[1..] == replies[1..] + more; }
  }

  /** Steps are determined: a longer run passes through the end of a shorter one. */
  lemma {:induction false} LeadsThrough(p: Program, m: Machine, replies: seq<Reply>, n: nat, a: Machine,
                                        restA: seq<Reply>, d: nat, b: Machine, restB: seq<Reply>)
    requires Leads(p, m, replies, n, a, restA) && Leads(p, m, replies, n + d, b, restB)
    ensures Leads(p, a, restA, d, b, restB)
    decreases n
  {
    hide Step, CanStep;
    if n > 0 {
      LeadsThrough(p, Step(p, m, replies).0, Step(p, m, replies).1, n - 1, a, restA, d, b, restB);
    }
  }

  /** A request that waits for its reply has been made, but has used none. */
  function Unanswered(m: Machine): nat {
    if m.phase.Suspended? then 1 else 0
  }

  /** Every request uses one reply. */
  lemma {:induction false} Counts(p: Program, m: Machine, replies: seq<Reply>, n: nat, m': Machine, rest: seq<Reply>)
    requires Leads(p, m, replies, n, m', rest)
    ensures m.trace <= m'.trace
    ensures |m'.trace| + |rest| + Unanswered(m) == |m.trace| + |replies| + Unanswered(m')
    decreases n
  {
    if n > 0 {
      Counts(p, Step(p, m, replies).0, Step(p, m, replies).1, n - 1, m', rest);
    }
  }

  // ---------------------------------------------------------------- the state of a task

  /** After `n` steps from its start, the task has used exactly the replies in `log`. Its state
      while it is suspended does not depend on the reply to come. */
  ghost predicate Reached(p: Program, l: Local, log: seq<Reply>, n: nat, m: Machine) {
    if m.phase.Suspended?
    then forall v {:trigger Reply(v, true)} :: Leads(p, Begun(l), log + [Reply(v, true)], n, m, [Reply(v, true)])
    else Leads(p, Begun(l), log, n, m, [])
  }

  /** The replies with which the task has come this far, `v` being the one it waits for. */
  function Replies(log: seq<Reply>, m: Machine, v: Value): seq<Reply> {
    if m.phase.Suspended? then log + [Reply(v, true)] else log
  }

  function Rest(m: Machine, v: Value): seq<Reply> {
    if m.phase.Suspended? then [Reply(v, true)] else []
  }

  lemma ReachedLeads(p: Program, l: Local, log: seq<Reply>, n: nat, m: Machine, v: Value)
    requires Reached(p, l, log, n, m)
    ensures Leads(p, Begun(l), Replies(log, m, v), n, m, Rest(m, v))
  {
    hide Leads;
    var r := Reply(v, true);
  }

  lemma ReachedChain(p: Program, l: Local, log: seq<Reply>, n: nat, m: Machine, v: Value) returns (ids: seq<FrameId>)
    requires Reached(p, l, log, n, m)
    ensures ChainInv(m, ids)
    ensures !m.phase.Finished? ==> ids != [] && ids[|ids| - 1] == 0
  {
    hide Leads;
    ReachedLeads(p, l, log, n, m, v);
    BegunChain(l);
    ids := RunsKeepChain(p, Begun(l), [0], Replies(log, m, v), n, m, Rest(m, v));
    assert !m.phase.Finished? ==> ids != [];
  }

  lemma BegunChain(l: Local)
    ensures ChainInv(Begun(l), [0])
  {
  }

  lemma ReachedStart(p: Program, l: Local)
    ensures Reached(p, l, [], 0, Begun(l))
  {
  }

  lemma OneMore(p: Program, l: Local, replies: seq<Reply>, n: nat, m: Machine, rest: seq<Reply>)
    requires Leads(p, Begun(l), replies, n, m, rest) && CanStep(p, m, rest)
    ensures Leads(p, Begun(l), replies, n + 1, Step(p, m, rest).0, Step(p, m, rest).1)
  {
    var (m1, rest1) := Step(p, m, rest);
    assert Leads(p, m1, rest1, 0, m1, rest1);
    assert Leads(p, m, rest, 1, m1, rest1);
    LeadsOn(p, Begun(l), replies, n, m, rest, 1, m1, rest1);
  }

  /** A step without a request: the first resumption, awaiting, returning. */
  lemma ReachedInner(p: Program, l: Local, log: seq<Reply>, n: nat, m: Machine)
    requires Reached(p, l, log, n, m) && CanStep(p, m, []) && !m.phase.Suspended?
    ensures Reached(p, l, log, n + 1, Step(p, m, []).0)
  {
    OneMore(p, l, log, n, m, []);
  }

  /** A request: answered on the spot, or leaving the task suspended. */
  lemma ReachedAsk(p: Program, l: Local, log: seq<Reply>, n: nat, m: Machine, r: Reply)
    requires Reached(p, l, log, n, m) && CanStep(p, m, [r]) && m.phase.Executing? && Asking(p, m)
    ensures Reached(p, l, if r.suspends then log else log + [r], n + 1, Step(p, m, [r]).0)
  {
    if r.suspends {
      forall v ensures Leads(p, Begun(l), log + [Reply(v, true)], n + 1, Step(p, m, [r]).0, [Reply(v, true)]) {
        AskedOnce(p, l, log, n, m, Reply(v, true));
      }
    } else {
      assert [r][1..] == [];
      AskedOnce(p, l, log, n, m, r);
    }
  }

  lemma AskedOnce(p: Program, l: Local, log: seq<Reply>, n: nat, m: Machine, r: Reply)
    requires Leads(p, Begun(l), log, n, m, []) && CanStep(p, m, [r])
    ensures Leads(p, Begun(l), log + [r], n + 1, Step(p, m, [r]).0, Step(p, m, [r]).1)
  {
    LeadsMore(p, Begun(l), log, n, m, [], [r]);
    assert [] + [r] == [r];
    OneMore(p, l, log + [r], n, m, [r]);
  }

  /** Resuming a suspended task with the reply to its request. */
  lemma ReachedResume(p: Program, l: Local, log: seq<Reply>, n: nat, m: Machine, v: Value)
    requires Reached(p, l, log, n, m) && m.phase.Suspended? && CanStep(p, m, [Reply(v, true)])
    ensures Reached(p, l, log + [Reply(v, true)], n + 1, Step(p, m, [Reply(v, true)]).0)
  {
    assert [Reply(v, true)][1..] == [];
    ReachedLeads(p, l, log, n, m, v);
    OneMore(p, l, log + [Reply(v, true)], n, m, [Reply(v, true)]);
  }

  // ---------------------------------------------------------------- a task is a plain program

  /** A task that has used the replies in `log` has made exactly the requests that its body
      makes with plain nested calls and the same replies; if it has finished, so has its body,
      with the same result. */
  lemma TaskSoFarIsCall(p: Program, l: Local, log: seq<Reply>, n: nat, m: Machine, v: Value, fuel: nat)
    requires Reached(p, l, log, n, m) && !m.phase.Fresh? && fuel >= n
    ensures var o := Call(p, l, Replies(log, m, v), fuel);
            && o.trace == m.trace
            && (m.phase.Finished? ==> o == Done(m.phase.value, m.trace, []))
  {
    hide Leads, Step, CanStep, Reached, Call, ChainInv;
    var replies, rest := Replies(log, m, v), Rest(m, v);
    ReachedLeads(p, l, log, n, m, v);
    var m0 := BeginStep(p, l, replies);
    BeganAt(m0, l);
    var n1, m1, rest1, ids1 := NestedIsCall(p, m0, [0], replies, fuel);
    LeadsOn(p, Begun(l), replies, 1, m0, replies, n1, m1, rest1);
    var o := Call(p, l, replies, fuel);
    Counts(p, Begun(l), replies, n, m, rest);
    Counts(p, Begun(l), replies, 1 + n1, m1, rest1);
    assert [] + o.trace == o.trace;
    if n <= 1 + n1 {
      LeadsThrough(p, Begun(l), replies, n, m, rest, 1 + n1 - n, m1, rest1);
      Counts(p, m, rest, 1 + n1 - n, m1, rest1);
      NotFinishedYet(p, l, log, n, m, v, 1 + n1 - n, m1, rest1);
    } else {
      LeadsThrough(p, Begun(l), replies, 1 + n1, m1, rest1, n - 1 - n1, m, rest);
      BeyondTheCall(p, m0, m1, rest1, ids1, o, n - 1 - n1, m, rest);
    }
  }

  lemma BeganAt(m: Machine, l: Local)
    requires At(m, [0], l, [])
    ensures m.phase.Executing? && ChainInv(m, [0]) && m.active in m.frames && m.frames[m.active].local == l
    ensures m.trace == []
  {
  }

  lemma NotFinishedYet(p: Program, l: Local, log: seq<Reply>, n: nat, m: Machine, v: Value, d: nat, m1: Machine,
                       rest1: seq<Reply>)
    requires Reached(p, l, log, n, m) && Leads(p, m, Rest(m, v), d, m1, rest1) && m1.phase.Executing?
    ensures !m.phase.Finished?
  {
    hide Leads, Reached;
    var ids := ReachedChain(p, l, log, n, m, v);
    if m.phase.Finished? { NoFramesNoSteps(p, m, Rest(m, v), d, m1, rest1); }
  }

  /** Where the call has ended, the machine has one step left if there is a result, and none
      if a reply is missing. */
  lemma BeyondTheCall(p: Program, m0: Machine, m1: Machine, rest1: seq<Reply>, ids1: seq<FrameId>, o: Outcome, d: nat,
                      m: Machine, rest: seq<Reply>)
    requires Agrees(p, m0, [0], o, m1, rest1, ids1) && m0.trace == [] && !o.Tired? && d > 0
    requires Leads(p, m1, rest1, d, m, rest)
    ensures o.Done? && m.phase == Finished(o.value) && m.trace == o.trace && rest == o.rest
  {
    hide ChainInv, SameCallers;
    assert [] + o.trace == o.trace;
    assert CanStep(p, m1, rest1);
    if o.Done? {
      TaskEnds(p, m1, rest1, o.value);
      var m2 := Step(p, m1, rest1).0;
      EndedChain(m2);
      NoFramesNoSteps(p, m2, rest1, d - 1, m, rest);
    }
  }

  lemma EndedChain(m: Machine)
    requires m.phase.Finished? && m.frames == map[]
    ensures ChainInv(m, [])
  {
  }
}
