/** The calls of the pool in terms of the run: every call is the one that was made, with its argument
    and its caller, so that what runs or is dropped are the functions that were submitted. */
module PoolTraces {
  import opened Pool
  import opened PoolInvariant
  import opened PoolProperties

  predicate IsCall(step: Step) { step.CallSubmit? || step.CallClose? || step.CallQuery? }

  /** The call at position t is what the step asked for. */
  predicate Made(step: Step, t: nat, c: Call, caller: Caller) {
    match step
    case CallSubmit(isNil, who) => IsSubmit(c) && c.task == Task(t, isNil) && caller == who
    case CallClose(who) => IsClose(c) && caller == who
    case CallQuery(who) => IsQuery(c) && caller == who
    case _ => false
  }

  /** The call steps of a run, in order. */
  function Calls(steps: seq<Step>): seq<Step> {
    if steps == [] then []
    else var n := |steps| - 1; Calls(steps[..n]) + if IsCall(steps[n]) then [steps[n]] else []
  }

  lemma MadeStep(s: State, step: Step)
    requires Enabled(s, step) && |s.callers| == |s.calls|
    ensures var s' := Next(s, step);
      && |s'.callers| == |s'.calls| == |s.calls| + (if IsCall(step) then 1 else 0)
      && (IsCall(step) ==> Made(step, |s.calls|, s'.calls[|s.calls|], s'.callers[|s.calls|]))
      && forall t: nat, made :: t < |s.calls| && Made(made, t, s.calls[t], s.callers[t]) ==>
           Made(made, t, s'.calls[t], s'.callers[t])
  {
    if step.Advance? {
      AdvanceShape(s, step.call);
      AdvanceCallers(s, step.call);
      KindStays(s.calls[step.call], Next(s, step).calls[step.call]);
    } else if step.Work? {
      WorkersMakeNoCalls(s, step.worker);
    }
  }

  /** A call stays of its kind and keeps its task. */
  lemma KindStays(c: Call, c': Call)
    requires Follows(c, c')
    ensures IsSubmit(c') == IsSubmit(c) && IsQuery(c') == IsQuery(c)
    ensures IsSubmit(c) ==> c'.task == c.task
  {
  }

  /** The calls of every run are those that were made, one for each call step, in order, each with the
      argument and the caller of its step. */
  lemma {:induction false} CallsTrace(size: nat, steps: seq<Step>)
    requires Feasible(size, steps)
    ensures var s := After(size, steps);
      && |s.callers| == |s.calls| == |Calls(steps)|
      && forall t: nat :: t < |s.calls| ==> Made(Calls(steps)[t], t, s.calls[t], s.callers[t])
  {
    if steps != [] {
      var n := |steps| - 1;
      CallsTrace(size, steps[..n]);
      MadeStep(After(size, steps[..n]), steps[n]);
    }
  }

  /** The t-th call is a Submit of a function, not of nil. */
  predicate SubmitsFunction(steps: seq<Step>, t: nat) {
    t < |Calls(steps)| && Calls(steps)[t].CallSubmit? && !Calls(steps)[t].isNil
  }

  /** Exactly once, in terms of what was submitted: when a run cannot be continued and no call is doomed,
      every function that was submitted was dropped by a closed pool and never started, or has started
      once and finished once. */
  lemma SubmittedRunsOnce(size: nat, steps: seq<Step>, t: nat)
    requires Feasible(size, steps) && Quiet(After(size, steps)) && NoneDoomed(After(size, steps))
    requires SubmitsFunction(steps, t)
    ensures var s := After(size, steps); var task := Task(t, false);
      || (task in s.log.dropped && s.closed && s.log.started[task] == 0 && s.log.finished[task] == 0)
      || (task !in s.log.dropped && s.log.started[task] == 1 && s.log.finished[task] == 1)
  {
    CallsTrace(size, steps);
    RunsOnceOrDropped(size, steps, t);
  }

  /** When any Wait or Close has returned, every function submitted by a call that has returned was
      dropped by the closed pool, or has started once and finished once. */
  lemma SubmittedDrained(size: nat, steps: seq<Step>, closer: nat, t: nat)
    requires Feasible(size, steps) && SubmitsFunction(steps, t)
    requires closer < |After(size, steps).calls| && After(size, steps).calls[closer].CloseDone?
    requires t < |After(size, steps).calls| && Returned(After(size, steps).calls[t])
    ensures var s := After(size, steps); var task := Task(t, false);
      || (task in s.log.dropped && s.closed && s.log.started[task] == 0)
      || (task !in s.log.dropped && s.log.started[task] == 1 && s.log.finished[task] == 1)
  {
    CallsTrace(size, steps);
    Drain(size, steps, closer);
    Conservation(size, steps, t);
  }

  /** What starts was submitted: nothing runs that no call asked for, and nil never does. */
  lemma OnlySubmittedRuns(size: nat, steps: seq<Step>, task: Task)
    requires Feasible(size, steps) && After(size, steps).log.started[task] > 0
    ensures SubmitsFunction(steps, task.call) && task == Task(task.call, false)
  {
    CallsTrace(size, steps);
    RunsKeepInv(size, steps);
    var s := After(size, steps);
    assert task in s.log.dequeued ==> task in s.log.enqueued;
    assert DecidedFor(s, task);
    assert Made(Calls(steps)[task.call], task.call, s.calls[task.call], s.callers[task.call]);
  }
}
