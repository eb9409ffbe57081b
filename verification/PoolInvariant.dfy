/** Every step of the pool keeps the invariant, so it holds after every run. */
module PoolInvariant {
  import opened Sums
  import opened Pool

  lemma InitialInv(size: nat)
    ensures Inv(Initial(size))
  {
    AllPresent(size);
    var s := Initial(size);
    assert LockInv(s) && ClosingInv(s) && WorkerInv(s);
    assert forall task :: !RunningIn(s, task);
    assert QueueInv(s) && PlaceInv(s) && RunInv(s);
  }

  lemma {:induction false} AllPresent(size: nat)
    ensures Sum(seq(size, _ => Receiving), Present) == size
  {
    if size > 0 {
      AllPresent(size - 1);
      assert seq(size, _ => Receiving)[..size - 1] == seq(size - 1, _ => Receiving);
    }
  }

  /** The lock moves with the call that takes the step, and only with it. */
  function LockAfter(mu: RWMutex, t: nat, c: Call): RWMutex {
    match c
    case SubmitCalled(_) => mu.(readers := mu.readers + {t})
    case SubmitUnlocking(_) => mu.(readers := mu.readers - {t})
    case QueryCalled => mu.(readers := mu.readers + {t})
    case QueryLocked => mu.(readers := mu.readers - {t})
    case CloseCalled => mu.(writer := By(t))
    case CloseAnnounced => mu.(held := true)
    case CloseUnlocking => mu.(writer := NoWriter, held := false)
    case _ => mu
  }

  /** The positions a call can reach in one step. */
  predicate Follows(c: Call, c': Call) {
    match c
    case SubmitCalled(task) => c' == SubmitLocked(task)
    case SubmitLocked(task) => c' == SubmitOpen(task) || c' == SubmitUnlocking(task)
    case SubmitOpen(task) => c' == SubmitInline(task) || c' == SubmitUnlocking(task) || c' == c
    case SubmitInline(task) => c' == SubmitUnlocking(task)
    case SubmitUnlocking(task) => c' == SubmitDone(task)
    case CloseCalled => c' == CloseAnnounced
    case CloseAnnounced => c' == CloseLocked
    case CloseLocked => c' == CloseChanClosed || c' == CloseUnlocking || c' == c
    case CloseChanClosed => c' == CloseUnlocking
    case CloseUnlocking => c' == CloseWaiting
    case CloseWaiting => c' == CloseDone
    case QueryCalled => c' == QueryLocked
    case QueryLocked => c'.QueryDone?
    case _ => c' == c
  }

  lemma AdvanceShape(s: State, t: nat)
    requires t < |s.calls|
    ensures var s' := AdvanceCall(s, t);
      && |s'.calls| == |s.calls|
      && s'.calls == s.calls[t := s'.calls[t]]
      && Follows(s.calls[t], s'.calls[t])
      && s'.mu == LockAfter(s.mu, t, s.calls[t])
      && s'.workers == s.workers
  {
    assert s.calls == s.calls[t := s.calls[t]];
    if IsSubmit(s.calls[t]) {
      SubmitShape(s, t);
    }
  }

  lemma SubmitShape(s: State, t: nat)
    requires t < |s.calls| && IsSubmit(s.calls[t]) && s.calls == s.calls[t := s.calls[t]]
    ensures var s' := AdvanceSubmit(s, t, s.calls[t].task);
      && |s'.calls| == |s.calls|
      && s'.calls == s.calls[t := s'.calls[t]]
      && Follows(s.calls[t], s'.calls[t])
      && s'.mu == LockAfter(s.mu, t, s.calls[t])
      && s'.workers == s.workers
  {
  }

  lemma LockMove(s: State, s': State, t: nat)
    requires LockInv(s) && t < |s.calls| && CanAdvance(s, s.calls[t])
    requires |s'.calls| == |s.calls| && s'.calls == s.calls[t := s'.calls[t]]
    requires Follows(s.calls[t], s'.calls[t]) && s'.mu == LockAfter(s.mu, t, s.calls[t])
    ensures LockInv(s')
  {
  }

  lemma LockStep(s: State, step: Step)
    requires LockInv(s) && Enabled(s, step)
    ensures LockInv(Next(s, step))
  {
    match step
    case Advance(t) =>
      AdvanceShape(s, t);
      LockMove(s, AdvanceCall(s, t), t);
    case _ =>
  }

  lemma ClosingStep(s: State, step: Step)
    requires LockInv(s) && ClosingInv(s) && WorkerInv(s) && Enabled(s, step)
    ensures ClosingInv(Next(s, step))
  {
    match step
    case Advance(t) =>
      ClosingAdvance(s, t);
    case Work(w) =>
      if s.workers[w].Leaving? {
        SumAtLeast(s.workers, w, Present);
      }
    case _ =>
  }

  lemma ClosingAdvance(s: State, t: nat)
    requires LockInv(s) && ClosingInv(s) && Enabled(s, Advance(t))
    ensures ClosingInv(Next(s, Advance(t)))
  {
    var c := s.calls[t];
    if c.CloseLocked? || c.CloseChanClosed? {
      assert s.mu.held && s.mu.readers == {};
      assert forall u: nat :: u < |s.calls| && HoldsRead(s.calls[u]) ==> u in s.mu.readers;
    }
  }

  lemma WorkerStep(s: State, step: Step)
    requires ClosingInv(s) && WorkerInv(s) && Enabled(s, step)
    ensures WorkerInv(Next(s, step))
  {
    if step.Work? {
      var w := step.worker;
      SumUpdate(s.workers, w, Next(s, step).workers[w], Present);
      assert s.workers[w := s.workers[w]] == s.workers;
    }
  }

  /** A step of a call either leaves every task where it is or decides about its own. */
  ghost predicate Decides(s: State, s': State, t: nat)
    requires t < |s.calls| && |s'.calls| == |s.calls|
  {
    if Decided(s'.calls[t]) && !Decided(s.calls[t]) then
      var task := s'.calls[t].task;
      || (&& s'.queue == s.queue + [task] && s'.log.enqueued == s.log.enqueued + [task] && |s.queue| < s.size
          && s'.log.inlined == s.log.inlined && s'.log.dropped == s.log.dropped && !s'.calls[t].SubmitInline?)
      || (&& s'.queue == s.queue && s'.log.enqueued == s.log.enqueued
          && s'.log.inlined == s.log.inlined + {task} && s'.log.dropped == s.log.dropped && |s.queue| >= s.size
          && s'.calls[t].SubmitInline? == !task.isNil)
      || (&& s'.queue == s.queue && s'.log.enqueued == s.log.enqueued
          && s'.log.inlined == s.log.inlined && s'.log.dropped == s.log.dropped + {task}
          && s.closed && !s'.calls[t].SubmitInline?)
    else
      && s'.queue == s.queue && s'.log.enqueued == s.log.enqueued
      && s'.log.inlined == s.log.inlined && s'.log.dropped == s.log.dropped
  }

  lemma AdvanceDecides(s: State, t: nat)
    requires t < |s.calls|
    ensures var s' := AdvanceCall(s, t);
      && |s'.calls| == |s.calls| && Decides(s, s', t)
      && s'.log.dequeued == s.log.dequeued && s'.size == s.size && (s.closed ==> s'.closed)
      && Runs(s, s', t)
  {
    var c := s.calls[t];
    if c.SubmitOpen? {
      SelectDecides(s, t);
    } else if IsSubmit(c) {
      SubmitDecides(s, t);
    } else if IsQuery(c) {
      QueryDecides(s, t);
    } else {
      CloseDecides(s, t);
    }
  }

  lemma QueryDecides(s: State, t: nat)
    requires t < |s.calls| && IsQuery(s.calls[t])
    ensures var s' := AdvanceQuery(s, t);
      && |s'.calls| == |s.calls| && IsQuery(s'.calls[t]) && Decides(s, s', t)
      && s'.log == s.log && s'.queue == s.queue && s'.size == s.size && s'.closed == s.closed
  {
  }

  lemma SubmitDecides(s: State, t: nat)
    requires t < |s.calls| && IsSubmit(s.calls[t]) && !s.calls[t].SubmitOpen?
    ensures var s' := AdvanceSubmit(s, t, s.calls[t].task);
      && |s'.calls| == |s.calls| && Decides(s, s', t)
      && s'.log.dequeued == s.log.dequeued && s'.size == s.size && s.closed == s'.closed
      && Runs(s, s', t)
  {
  }

  lemma CloseDecides(s: State, t: nat)
    requires t < |s.calls| && IsClose(s.calls[t])
    ensures var s' := AdvanceClose(s, t);
      && |s'.calls| == |s.calls| && IsClose(s'.calls[t]) && Decides(s, s', t)
      && s'.log == s.log && s'.queue == s.queue && s'.size == s.size && (s.closed ==> s'.closed)
  {
  }

  lemma SelectDecides(s: State, t: nat)
    requires t < |s.calls| && s.calls[t].SubmitOpen?
    ensures var s' := Select(s, t, s.calls[t].task);
      && |s'.calls| == |s.calls| && Decides(s, s', t)
      && s'.log.dequeued == s.log.dequeued && s'.size == s.size && s.closed == s'.closed
      && Runs(s, s', t)
  {
  }

  /** A call starts a task when it goes inline and finishes it when it leaves that position. */
  ghost predicate Runs(s: State, s': State, t: nat)
    requires t < |s.calls| && |s'.calls| == |s.calls|
  {
    && s'.log.started == (if s'.calls[t].SubmitInline? && !s.calls[t].SubmitInline?
                          then s.log.started + multiset{s'.calls[t].task} else s.log.started)
    && s'.log.finished == (if s.calls[t].SubmitInline?
                           then s.log.finished + multiset{s.calls[t].task} else s.log.finished)
  }

  lemma QueueMove(s: State, s': State, t: nat)
    requires QueueInv(s) && PlaceInv(s)
    requires t < |s.calls| && |s'.calls| == |s.calls| && Follows(s.calls[t], s'.calls[t])
    requires Decides(s, s', t) && s'.log.dequeued == s.log.dequeued && s'.size == s.size
    ensures QueueInv(s')
  {
    if s'.log.enqueued != s.log.enqueued {
      var task := s'.calls[t].task;
      assert task !in s.log.enqueued;
      assert s.log.dequeued + (s.queue + [task]) == (s.log.dequeued + s.queue) + [task];
    }
  }

  lemma QueueStep(s: State, step: Step)
    requires QueueInv(s) && PlaceInv(s) && Enabled(s, step)
    ensures QueueInv(Next(s, step))
  {
    match step
    case Advance(t) =>
      AdvanceShape(s, t);
      AdvanceDecides(s, t);
      QueueMove(s, AdvanceCall(s, t), t);
    case Work(w) =>
      if s.queue != [] {
        assert s.log.dequeued + s.queue == (s.log.dequeued + [s.queue[0]]) + s.queue[1..];
      }
    case _ =>
  }

  lemma PlaceMove(s: State, s': State, t: nat)
    requires PlaceInv(s)
    requires t < |s.calls| && |s'.calls| == |s.calls| && s'.calls == s.calls[t := s'.calls[t]]
    requires Follows(s.calls[t], s'.calls[t]) && Decides(s, s', t) && (s.closed ==> s'.closed)
    ensures PlaceInv(s')
  {
    forall task | DecidedFor(s, task) ensures DecidedFor(s', task) {}
    if Decided(s'.calls[t]) && !Decided(s.calls[t]) {
      var task := s'.calls[t].task;
      assert task.call == t && DecidedFor(s', task) && !DecidedFor(s, task);
      assert forall other :: other in s'.log.enqueued ==> other in s.log.enqueued || other == task;
    }
  }

  lemma PlaceCall(s: State, step: Step)
    requires PlaceInv(s) && Enabled(s, step) && (step.CallSubmit? || step.CallClose? || step.CallQuery?)
    ensures PlaceInv(Next(s, step))
  {
    var s' := Next(s, step);
    forall task | DecidedFor(s, task) ensures DecidedFor(s', task) {}
  }

  lemma PlaceStep(s: State, step: Step)
    requires PlaceInv(s) && Enabled(s, step)
    ensures PlaceInv(Next(s, step))
  {
    match step
    case Advance(t) =>
      AdvanceShape(s, t);
      AdvanceDecides(s, t);
      PlaceMove(s, AdvanceCall(s, t), t);
    case Work(w) =>
      var s' := Next(s, step);
      forall task | DecidedFor(s, task) ensures DecidedFor(s', task) {}
    case _ =>
      PlaceCall(s, step);
  }

  lemma RunStep(s: State, step: Step)
    requires QueueInv(s) && PlaceInv(s) && RunInv(s) && Enabled(s, step)
    ensures RunInv(Next(s, step))
  {
    match step
    case Advance(t) =>
      AdvanceShape(s, t);
      AdvanceDecides(s, t);
      RunMove(s, AdvanceCall(s, t), t);
    case Work(w) => RunWork(s, w);
    case _ => RunCall(s, step);
  }

  lemma RunCall(s: State, step: Step)
    requires RunInv(s) && Enabled(s, step) && (step.CallSubmit? || step.CallClose? || step.CallQuery?)
    ensures RunInv(Next(s, step))
  {
    var s' := Next(s, step);
    forall task ensures RunningIn(s', task) == RunningIn(s, task) {
      assert forall t: nat :: t < |s.calls| ==> s'.calls[t] == s.calls[t];
    }
  }

  lemma RunMove(s: State, s': State, t: nat)
    requires QueueInv(s) && PlaceInv(s) && RunInv(s)
    requires t < |s.calls| && |s'.calls| == |s.calls| && s'.calls == s.calls[t := s'.calls[t]]
    requires Follows(s.calls[t], s'.calls[t]) && Decides(s, s', t) && Runs(s, s', t)
    requires s'.log.dequeued == s.log.dequeued && s'.workers == s.workers
    ensures RunInv(s')
  {
    if s.calls[t].SubmitInline? {
      InlineEnds(s, s', t);
    } else if s'.calls[t].SubmitInline? {
      InlineStarts(s, s', t);
    } else {
      InlineElsewhere(s, s', t);
      if Decided(s'.calls[t]) && !Decided(s.calls[t]) {
        assert s'.log.inlined == s.log.inlined || s'.calls[t].task.isNil;
      }
    }
  }

  /** Which other tasks run does not change when a call moves. */
  lemma InlineElsewhere(s: State, s': State, t: nat)
    requires t < |s.calls| && |s'.calls| == |s.calls| && s'.calls == s.calls[t := s'.calls[t]]
    requires s'.workers == s.workers
    ensures forall task :: s.calls[t] != SubmitInline(task) && s'.calls[t] != SubmitInline(task) ==>
              RunningIn(s', task) == RunningIn(s, task)
  {
    forall task | s.calls[t] != SubmitInline(task) && s'.calls[t] != SubmitInline(task)
      ensures RunningIn(s', task) == RunningIn(s, task)
    {
      if u: nat :| u < |s.calls| && s.calls[u] == SubmitInline(task) {
        assert s'.calls[u] == SubmitInline(task);
      }
      if u: nat :| u < |s'.calls| && s'.calls[u] == SubmitInline(task) {
        assert s.calls[u] == SubmitInline(task);
      }
    }
  }

  lemma InlineEnds(s: State, s': State, t: nat)
    requires QueueInv(s) && PlaceInv(s) && RunInv(s)
    requires t < |s.calls| && |s'.calls| == |s.calls| && s'.calls == s.calls[t := s'.calls[t]]
    requires Follows(s.calls[t], s'.calls[t]) && Decides(s, s', t) && Runs(s, s', t)
    requires s'.log.dequeued == s.log.dequeued && s'.workers == s.workers
    requires s.calls[t].SubmitInline?
    ensures RunInv(s')
  {
    var own := s.calls[t].task;
    InlineElsewhere(s, s', t);
    assert RunningIn(s, own) && own in s.log.inlined && own !in s.log.enqueued;
    assert s.log.dequeued <= s.log.enqueued;
    assert !RunningIn(s', own);
  }

  lemma InlineStarts(s: State, s': State, t: nat)
    requires QueueInv(s) && PlaceInv(s) && RunInv(s)
    requires t < |s.calls| && |s'.calls| == |s.calls| && s'.calls == s.calls[t := s'.calls[t]]
    requires Follows(s.calls[t], s'.calls[t]) && Decides(s, s', t) && Runs(s, s', t)
    requires s'.log.dequeued == s.log.dequeued && s'.workers == s.workers
    requires !s.calls[t].SubmitInline? && s'.calls[t].SubmitInline?
    ensures RunInv(s')
  {
    var own := s'.calls[t].task;
    InlineElsewhere(s, s', t);
    assert own !in s.log.enqueued && own !in s.log.inlined;
    assert s.log.dequeued <= s.log.enqueued;
    assert RunningIn(s', own) by { assert s'.calls[t] == SubmitInline(own); }
  }

  lemma RunWork(s: State, w: nat)
    requires QueueInv(s) && PlaceInv(s) && RunInv(s) && Enabled(s, Work(w))
    ensures RunInv(Next(s, Work(w)))
  {
    var s' := Next(s, Work(w));
    match s.workers[w]
    case Receiving =>
      if s.queue != [] {
        RunReceive(s, w);
      } else {
        RunningElsewhere(s, s', w);
      }
    case Running(task) =>
      RunFinish(s, w);
    case _ =>
      RunningElsewhere(s, s', w);
  }

  /** Which tasks run does not change when a worker that runs none moves to a position that runs none. */
  lemma RunningElsewhere(s: State, s': State, w: nat)
    requires w < |s.workers| && |s'.workers| == |s.workers| && s'.workers == s.workers[w := s'.workers[w]]
    requires s'.calls == s.calls
    ensures forall task :: s.workers[w] != Running(task) && s'.workers[w] != Running(task) ==>
              RunningIn(s', task) == RunningIn(s, task)
  {
    forall task | s.workers[w] != Running(task) && s'.workers[w] != Running(task)
      ensures RunningIn(s', task) == RunningIn(s, task)
    {
      if v: nat :| v < |s.workers| && s.workers[v] == Running(task) {
        assert s'.workers[v] == Running(task);
      }
      if v: nat :| v < |s'.workers| && s'.workers[v] == Running(task) {
        assert s.workers[v] == Running(task);
      }
    }
  }

  lemma RunReceive(s: State, w: nat)
    requires QueueInv(s) && PlaceInv(s) && RunInv(s) && w < |s.workers| && s.workers[w].Receiving? && s.queue != []
    ensures RunInv(AdvanceWorker(s, w))
  {
    var s' := AdvanceWorker(s, w);
    var task := s.queue[0];
    assert s.log.enqueued[|s.log.dequeued|] == task;
    forall i | 0 <= i < |s.log.dequeued| ensures s.log.dequeued[i] != task {
      assert s.log.dequeued[i] == s.log.enqueued[i];
    }
    assert task in s.log.enqueued && task !in s.log.inlined;
    assert s'.workers == s.workers[w := s'.workers[w]];
    RunningElsewhere(s, s', w);
    if !task.isNil {
      assert s'.workers[w] == Running(task);
      assert RunningIn(s', task);
    }
  }

  lemma RunFinish(s: State, w: nat)
    requires QueueInv(s) && PlaceInv(s) && RunInv(s) && w < |s.workers| && s.workers[w].Running?
    ensures RunInv(AdvanceWorker(s, w))
  {
    var s' := AdvanceWorker(s, w);
    var task := s.workers[w].task;
    RunningElsewhere(s, s', w);
    assert RunningIn(s, task);
    assert task in s.log.enqueued && task !in s.log.inlined;
    assert !RunningIn(s', task);
  }

  lemma {:induction false} CallerStep(s: State, step: Step)
    requires QueueInv(s) && PlaceInv(s) && RunInv(s) && CallerInv(s) && Enabled(s, step)
    ensures CallerInv(Next(s, step))
  {
    var s' := Next(s, step);
    match step
    case Advance(t) =>
      AdvanceShape(s, t);
      AdvanceCallers(s, t);
      CallerMove(s, s', t);
    case Work(w) =>
      CallerWork(s, w);
    case CallSubmit(_, caller) =>
      CallerArrives(s, s', caller);
    case CallClose(caller) =>
      CallerArrives(s, s', caller);
    case CallQuery(caller) =>
      CallerArrives(s, s', caller);
  }

  lemma AdvanceCallers(s: State, t: nat)
    requires t < |s.calls|
    ensures AdvanceCall(s, t).callers == s.callers
  {
  }

  lemma CallerMove(s: State, s': State, t: nat)
    requires CallerInv(s) && t < |s.calls| && CanAdvance(s, s.calls[t])
    requires |s'.calls| == |s.calls| && s'.calls == s.calls[t := s'.calls[t]]
    requires Follows(s.calls[t], s'.calls[t]) && s'.workers == s.workers && s'.callers == s.callers
    ensures CallerInv(s')
  {
    forall u: nat, task | PendingFor(s', u, task) ensures RunningIn(s', task) {
      assert PendingFor(s, u, task);
      if v: nat :| v < |s.calls| && s.calls[v] == SubmitInline(task) {
        assert s'.calls[v] == SubmitInline(task);
      } else {
        var w: nat :| w < |s.workers| && s.workers[w] == Running(task);
        assert s'.workers[w] == Running(task);
      }
    }
  }

  lemma CallerWork(s: State, w: nat)
    requires CallerInv(s) && Enabled(s, Work(w))
    ensures CallerInv(AdvanceWorker(s, w))
  {
    var s' := AdvanceWorker(s, w);
    forall u: nat, task | PendingFor(s', u, task) ensures RunningIn(s', task) {
      assert PendingFor(s, u, task);
      if v: nat :| v < |s.calls| && s.calls[v] == SubmitInline(task) {
        assert s'.calls[v] == SubmitInline(task);
      } else {
        var v: nat :| v < |s.workers| && s.workers[v] == Running(task);
        assert s'.workers[v] == Running(task);
      }
    }
  }

  lemma CallerArrives(s: State, s': State, caller: Caller)
    requires QueueInv(s) && PlaceInv(s) && RunInv(s) && CallerInv(s) && MayCall(s, caller)
    requires |s'.calls| == |s.calls| + 1 && s.calls <= s'.calls && s'.workers == s.workers
    requires s'.callers == s.callers + [caller]
    ensures CallerInv(s')
  {
    assert forall t: nat :: t < |s.calls| ==> s'.calls[t] == s.calls[t];
    forall task | RunningIn(s, task) ensures RunningIn(s', task) && task.call < |s.calls| {
      if v: nat :| v < |s.calls| && s.calls[v] == SubmitInline(task) {
        assert s'.calls[v] == SubmitInline(task);
      } else {
        var w: nat :| w < |s.workers| && s.workers[w] == Running(task);
        assert s'.workers[w] == Running(task);
        assert task in s.log.enqueued;
      }
    }
    forall u: nat, task | PendingFor(s', u, task) ensures RunningIn(s', task) {
      if u < |s.calls| {
        assert PendingFor(s, u, task);
      }
    }
  }

  lemma StepInv(s: State, step: Step)
    requires Inv(s) && Enabled(s, step)
    ensures Inv(Next(s, step))
  {
    LockStep(s, step);
    ClosingStep(s, step);
    WorkerStep(s, step);
    QueueStep(s, step);
    PlaceStep(s, step);
    RunStep(s, step);
    CallerStep(s, step);
  }

  /** The invariant holds after every run. */
  lemma {:induction false} RunsKeepInv(size: nat, steps: seq<Step>)
    requires Feasible(size, steps)
    ensures Inv(After(size, steps))
  {
    if steps == [] {
      InitialInv(size);
    } else {
      var n := |steps| - 1;
      RunsKeepInv(size, steps[..n]);
      StepInv(After(size, steps[..n]), steps[n]);
    }
  }
}
