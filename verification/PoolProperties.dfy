/** What the pool promises, over every interleaving of submitters, workers and closers. */
module PoolProperties {
  import opened Sums
  import opened Pool
  import opened PoolInvariant

  // ---------------------------------------------------------------- safety

  /** No send on a closed channel, no second close, no negative wait group; the queue is
      bounded and first-in first-out. */
  lemma ChannelSafety(size: nat, steps: seq<Step>)
    requires Feasible(size, steps)
    ensures var s := After(size, steps);
      && !s.panicked
      && |s.queue| <= size
      && s.log.enqueued == s.log.dequeued + s.queue
      && 0 <= s.wg <= size
  {
    RunsKeepInv(size, steps);
    var s := After(size, steps);
    SizeFixed(size, steps);
    AtMostAll(s.workers);
  }

  lemma {:induction false} SizeFixed(size: nat, steps: seq<Step>)
    requires Feasible(size, steps)
    ensures After(size, steps).size == size
  {
    if steps != [] {
      var n := |steps| - 1;
      SizeFixed(size, steps[..n]);
      SizeKept(After(size, steps[..n]), steps[n]);
    }
  }

  lemma SizeKept(s: State, step: Step)
    requires Enabled(s, step)
    ensures Next(s, step).size == s.size
  {
    if step.Advance? {
      AdvanceDecides(s, step.call);
    }
  }

  lemma {:induction false} AtMostAll(workers: seq<Worker>)
    ensures Sum(workers, Present) <= |workers|
  {
    if workers != [] {
      AtMostAll(workers[..|workers| - 1]);
    }
  }

  /** The task of a Submit call is in at most one of queue, inline and dropped, in exactly one
      once the call returned; it starts at most once, and never if it is nil or dropped. */
  lemma Conservation(size: nat, steps: seq<Step>, t: nat)
    requires Feasible(size, steps)
    requires t < |After(size, steps).calls| && IsSubmit(After(size, steps).calls[t])
    ensures var s := After(size, steps); var task := s.calls[t].task; var log := s.log;
      && (s.calls[t].SubmitDone? ==> task in log.enqueued || task in log.inlined || task in log.dropped)
      && !(task in log.enqueued && task in log.inlined)
      && !(task in log.dropped && (task in log.enqueued || task in log.inlined))
      && multiset(log.enqueued)[task] <= 1
      && (task in log.dropped ==> s.closed && log.started[task] == 0)
      && log.finished[task] <= log.started[task] <= (if task.isNil then 0 else 1)
  {
    RunsKeepInv(size, steps);
    var s := After(size, steps);
    var task := s.calls[t].task;
    DistinctOnce(s.log.enqueued, task);
    assert task in s.log.dequeued ==> task in s.log.enqueued;
  }

  lemma {:induction false} DistinctOnce(xs: seq<Task>, x: Task)
    requires forall i, j :: 0 <= i < j < |xs| ==> xs[i] != xs[j]
    ensures multiset(xs)[x] <= 1
  {
    if xs != [] {
      var n := |xs| - 1;
      assert xs == xs[..n] + [xs[n]];
      DistinctOnce(xs[..n], x);
    }
  }

  /** IsClosed answers true only for a closed pool, which stays closed; and false only to a call that
      read the flag before the close. */
  lemma {:induction false} AnswersHold(size: nat, steps: seq<Step>, t: nat)
    requires Feasible(size, steps) && t < |After(size, steps).calls|
    ensures After(size, steps).calls[t] == QueryDone(true) ==> After(size, steps).closed
    ensures After(size, steps).calls[t] == QueryDone(false) ==> SawOpen(size, steps, t)
  {
    RunsKeepInv(size, steps);
    var s := After(size, steps);
    assert CallClosing(s, s.calls[t]);
    if steps != [] && s.calls[t] == QueryDone(false) {
      var n := |steps| - 1;
      var s0 := After(size, steps[..n]);
      if t < |s0.calls| && s0.calls[t] == QueryDone(false) {
        AnswersHold(size, steps[..n], t);
        var k: nat :| k <= n && AtOpen(size, steps[..n], k, t);
        assert steps[..n][..k] == steps[..k];
        assert AtOpen(size, steps, k, t);
      } else {
        AnsweredNow(s0, steps[n], t);
        assert AtOpen(size, steps, n, t);
      }
    }
  }

  ghost predicate AtOpen(size: nat, steps: seq<Step>, k: nat, t: nat) {
    && k <= |steps| && Feasible(size, steps[..k])
    && var s := After(size, steps[..k]);
       !s.closed && t < |s.calls| && s.calls[t].QueryLocked?
  }

  /** At some moment of the run the call held the read lock on an open pool. */
  ghost predicate SawOpen(size: nat, steps: seq<Step>, t: nat) {
    exists k: nat :: k <= |steps| && AtOpen(size, steps, k, t)
  }

  lemma AnsweredNow(s: State, step: Step, t: nat)
    requires Enabled(s, step) && t < |Next(s, step).calls| && Next(s, step).calls[t] == QueryDone(false)
    requires t < |s.calls| ==> s.calls[t] != QueryDone(false)
    ensures t < |s.calls| && s.calls[t].QueryLocked? && !s.closed
  {
    if step.Advance? {
      AdvanceShape(s, step.call);
    } else if step.Work? {
      WorkersMakeNoCalls(s, step.worker);
    }
  }

  /** A step that turns a task inline or away did so for the stated reason: the queue was
      full, or the pool was closed. */
  lemma TurnedAway(size: nat, steps: seq<Step>, step: Step)
    requires Feasible(size, steps) && Enabled(After(size, steps), step)
    ensures var s := After(size, steps); var s' := Next(s, step);
      && (s'.log.inlined != s.log.inlined ==> |s.queue| == size)
      && (s'.log.dropped != s.log.dropped ==> s.closed)
  {
    RunsKeepInv(size, steps);
    SizeFixed(size, steps);
    var s := After(size, steps);
    if step.Advance? {
      AdvanceShape(s, step.call);
      AdvanceDecides(s, step.call);
      TurnedAwayMove(s, AdvanceCall(s, step.call), step.call);
    } else if step.Work? {
      WorkersTurnNothingAway(s, step.worker);
    }
  }

  lemma WorkersTurnNothingAway(s: State, w: nat)
    requires w < |s.workers|
    ensures AdvanceWorker(s, w).log.inlined == s.log.inlined && AdvanceWorker(s, w).log.dropped == s.log.dropped
  {
  }

  lemma TurnedAwayMove(s: State, s': State, t: nat)
    requires Inv(s) && t < |s.calls| && |s'.calls| == |s.calls|
    requires Follows(s.calls[t], s'.calls[t]) && Decides(s, s', t)
    ensures s'.log.inlined != s.log.inlined ==> |s.queue| == s.size
    ensures s'.log.dropped != s.log.dropped ==> s.closed
  {
  }

  /** When any Wait or Close has returned, the queue is empty, every worker is gone, no inline
      task is running, and every task that was accepted has run to its end exactly once. */
  lemma Drain(size: nat, steps: seq<Step>, closer: nat)
    requires Feasible(size, steps)
    requires closer < |After(size, steps).calls| && After(size, steps).calls[closer].CloseDone?
    ensures var s := After(size, steps);
      && s.queue == []
      && (forall w: nat :: w < |s.workers| ==> s.workers[w].Gone?)
      && (forall t: nat :: t < |s.calls| ==> !s.calls[t].SubmitInline? && !s.calls[t].SubmitOpen?)
      && (forall task :: (task in s.log.enqueued || task in s.log.inlined) && !task.isNil ==>
            s.log.started[task] == 1 && s.log.finished[task] == 1)
      && s.log.started == s.log.finished
  {
    RunsKeepInv(size, steps);
    var s := After(size, steps);
    assert s.wg == 0 && s.chanClosed by { assert CallClosing(s, s.calls[closer]); }
    AllGone(s.workers);
    NothingInline(s);
    QueueEmptyWhenGone(s);
    forall task ensures !RunningIn(s, task) {}
    assert s.log.enqueued == s.log.dequeued;
    assert forall task :: s.log.started[task] == s.log.finished[task];
  }

  lemma NothingInline(s: State)
    requires ClosingInv(s) && s.chanClosed
    ensures forall t: nat :: t < |s.calls| ==> !s.calls[t].SubmitInline? && !s.calls[t].SubmitOpen?
  {
    forall t: nat | t < |s.calls| ensures !s.calls[t].SubmitInline? && !s.calls[t].SubmitOpen? {
      assert CallClosing(s, s.calls[t]);
    }
  }

  lemma {:induction false} AllGone(workers: seq<Worker>)
    requires Sum(workers, Present) == 0
    ensures forall w: nat :: w < |workers| ==> workers[w].Gone?
  {
    if workers != [] {
      AllGone(workers[..|workers| - 1]);
    }
  }

  lemma QueueEmptyWhenGone(s: State)
    requires WorkerInv(s) && QueueInv(s) && forall w: nat :: w < |s.workers| ==> s.workers[w].Gone?
    ensures s.queue == []
  {
    if s.size > 0 {
      assert s.workers[0].Gone?;
    }
  }

  // ---------------------------------------------------------------- progress

  predicate Internal(step: Step) { step.Advance? || step.Work? }

  ghost predicate Quiet(s: State) {
    forall step :: Internal(step) ==> !Enabled(s, step)
  }

  /** A call that cannot return, because the task that made it keeps it waiting: a Wait or Close of
      any task, which waits for that task to end; or a Submit or IsClosed of an inline task while a
      closer is announced, which waits for the closer, who waits for the read lock of the inline run. */
  predicate Doomed(s: State, u: nat) {
    && u < |s.calls| && u < |s.callers| && s.callers[u].ByTask? && !Returned(s.calls[u])
    && (|| IsClose(s.calls[u])
        || (WantsRead(s.calls[u]) && s.mu.writer.By? && Inline(s, s.callers[u].task)))
  }

  predicate Inline(s: State, task: Task) {
    task.call < |s.calls| && s.calls[task.call] == SubmitInline(task)
  }

  ghost predicate NoneDoomed(s: State) { forall u: nat :: u < |s.calls| ==> !Doomed(s, u) }

  lemma {:induction false} Largest(xs: set<nat>) returns (m: nat)
    requires xs != {}
    ensures m in xs && forall x :: x in xs ==> x <= m
  {
    m :| m in xs;
    var rest := xs - {m};
    if rest != {} {
      var other := Largest(rest);
      assert forall x :: x in xs ==> x == m || x in rest;
      if m < other {
        m := other;
      }
    } else {
      assert forall x :: x in xs ==> x == m || x in rest;
    }
  }

  /** The youngest call under the read lock, or the call it waits for, can move. */
  lemma ReaderMoves(s: State) returns (t: nat)
    requires Inv(s) && NoneDoomed(s) && s.mu.readers != {}
    ensures Enabled(s, Advance(t))
  {
    t := Largest(s.mu.readers);
    if s.calls[t].SubmitInline? && Busy(s, s.calls[t].task) {
      var task := s.calls[t].task;
      assert task.call == t && Inline(s, task);
      var u: nat :| u < |s.calls| && PendingFor(s, u, task);
      assert !Doomed(s, u) && t < u && u !in s.mu.readers;
      t := u;
    }
  }

  /** A worker that is still there, or the call its task waits for, can move once the pool closes. */
  lemma WorkerMoves(s: State) returns (step: Step)
    requires Inv(s) && NoneDoomed(s) && s.mu.readers == {} && s.mu.writer.NoWriter? && s.chanClosed && s.wg > 0
    ensures Internal(step) && Enabled(s, step)
  {
    var w := SumPositive(s.workers, Present);
    step := Work(w);
    if s.workers[w].Running? && Busy(s, s.workers[w].task) {
      var u: nat :| u < |s.calls| && PendingFor(s, u, s.workers[w].task);
      assert !Doomed(s, u) && u !in s.mu.readers;
      step := Advance(u);
    }
  }

  /** Deadlock freedom: as long as no call is doomed, some call or worker can move whenever some call
      has not returned; for a pending Submit or IsClosed some call can. */
  lemma Progress(size: nat, steps: seq<Step>, t: nat) returns (step: Step)
    requires Feasible(size, steps) && NoneDoomed(After(size, steps))
    requires t < |After(size, steps).calls| && !Returned(After(size, steps).calls[t])
    ensures Internal(step) && Enabled(After(size, steps), step)
    ensures !IsClose(After(size, steps).calls[t]) ==> step.Advance?
  {
    RunsKeepInv(size, steps);
    var s := After(size, steps);
    if s.mu.readers != {} {
      var r := ReaderMoves(s);
      step := Advance(r);
    } else if s.mu.writer.By? {
      step := Advance(s.mu.writer.call);
    } else if s.calls[t].CloseWaiting? && s.wg > 0 {
      assert CallClosing(s, s.calls[t]);
      step := WorkerMoves(s);
    } else {
      assert t !in s.mu.readers;
      step := Advance(t);
    }
  }

  // ---------------------------------------------------------------- doomed calls

  /** The task of a doomed call keeps the wait group or the task channel from closing. */
  lemma TaskKeepsOpen(s: State, u: nat, task: Task)
    requires Inv(s) && PendingFor(s, u, task) && s.calls[u].CloseWaiting?
    ensures s.wg > 0
  {
    assert CallClosing(s, s.calls[u]);
    NothingInline(s);
    var w: nat :| w < |s.workers| && s.workers[w] == Running(task);
    SumAtLeast(s.workers, w, Present);
  }

  lemma DoomedStep(s: State, step: Step, u: nat)
    requires Inv(s) && Enabled(s, step) && Doomed(s, u)
    ensures Doomed(Next(s, step), u)
  {
    var task := s.callers[u].task;
    assert PendingFor(s, u, task) && Busy(s, task);
    if step.Advance? {
      AdvanceShape(s, step.call);
      AdvanceCallers(s, step.call);
      if s.calls[u].CloseWaiting? {
        TaskKeepsOpen(s, u, task);
      }
      DoomedMove(s, Next(s, step), step.call, u);
    } else if step.Work? {
      WorkersMakeNoCalls(s, step.worker);
    }
  }

  lemma WorkersMakeNoCalls(s: State, w: nat)
    requires w < |s.workers|
    ensures var s' := AdvanceWorker(s, w); s'.calls == s.calls && s'.callers == s.callers && s'.mu == s.mu
  {
  }

  lemma DoomedMove(s: State, s': State, t: nat, u: nat)
    requires LockInv(s) && Doomed(s, u) && Busy(s, s.callers[u].task) && t < |s.calls| && CanAdvance(s, s.calls[t])
    requires |s'.calls| == |s.calls| && s'.calls == s.calls[t := s'.calls[t]] && s'.callers == s.callers
    requires Follows(s.calls[t], s'.calls[t]) && s'.mu == LockAfter(s.mu, t, s.calls[t])
    requires s.calls[u].CloseWaiting? ==> s.wg > 0
    ensures Doomed(s', u)
  {
    var task := s.callers[u].task;
    if !IsClose(s.calls[u]) {
      assert t != task.call && task.call in s.mu.readers;
    }
  }

  /** A doomed call never returns, whatever else is called. */
  lemma {:induction false} DoomedForGood(size: nat, steps: seq<Step>, more: seq<Step>, u: nat)
    requires Feasible(size, steps + more) && Feasible(size, steps) && Doomed(After(size, steps), u)
    ensures Doomed(After(size, steps + more), u) && !Returned(After(size, steps + more).calls[u])
  {
    if more == [] {
      assert steps + more == steps;
    } else {
      var n := |more| - 1;
      assert (steps + more)[..|steps| + n] == steps + more[..n];
      DoomedForGood(size, steps, more[..n], u);
      LastStepKeepsDoomed(size, steps + more[..n], steps + more, u);
    }
  }

  lemma LastStepKeepsDoomed(size: nat, shorter: seq<Step>, longer: seq<Step>, u: nat)
    requires Feasible(size, longer) && |longer| == |shorter| + 1 && longer[..|shorter|] == shorter
    requires Feasible(size, shorter) && Doomed(After(size, shorter), u)
    ensures Doomed(After(size, longer), u)
  {
    RunsKeepInv(size, shorter);
    DoomedStep(After(size, shorter), longer[|shorter|], u);
  }

  /** The tasks that call back do so in a way that never dooms a call: no task waits for the pool,
      and a task submits or asks only while a worker runs it, or the pool is never closed. */
  ghost predicate Careful(step: Step, s: State, closes: bool) {
    && (step.CallClose? ==> closes && step.caller.Outside?)
    && ((step.CallSubmit? || step.CallQuery?) && closes && step.caller.ByTask? ==> step.caller.task !in s.log.inlined)
  }

  ghost predicate CarefulRun(size: nat, steps: seq<Step>, closes: bool)
    requires Feasible(size, steps)
  {
    steps == [] ||
    (var n := |steps| - 1; CarefulRun(size, steps[..n], closes) && Careful(steps[n], After(size, steps[..n]), closes))
  }

  ghost predicate CarefulInv(s: State, closes: bool) {
    forall u: nat :: u < |s.calls| && u < |s.callers| ==>
      && (IsClose(s.calls[u]) ==> closes && s.callers[u].Outside?)
      && (closes && s.callers[u].ByTask? ==> s.callers[u].task in s.log.dequeued)
  }

  lemma CarefulStep(s: State, step: Step, closes: bool)
    requires Inv(s) && CarefulInv(s, closes) && Enabled(s, step) && Careful(step, s, closes)
    ensures CarefulInv(Next(s, step), closes)
  {
    var s' := Next(s, step);
    match step
    case Advance(t) =>
      AdvanceShape(s, t);
      AdvanceCallers(s, t);
      AdvanceDecides(s, t);
      CarefulMove(s, s', t, closes);
    case Work(w) => WorkersMakeNoCalls(s, w);
    case CallSubmit(_, caller) =>
      if caller.ByTask? {
        RunsFrom(s, caller.task);
      }
    case CallQuery(caller) =>
      if caller.ByTask? {
        RunsFrom(s, caller.task);
      }
    case CallClose(_) =>
  }

  lemma RunsFrom(s: State, task: Task)
    requires PlaceInv(s) && RunInv(s) && RunningIn(s, task)
    ensures task in s.log.dequeued || task in s.log.inlined
  {
  }

  lemma CarefulMove(s: State, s': State, t: nat, closes: bool)
    requires CarefulInv(s, closes) && t < |s.calls| && |s'.calls| == |s.calls| && s'.calls == s.calls[t := s'.calls[t]]
    requires Follows(s.calls[t], s'.calls[t]) && s'.callers == s.callers && s'.log.dequeued == s.log.dequeued
    ensures CarefulInv(s', closes)
  {
  }

  /** Tasks may call Submit and IsClosed from workers beside any outside closers, and from inline runs
      too when nobody closes: no call is doomed, so Progress applies. */
  lemma {:induction false} CarefulNeverDoomed(size: nat, steps: seq<Step>, closes: bool)
    requires Feasible(size, steps) && CarefulRun(size, steps, closes)
    ensures CarefulInv(After(size, steps), closes) && NoneDoomed(After(size, steps))
  {
    RunsKeepInv(size, steps);
    if steps != [] {
      var n := |steps| - 1;
      CarefulNeverDoomed(size, steps[..n], closes);
      RunsKeepInv(size, steps[..n]);
      CarefulStep(After(size, steps[..n]), steps[n], closes);
    }
    CarefulMeansNoneDoomed(After(size, steps), closes);
  }

  lemma CarefulMeansNoneDoomed(s: State, closes: bool)
    requires Inv(s) && CarefulInv(s, closes)
    ensures NoneDoomed(s)
  {
    assert s.log.dequeued <= s.log.enqueued;
    assert forall task :: task in s.log.dequeued ==> task in s.log.enqueued && !Inline(s, task);
    assert s.mu.writer.By? ==> IsClose(s.calls[s.mu.writer.call]);
  }

  lemma Extend(size: nat, steps: seq<Step>, step: Step) returns (longer: seq<Step>)
    requires Feasible(size, steps) && Enabled(After(size, steps), step)
    ensures longer == steps + [step] && Feasible(size, longer) && After(size, longer) == Next(After(size, steps), step)
  {
    longer := steps + [step];
    assert longer[..|steps|] == steps;
  }

  /** An inline task that submits can doom itself: on a pool with one worker, call 1 finds the queue
      full and runs its task inline, a closer is announced, and the task calls Submit. */
  lemma InlineTaskMustNotSubmit() returns (steps: seq<Step>)
    ensures Feasible(1, steps) && Doomed(After(1, steps), 3)
    ensures After(1, steps).calls ==
      [SubmitDone(Task(0, false)), SubmitInline(Task(1, false)), CloseAnnounced, SubmitCalled(Task(3, false))]
  {
    steps := InlineBesideCloser();
    steps := Extend(1, steps, CallSubmit(false, ByTask(Task(1, false))));
  }

  lemma InlineBesideCloser() returns (steps: seq<Step>)
    ensures Feasible(1, steps)
    ensures var s := After(1, steps);
      && s.calls == [SubmitDone(Task(0, false)), SubmitInline(Task(1, false)), CloseAnnounced]
      && s.callers == [Outside, Outside, Outside] && s.mu.writer == By(2)
      && MayCall(s, ByTask(Task(1, false)))
  {
    steps := RunsInline();
    steps := Extend(1, steps, CallClose(Outside));
    steps := Extend(1, steps, Advance(2));
    var s := After(1, steps);
    assert s.calls[1] == SubmitInline(Task(1, false)) && s.callers == [Outside, Outside, Outside];
    assert RunningIn(s, Task(1, false)) && !Busy(s, Task(1, false));
  }

  /** Nor may it ask: the same run with IsClosed in place of the last Submit. */
  lemma InlineTaskMustNotAsk() returns (steps: seq<Step>)
    ensures Feasible(1, steps) && Doomed(After(1, steps), 3)
    ensures After(1, steps).calls ==
      [SubmitDone(Task(0, false)), SubmitInline(Task(1, false)), CloseAnnounced, QueryCalled]
  {
    steps := InlineBesideCloser();
    steps := Extend(1, steps, CallQuery(ByTask(Task(1, false))));
  }

  lemma RunsInline() returns (steps: seq<Step>)
    ensures Feasible(1, steps)
    ensures var s := After(1, steps);
      && s.calls == [SubmitDone(Task(0, false)), SubmitInline(Task(1, false))] && s.callers == [Outside, Outside]
      && s.mu == RWMutex({1}, NoWriter, false)
  {
    steps := FillsQueue();
    steps := Extend(1, steps, CallSubmit(false, Outside));
    assert After(1, steps).calls == [SubmitDone(Task(0, false)), SubmitCalled(Task(1, false))];
    steps := Extend(1, steps, Advance(1));
    assert After(1, steps).mu.readers == {1};
    steps := Extend(1, steps, Advance(1));
    steps := Extend(1, steps, Advance(1));
  }

  lemma FillsQueue() returns (steps: seq<Step>)
    ensures Feasible(1, steps)
    ensures var s := After(1, steps);
      && s.calls == [SubmitDone(Task(0, false))] && s.callers == [Outside] && s.queue == [Task(0, false)]
      && s.mu == RWMutex({}, NoWriter, false) && !s.closed && !s.chanClosed && s.size == 1
  {
    steps := Extend(1, [], CallSubmit(false, Outside));
    assert After(1, steps).calls == [SubmitCalled(Task(0, false))];
    steps := Extend(1, steps, Advance(0));
    assert After(1, steps).mu.readers == {0};
    steps := Extend(1, steps, Advance(0));
    steps := Extend(1, steps, Advance(0));
    steps := Extend(1, steps, Advance(0));
  }

  function CallRank(c: Call): nat {
    match c
    case SubmitCalled(_) => 8
    case SubmitLocked(_) => 7
    case SubmitOpen(_) => 6
    case SubmitInline(_) => 5
    case SubmitUnlocking(_) => 1
    case SubmitDone(_) => 0
    case CloseCalled => 6
    case CloseAnnounced => 5
    case CloseLocked => 4
    case CloseChanClosed => 3
    case CloseUnlocking => 2
    case CloseWaiting => 1
    case CloseDone => 0
    case QueryCalled => 2
    case QueryLocked => 1
    case QueryDone(_) => 0
  }

  function WorkerRank(w: Worker): nat {
    match w
    case Running(_) => 3
    case Receiving => 2
    case Leaving => 1
    case Gone => 0
  }

  /** The work left to the workers. */
  function WorkLeft(s: State): nat { 2 * |s.queue| + Sum(s.workers, WorkerRank) }

  /** The work left to everybody. */
  function Measure(s: State): nat { Sum(s.calls, CallRank) + WorkLeft(s) }

  lemma WorkDecreases(s: State, w: nat)
    requires Enabled(s, Work(w))
    ensures WorkLeft(Next(s, Work(w))) < WorkLeft(s)
    ensures Next(s, Work(w)).calls == s.calls
  {
    var s' := Next(s, Work(w));
    SumUpdate(s.workers, w, s'.workers[w], WorkerRank);
    assert s.workers[w := s.workers[w]] == s.workers;
  }

  lemma MeasureDecreases(s: State, step: Step)
    requires Inv(s) && Enabled(s, step) && Internal(step)
    ensures Measure(Next(s, step)) < Measure(s)
  {
    match step
    case Work(w) => WorkDecreases(s, w);
    case Advance(t) =>
      var s' := AdvanceCall(s, t);
      ClosingStep(s, step);
      AdvanceShape(s, t);
      AdvanceDecides(s, t);
      Moved(s, t);
      MeasureMove(s, s', t);
  }

  lemma MeasureMove(s: State, s': State, t: nat)
    requires t < |s.calls| && |s'.calls| == |s.calls| && s'.calls == s.calls[t := s'.calls[t]]
    requires Follows(s.calls[t], s'.calls[t]) && Decides(s, s', t)
    requires s'.calls[t] != s.calls[t] && s'.workers == s.workers
    ensures Measure(s') < Measure(s)
  {
    SumUpdate(s.calls, t, s'.calls[t], CallRank);
  }

  /** A call that does not panic leaves its position. */
  lemma Moved(s: State, t: nat)
    requires t < |s.calls| && !Returned(s.calls[t])
    ensures AdvanceCall(s, t).panicked || AdvanceCall(s, t).calls[t] != s.calls[t]
  {
  }

  lemma {:induction false} FeasiblePrefix(size: nat, steps: seq<Step>, more: seq<Step>)
    requires Feasible(size, steps + more)
    ensures Feasible(size, steps)
  {
    if more == [] {
      assert steps + more == steps;
    } else {
      var n := |more| - 1;
      assert (steps + more)[..|steps| + n] == steps + more[..n];
      FeasiblePrefix(size, steps, more[..n]);
    }
  }

  /** Without new calls every run is finite: its length is bounded by the measure. */
  lemma {:induction false} InternalRunsAreBounded(size: nat, steps: seq<Step>, more: seq<Step>)
    requires Feasible(size, steps + more)
    requires forall i :: 0 <= i < |more| ==> Internal(more[i])
    ensures Feasible(size, steps)
    ensures |more| + Measure(After(size, steps + more)) <= Measure(After(size, steps))
  {
    FeasiblePrefix(size, steps, more);
    if more == [] {
      assert steps + more == steps;
    } else {
      var n := |more| - 1;
      var shorter := steps + more[..n];
      assert (steps + more)[..|steps| + n] == shorter;
      InternalRunsAreBounded(size, steps, more[..n]);
      LastStepDecreases(size, shorter, steps + more);
    }
  }

  lemma LastStepDecreases(size: nat, shorter: seq<Step>, longer: seq<Step>)
    requires Feasible(size, longer) && |longer| == |shorter| + 1 && longer[..|shorter|] == shorter
    requires Feasible(size, shorter) && Internal(longer[|shorter|])
    ensures Measure(After(size, longer)) < Measure(After(size, shorter))
  {
    RunsKeepInv(size, shorter);
    MeasureDecreases(After(size, shorter), longer[|shorter|]);
  }

  /** A run that cannot be continued has no pending call if and only if no call is doomed. */
  lemma QuietMeansReturned(size: nat, steps: seq<Step>)
    requires Feasible(size, steps) && Quiet(After(size, steps))
    ensures (forall t: nat :: t < |After(size, steps).calls| ==> Returned(After(size, steps).calls[t]))
            <==> NoneDoomed(After(size, steps))
  {
    var s := After(size, steps);
    if NoneDoomed(s) {
      forall t: nat | t < |s.calls| ensures Returned(s.calls[t]) {
        if !Returned(s.calls[t]) {
          var step := Progress(size, steps, t);
        }
      }
    }
  }

  /** Exactly once: when a run cannot be continued and no call is doomed, every non-nil task was
      dropped by a closed pool and never started, or has started once and finished once. */
  lemma RunsOnceOrDropped(size: nat, steps: seq<Step>, t: nat)
    requires Feasible(size, steps) && Quiet(After(size, steps)) && NoneDoomed(After(size, steps))
    requires t < |After(size, steps).calls| && IsSubmit(After(size, steps).calls[t])
    requires !After(size, steps).calls[t].task.isNil
    ensures var s := After(size, steps); var task := s.calls[t].task;
      || (task in s.log.dropped && s.closed && s.log.started[task] == 0 && s.log.finished[task] == 0)
      || (task !in s.log.dropped && s.log.started[task] == 1 && s.log.finished[task] == 1)
  {
    RunsKeepInv(size, steps);
    QuietMeansReturned(size, steps);
    var s := After(size, steps);
    var task := s.calls[t].task;
    assert s.calls[t].SubmitDone?;
    QuietWorkers(s);
    assert s.log.enqueued == s.log.dequeued;
  }

  lemma QuietWorkers(s: State)
    requires Inv(s) && Quiet(s) && forall t: nat :: t < |s.calls| ==> Returned(s.calls[t])
    ensures s.queue == [] && forall task :: !RunningIn(s, task)
  {
    assert forall task :: !Busy(s, task);
    forall w: nat | w < |s.workers|
      ensures !s.workers[w].Running? && !s.workers[w].Leaving? && (s.workers[w].Receiving? ==> s.queue == [])
    {
      assert !Enabled(s, Work(w));
    }
  }

  /** After closing, no step adds work for the workers and each worker step removes some; as long as
      any is left a worker can move, or every worker that is still there waits for a call that its
      own task made.  None is left exactly when the wait group is zero: every Wait ends. */
  lemma WorkersDrainAfterClose(size: nat, steps: seq<Step>, step: Step)
    requires Feasible(size, steps) && After(size, steps).chanClosed && Enabled(After(size, steps), step)
    ensures var s := After(size, steps); var s' := Next(s, step);
      && s'.chanClosed
      && WorkLeft(s') <= WorkLeft(s)
      && (step.Work? ==> WorkLeft(s') < WorkLeft(s))
      && (WorkLeft(s) > 0 ==> (exists w :: Enabled(s, Work(w))) || AllWaitForOwnCalls(s))
      && (WorkLeft(s) == 0 <==> s.wg == 0)
  {
    RunsKeepInv(size, steps);
    var s := After(size, steps);
    NoWorkAdded(s, step);
    if s.wg > 0 {
      var w := SumPositive(s.workers, Present);
      SumAtLeast(s.workers, w, WorkerRank);
      if !AllWaitForOwnCalls(s) {
        var v: nat :| v < |s.workers| && !s.workers[v].Gone? && !WaitsForOwnCall(s, s.workers[v]);
        assert Enabled(s, Work(v));
      }
    } else {
      AllGone(s.workers);
      QueueEmptyWhenGone(s);
      NoRankWhenGone(s.workers);
    }
  }

  lemma NoWorkAdded(s: State, step: Step)
    requires Inv(s) && s.chanClosed && Enabled(s, step)
    ensures Next(s, step).chanClosed && WorkLeft(Next(s, step)) <= WorkLeft(s)
    ensures step.Work? ==> WorkLeft(Next(s, step)) < WorkLeft(s)
  {
    match step
    case Work(w) => WorkDecreases(s, w);
    case Advance(t) =>
      NothingInline(s);
      AdvanceShape(s, t);
      AdvanceDecides(s, t);
    case _ =>
  }

  predicate WaitsForOwnCall(s: State, w: Worker) { w.Running? && Busy(s, w.task) }

  ghost predicate AllWaitForOwnCalls(s: State) {
    forall w: nat :: w < |s.workers| && !s.workers[w].Gone? ==> WaitsForOwnCall(s, s.workers[w])
  }

  lemma {:induction false} NoRankWhenGone(workers: seq<Worker>)
    requires forall w: nat :: w < |workers| ==> workers[w].Gone?
    ensures Sum(workers, WorkerRank) == 0
  {
    if workers != [] {
      NoRankWhenGone(workers[..|workers| - 1]);
    }
  }
}
