/** The connection manager in terms of the run: which registrations and answers its goroutines acted
    on, that a launched lineage goes on until its connection is closed cleanly, and that a reported
    error leads to a reconnect. */
module WatcherTraces {
  import opened Sums
  import opened Watcher
  import opened WatcherProperties

  // ---------------------------------------------------------------- a lineage goes on

  function AliveIn(lineage: nat): Goroutine -> nat {
    (g: Goroutine) => if Active(g) && g.lineage == lineage then 1 else 0
  }

  /** The notify channel of a watcher of the lineage was closed without an error. */
  predicate ClosesCleanly(s: State, step: Step, lineage: nat) {
    && step.WatcherMoves? && step.action.BrokerClosed? && step.watcher < |s.watchers|
    && s.watchers[step.watcher].lineage == lineage
  }

  function CleanCloses(steps: seq<Step>, lineage: nat): nat
    requires Feasible(steps)
  {
    if steps == [] then 0
    else
      var n := |steps| - 1;
      CleanCloses(steps[..n], lineage) + if ClosesCleanly(After(steps[..n]), steps[n], lineage) then 1 else 0
  }

  predicate HasLaunched(s: State, lineage: nat) {
    lineage < |s.starts| && s.starts[lineage] == Launched(true)
  }

  /** One active watcher for a lineage that was launched and not closed cleanly, none otherwise. */
  ghost predicate OneEach(s: State, lineage: nat, closes: nat) {
    Sum(s.watchers, AliveIn(lineage)) + closes == if HasLaunched(s, lineage) then 1 else 0
  }

  lemma WatcherSurvives(s: State, w: nat, a: Action, lineage: nat)
    requires !s.stopClosed && Enabled(s, WatcherMoves(w, a))
    ensures Sum(WatcherNext(s, w, a).watchers, AliveIn(lineage)) +
              (if ClosesCleanly(s, WatcherMoves(w, a), lineage) then 1 else 0) == Sum(s.watchers, AliveIn(lineage))
  {
    var g := s.watchers[w];
    var g' := Act(g, a, s.stopClosed);
    SumUpdate(s.watchers, w, g', AliveIn(lineage));
    if g.phase.Respawning? {
      SumAppend(s.watchers[w := g'], Goroutine(g.lineage, Watching, []), AliveIn(lineage));
      assert AliveIn(lineage)(Goroutine(g.lineage, Watching, [])) == AliveIn(lineage)(g);
    }
  }

  lemma OneEachStep(s: State, step: Step, lineage: nat, closes: nat)
    requires !s.stopClosed && Enabled(s, step) && OneEach(s, lineage, closes)
    ensures OneEach(Next(s, step), lineage, closes + if ClosesCleanly(s, step, lineage) then 1 else 0)
  {
    if step.WatcherMoves? {
      WatcherSurvives(s, step.watcher, step.action, lineage);
    } else if step.Launch? {
      SumAppend(s.watchers, Goroutine(step.start, Watching, []), AliveIn(lineage));
      assert AliveIn(lineage)(Goroutine(step.start, Watching, [])) == if step.start == lineage then 1 else 0;
    } else if step.CallStart? {
      assert HasLaunched(Next(s, step), lineage) == HasLaunched(s, lineage);
    } else {
      OthersFramed(s, step);
    }
  }

  /** Until stopChan is closed, a lineage has exactly one active watcher from its launch on, unless the
      notify channel was closed without an error, and then none: errors, failed reconnects and
      successful ones all leave it with one. */
  lemma {:induction false} LineageGoesOn(steps: seq<Step>, lineage: nat)
    requires Feasible(steps) && !After(steps).stopClosed
    ensures OneEach(After(steps), lineage, CleanCloses(steps, lineage))
  {
    if steps != [] {
      var n := |steps| - 1;
      if After(steps[..n]).stopClosed {
        StaysStopped(After(steps[..n]), steps[n]);
      }
      LineageGoesOn(steps[..n], lineage);
      OneEachStep(After(steps[..n]), steps[n], lineage, CleanCloses(steps[..n], lineage));
    }
  }

  lemma StaysStopped(s: State, step: Step)
    requires Enabled(s, step) && s.stopClosed
    ensures Next(s, step).stopClosed
  {
  }

  // ---------------------------------------------------------------- what a watcher has been through

  /** The watcher took the action in the run. */
  predicate Took(steps: seq<Step>, w: nat, a: Action) { WatcherMoves(w, a) in steps }

  predicate Reconnecting(p: Phase) {
    p.Notified? || p.LoopTop? || p.Cleared? || p.Calling? || p.Waiting?
  }

  /** Its position says what it has seen: it reconnects after an error and no clean close, leaves the
      loop after a successful callback, and exits after a clean close, a success, or stopChan. */
  predicate Past(steps: seq<Step>, w: nat, p: Phase, stopClosed: bool) {
    var error, clean := Took(steps, w, BrokerError), Took(steps, w, BrokerClosed);
    var success := Took(steps, w, CallbackReturns(true));
    if p.Watching? then !error && !clean && !success
    else if Reconnecting(p) then error && !clean && !success
    else if p.Exited? then (clean && !error && !success) || (error && !clean && (success || stopClosed)) ||
                           (stopClosed && !error && !clean && !success)
    else error && !clean && success
  }

  function FailureOf(w: nat): Step -> nat {
    (step: Step) => if step == WatcherMoves(w, CallbackReturns(false)) then 1 else 0
  }

  lemma TookMore(steps: seq<Step>, step: Step, w: nat, a: Action)
    ensures Took(steps + [step], w, a) <==> Took(steps, w, a) || step == WatcherMoves(w, a)
  {
  }

  lemma PastOwn(steps: seq<Step>, g: Goroutine, w: nat, a: Action, stopClosed: bool)
    requires CanAct(g.phase, a, stopClosed) && Past(steps, w, g.phase, stopClosed)
    ensures Past(steps + [WatcherMoves(w, a)], w, Act(g, a, stopClosed).phase, stopClosed)
    ensures |Act(g, a, stopClosed).waits| == |g.waits| + FailureOf(w)(WatcherMoves(w, a))
  {
    TookMore(steps, WatcherMoves(w, a), w, BrokerError);
    TookMore(steps, WatcherMoves(w, a), w, BrokerClosed);
    TookMore(steps, WatcherMoves(w, a), w, CallbackReturns(true));
  }

  lemma PastOther(steps: seq<Step>, step: Step, w: nat, p: Phase, stopClosed: bool, stopClosed': bool)
    requires Past(steps, w, p, stopClosed) && (stopClosed ==> stopClosed')
    requires !step.WatcherMoves? || step.watcher != w
    ensures Past(steps + [step], w, p, stopClosed') && FailureOf(w)(step) == 0
  {
    TookMore(steps, step, w, BrokerError);
    TookMore(steps, step, w, BrokerClosed);
    TookMore(steps, step, w, CallbackReturns(true));
  }

  /** A step moves the watcher it names and no other that is there. */
  lemma WatcherAfter(s: State, step: Step, w: nat)
    requires Enabled(s, step) && w < |s.watchers|
    ensures w < |Next(s, step).watchers|
    ensures Next(s, step).watchers[w] ==
      if step.WatcherMoves? && step.watcher == w then Act(s.watchers[w], step.action, s.stopClosed) else s.watchers[w]
  {
    if !step.WatcherMoves? && !step.Launch? && !step.CallStart? {
      OthersFramed(s, step);
    }
  }

  lemma MovesKeepStop(s: State, step: Step)
    requires Enabled(s, step)
    ensures step.WatcherMoves? ==> Next(s, step).stopClosed == s.stopClosed
    ensures s.stopClosed ==> Next(s, step).stopClosed
  {
  }

  lemma PastStep(steps: seq<Step>, s: State, step: Step, w: nat)
    requires Enabled(s, step) && w < |s.watchers| && Past(steps, w, s.watchers[w].phase, s.stopClosed)
    ensures w < |Next(s, step).watchers|
    ensures Past(steps + [step], w, Next(s, step).watchers[w].phase, Next(s, step).stopClosed)
    ensures |Next(s, step).watchers[w].waits| == |s.watchers[w].waits| + FailureOf(w)(step)
  {
    WatcherAfter(s, step, w);
    MovesKeepStop(s, step);
    if step.WatcherMoves? && step.watcher == w {
      PastOwn(steps, s.watchers[w], w, step.action, s.stopClosed);
    } else {
      PastOther(steps, step, w, s.watchers[w].phase, s.stopClosed, Next(s, step).stopClosed);
    }
  }

  lemma NewWatchers(s: State, step: Step, w: nat)
    requires Enabled(s, step) && |s.watchers| <= w < |Next(s, step).watchers|
    ensures Next(s, step).watchers[w].phase.Watching? && Next(s, step).watchers[w].waits == []
  {
    if !step.WatcherMoves? && !step.Launch? && !step.CallStart? {
      OthersFramed(s, step);
    }
  }

  lemma {:induction false} NoneYet(steps: seq<Step>, w: nat)
    requires Feasible(steps) && w >= |After(steps).watchers|
    ensures forall a :: !Took(steps, w, a)
    ensures Sum(steps, FailureOf(w)) == 0
  {
    if steps != [] {
      var n := |steps| - 1;
      WatchersGrow(After(steps[..n]), steps[n]);
      NoneYet(steps[..n], w);
      assert steps == steps[..n] + [steps[n]];
      forall a ensures !Took(steps, w, a) {
        TookMore(steps[..n], steps[n], w, a);
      }
      SumAppend(steps[..n], steps[n], FailureOf(w));
      assert FailureOf(w)(steps[n]) == 0;
    }
  }

  lemma WatchersGrow(s: State, step: Step)
    requires Enabled(s, step)
    ensures |s.watchers| <= |Next(s, step).watchers|
  {
    if !step.WatcherMoves? && !step.Launch? && !step.CallStart? {
      OthersFramed(s, step);
    }
  }

  /** In every run each watcher is where the broker and the callback sent it, and has requested one wait
      for each callback of its that failed. */
  lemma {:induction false} WatcherTrace(steps: seq<Step>, w: nat)
    requires Feasible(steps) && w < |After(steps).watchers|
    ensures Past(steps, w, After(steps).watchers[w].phase, After(steps).stopClosed)
    ensures |After(steps).watchers[w].waits| == Sum(steps, FailureOf(w))
  {
    var n := |steps| - 1;
    var s := After(steps[..n]);
    assert steps == steps[..n] + [steps[n]];
    SumAppend(steps[..n], steps[n], FailureOf(w));
    if w < |s.watchers| {
      WatcherTrace(steps[..n], w);
      PastStep(steps[..n], s, steps[n], w);
    } else {
      NoneYet(steps[..n], w);
      NewWatchers(s, steps[n], w);
      PastOther(steps[..n], steps[n], w, Watching, s.stopClosed, After(steps).stopClosed || s.stopClosed);
    }
  }

  /** So a watcher that was told of an error does not exit, while stopChan is open, before a reconnect
      callback of its own has succeeded; and no watcher reconnects without having been told. */
  lemma ErrorLeadsToReconnect(steps: seq<Step>, w: nat)
    requires Feasible(steps) && w < |After(steps).watchers|
    ensures var p := After(steps).watchers[w].phase;
      && (Took(steps, w, BrokerError) && !After(steps).stopClosed && p.Exited? ==>
            Took(steps, w, CallbackReturns(true)))
      && (InLoop(p) ==> Took(steps, w, BrokerError))
      && (Took(steps, w, BrokerClosed) ==> p.Exited?)
  {
    WatcherTrace(steps, w);
  }

  // ---------------------------------------------------------------- registrations and launches

  /** The notify channel registered last, and the callback: present or nil. */
  function LastNotify(steps: seq<Step>): bool {
    if steps == [] then false
    else if steps[|steps| - 1].SetNotify? then steps[|steps| - 1].present
    else LastNotify(steps[..|steps| - 1])
  }

  function LastCallback(steps: seq<Step>): bool {
    if steps == [] then false
    else if steps[|steps| - 1].SetReconnect? then steps[|steps| - 1].present
    else LastCallback(steps[..|steps| - 1])
  }

  lemma {:induction false} RegistrationTrace(steps: seq<Step>)
    requires Feasible(steps)
    ensures After(steps).hasNotify == LastNotify(steps) && After(steps).hasReconnect == LastCallback(steps)
  {
    if steps != [] {
      var n := |steps| - 1;
      RegistrationTrace(steps[..n]);
      RegistrationStep(After(steps[..n]), steps[n]);
    }
  }

  lemma RegistrationStep(s: State, step: Step)
    requires Enabled(s, step)
    ensures Next(s, step).hasNotify == if step.SetNotify? then step.present else s.hasNotify
    ensures Next(s, step).hasReconnect == if step.SetReconnect? then step.present else s.hasReconnect
  {
    if step.WatcherMoves? {
      WatcherSilent(s, step.watcher, step.action);
    } else if step.ForceMoves? {
      ForceSilent(s, step.force, step.ok);
    }
  }

  /** Watchers and forced reconnects touch neither the registrations nor the Stop calls. */
  ghost predicate Silent(s: State, s': State) {
    && s'.hasNotify == s.hasNotify && s'.hasReconnect == s.hasReconnect
    && s'.stops == s.stops && s'.stopped == s.stopped && s'.stopClosed == s.stopClosed
  }

  lemma WatcherSilent(s: State, w: nat, a: Action)
    requires Enabled(s, WatcherMoves(w, a))
    ensures Silent(s, Next(s, WatcherMoves(w, a)))
  {
  }

  lemma ForceSilent(s: State, i: nat, ok: bool)
    requires Enabled(s, ForceMoves(i, ok))
    ensures Silent(s, Next(s, ForceMoves(i, ok)))
  {
  }

  /** Step k is Start call i. */
  ghost predicate StartedAt(steps: seq<Step>, k: nat, i: nat) {
    k < |steps| && Feasible(steps[..k]) && steps[k].CallStart? && |After(steps[..k]).starts| == i
  }

  ghost predicate SpawnsAs(steps: seq<Step>, i: nat, spawn: bool) {
    exists k: nat :: StartedAt(steps, k, i) && spawn == (LastNotify(steps[..k]) && LastCallback(steps[..k]))
  }

  /** A Start launches a watcher if and only if channel and callback were both registered when it was
      called, and it has done so if and only if its go statement was reached. */
  lemma {:induction false} StartTrace(steps: seq<Step>, i: nat)
    requires Feasible(steps)
    ensures i < |After(steps).starts| ==>
      && SpawnsAs(steps, i, After(steps).starts[i].spawn)
      && (After(steps).starts[i].Launched? <==> Launch(i) in steps)
    ensures i >= |After(steps).starts| ==> Launch(i) !in steps
  {
    if steps != [] {
      var n := |steps| - 1;
      var s := After(steps[..n]);
      StartTrace(steps[..n], i);
      RegistrationTrace(steps[..n]);
      assert steps == steps[..n] + [steps[n]];
      StartsAfter(s, steps[n]);
      if i < |s.starts| {
        SpawnsStay(steps, i, s.starts[i].spawn);
      } else if i < |After(steps).starts| {
        assert StartedAt(steps, n, i);
      }
    }
  }

  lemma StartsAfter(s: State, step: Step)
    requires Enabled(s, step)
    ensures var s' := Next(s, step);
      if step.CallStart? then s'.starts == s.starts + [Launching(s.hasNotify && s.hasReconnect)]
      else if step.Launch? then s'.starts == s.starts[step.start := Launched(s.starts[step.start].spawn)]
      else s'.starts == s.starts
  {
    if !step.CallStart? && !step.Launch? && !step.WatcherMoves? {
      OthersFramed(s, step);
    }
  }

  lemma SpawnsStay(steps: seq<Step>, i: nat, spawn: bool)
    requires steps != [] && SpawnsAs(steps[..|steps| - 1], i, spawn)
    ensures SpawnsAs(steps, i, spawn)
  {
    var n := |steps| - 1;
    var k: nat :|
      StartedAt(steps[..n], k, i) && spawn == (LastNotify(steps[..n][..k]) && LastCallback(steps[..n][..k]));
    assert steps[..n][..k] == steps[..k];
    assert StartedAt(steps, k, i);
  }

  // ---------------------------------------------------------------- ForceReconnect and Stop

  /** Step k is the answer of the callback to ForceReconnect call i. */
  ghost predicate AnsweredAt(steps: seq<Step>, k: nat, i: nat, ok: bool) {
    && k < |steps| && Feasible(steps[..k]) && steps[k] == ForceMoves(i, ok)
    && i < |After(steps[..k]).forces| && After(steps[..k]).forces[i].InCallback?
  }

  ghost predicate AnsweredBy(steps: seq<Step>, i: nat, ok: bool) {
    exists k: nat :: AnsweredAt(steps, k, i, ok)
  }

  /** Step k is ForceReconnect call i. */
  ghost predicate ForcedAt(steps: seq<Step>, k: nat, i: nat) {
    k < |steps| && Feasible(steps[..k]) && steps[k].CallForce? && |After(steps[..k]).forces| == i
  }

  ghost predicate WiredAs(steps: seq<Step>, i: nat, wired: bool) {
    exists k: nat :: ForcedAt(steps, k, i) && wired == LastCallback(steps[..k])
  }

  lemma AnsweredEarlier(steps: seq<Step>, k: nat, i: nat, ok: bool)
    requires steps != [] && k < |steps| - 1
    ensures AnsweredAt(steps, k, i, ok) == AnsweredAt(steps[..|steps| - 1], k, i, ok)
  {
    assert steps[..|steps| - 1][..k] == steps[..k];
  }

  lemma AnswersStay(steps: seq<Step>, i: nat, ok: bool)
    requires steps != []
    ensures AnsweredBy(steps, i, ok) <==>
      AnsweredBy(steps[..|steps| - 1], i, ok) || AnsweredAt(steps, |steps| - 1, i, ok)
  {
    var n := |steps| - 1;
    if AnsweredBy(steps, i, ok) {
      var k: nat :| AnsweredAt(steps, k, i, ok);
      if k < n {
        AnsweredEarlier(steps, k, i, ok);
      }
    }
    if AnsweredBy(steps[..n], i, ok) {
      var k: nat :| AnsweredAt(steps[..n], k, i, ok);
      AnsweredEarlier(steps, k, i, ok);
    }
  }

  /** A ForceReconnect calls back if and only if a callback was registered when it was called, and is
      about to set the flag if and only if that callback has answered with success and the flag has not
      been set yet. */
  ghost predicate ForcePast(steps: seq<Step>, i: nat, f: ForceCall) {
    match f
    case Fetched(wired) => WiredAs(steps, i, wired) && !AnsweredBy(steps, i, true) && !AnsweredBy(steps, i, false)
    case InCallback => WiredAs(steps, i, true) && !AnsweredBy(steps, i, true) && !AnsweredBy(steps, i, false)
    case CallbackOk => WiredAs(steps, i, true) && AnsweredBy(steps, i, true) && !AnsweredBy(steps, i, false)
    case Forced =>
      if AnsweredBy(steps, i, true) then WiredAs(steps, i, true) && !AnsweredBy(steps, i, false)
      else if AnsweredBy(steps, i, false) then WiredAs(steps, i, true)
      else WiredAs(steps, i, false)
  }

  lemma {:induction false} ForceTrace(steps: seq<Step>, i: nat)
    requires Feasible(steps)
    ensures i < |After(steps).forces| ==> ForcePast(steps, i, After(steps).forces[i])
    ensures i >= |After(steps).forces| ==> !AnsweredBy(steps, i, true) && !AnsweredBy(steps, i, false)
  {
    if steps != [] {
      var n := |steps| - 1;
      var s := After(steps[..n]);
      ForceTrace(steps[..n], i);
      if i < |s.forces| {
        ForcesAfter(s, steps[n], i);
        ForcePastStep(steps, i);
      } else {
        ForceBegins(steps, i);
      }
    }
  }

  lemma ForceBegins(steps: seq<Step>, i: nat)
    requires steps != [] && Feasible(steps) && i >= |After(steps[..|steps| - 1]).forces|
    requires !AnsweredBy(steps[..|steps| - 1], i, true) && !AnsweredBy(steps[..|steps| - 1], i, false)
    ensures !AnsweredBy(steps, i, true) && !AnsweredBy(steps, i, false)
    ensures i < |After(steps).forces| ==> ForcePast(steps, i, After(steps).forces[i])
  {
    var n := |steps| - 1;
    AnswersStay(steps, i, true);
    AnswersStay(steps, i, false);
    ForcesGrow(After(steps[..n]), steps[n]);
    if i < |After(steps).forces| {
      RegistrationTrace(steps[..n]);
      assert ForcedAt(steps, n, i);
    }
  }

  lemma ForcesGrow(s: State, step: Step)
    requires Enabled(s, step)
    ensures |Next(s, step).forces| == |s.forces| + if step.CallForce? then 1 else 0
    ensures step.CallForce? ==> Next(s, step).forces == s.forces + [Fetched(s.hasReconnect)]
  {
    if step.ForceMoves? {
      ForceCallAfter(s, step.force, step.ok);
    }
  }

  lemma ForcePastStep(steps: seq<Step>, i: nat)
    requires steps != [] && Feasible(steps)
    requires var s := After(steps[..|steps| - 1]); i < |s.forces| && ForcePast(steps[..|steps| - 1], i, s.forces[i])
    ensures var f, step := After(steps[..|steps| - 1]).forces[i], steps[|steps| - 1];
      ForcePast(steps, i, if step.ForceMoves? && step.force == i then ForceGoesOn(f, step.ok) else f)
  {
    AnswersStay(steps, i, true);
    AnswersStay(steps, i, false);
    WiredStays(steps, i, true);
    WiredStays(steps, i, false);
  }

  lemma WiredStays(steps: seq<Step>, i: nat, wired: bool)
    requires steps != []
    ensures WiredAs(steps[..|steps| - 1], i, wired) ==> WiredAs(steps, i, wired)
  {
    var n := |steps| - 1;
    if k: nat :| ForcedAt(steps[..n], k, i) && wired == LastCallback(steps[..n][..k]) {
      assert steps[..n][..k] == steps[..k];
      assert ForcedAt(steps, k, i);
    }
  }

  /** What a move makes of a ForceReconnect call. */
  function ForceGoesOn(f: ForceCall, ok: bool): ForceCall {
    match f
    case Fetched(wired) => if wired then InCallback else Forced
    case InCallback => if ok then CallbackOk else Forced
    case _ => Forced
  }

  lemma ForcesAfter(s: State, step: Step, i: nat)
    requires Enabled(s, step) && i < |s.forces|
    ensures i < |Next(s, step).forces|
    ensures Next(s, step).forces[i] ==
      if step.ForceMoves? && step.force == i then ForceGoesOn(s.forces[i], step.ok) else s.forces[i]
  {
    if step.ForceMoves? {
      ForceCallAfter(s, step.force, step.ok);
    }
  }

  lemma ForceCallAfter(s: State, i: nat, ok: bool)
    requires i < |s.forces| && !s.forces[i].Forced?
    ensures ForceNext(s, i, ok).forces == s.forces[i := ForceGoesOn(s.forces[i], ok)]
  {
  }

  /** Every write of the connected flag: Start and a success set it, Stop and an error clear it, and
      ForceReconnect clears it on its way into the callback and sets it without one or after success. */
  lemma FlagTable(s: State, step: Step)
    requires Enabled(s, step)
    ensures step.CallStart? ==> Next(s, step).connected
    ensures step.CallStop? ==> !Next(s, step).connected
    ensures step.WatcherMoves? ==>
      (var p := s.watchers[step.watcher].phase;
       Next(s, step).connected == if p.Notified? then false else if p.Succeeded? then true else s.connected)
    ensures step.ForceMoves? ==>
      (var f := s.forces[step.force];
       Next(s, step).connected == if f == Fetched(true) then false else if f.InCallback? then s.connected else true)
    ensures !step.CallStart? && !step.CallStop? && !step.WatcherMoves? && !step.ForceMoves? ==>
      Next(s, step).connected == s.connected
  {
  }

  /** When the first Stop call has returned, stopChan is closed, and before any Stop call it is open. */
  lemma {:induction false} StopTrace(steps: seq<Step>)
    requires Feasible(steps)
    ensures var s := After(steps);
      && (CallStop in steps <==> s.stops != []) && (s.stops != [] <==> s.stopped)
      && (s.stops != [] ==> (s.stops[0].Stopped? <==> s.stopClosed))
      && (s.stops == [] ==> !s.stopClosed)
  {
    if steps != [] {
      var n := |steps| - 1;
      StopTrace(steps[..n]);
      Watcher.RunsKeepInv(steps[..n]);
      assert steps == steps[..n] + [steps[n]];
      StopStepTrace(After(steps[..n]), steps[n]);
    }
  }

  lemma StopStepTrace(s: State, step: Step)
    requires Enabled(s, step) && StopInv(s) && (s.stops != [] <==> s.stopped)
    requires (s.stops != [] ==> (s.stops[0].Stopped? <==> s.stopClosed)) && (s.stops == [] ==> !s.stopClosed)
    ensures var s' := Next(s, step);
      && (s'.stops != [] <==> s.stops != [] || step.CallStop?) && (s'.stops != [] <==> s'.stopped)
      && (s'.stops != [] ==> (s'.stops[0].Stopped? <==> s'.stopClosed)) && (s'.stops == [] ==> !s'.stopClosed)
  {
    if !step.CallStop? && !step.StopMoves? {
      StopsUntouched(s, step);
    }
  }

  lemma StopsUntouched(s: State, step: Step)
    requires Enabled(s, step) && !step.CallStop? && !step.StopMoves?
    ensures var s' := Next(s, step);
      s'.stops == s.stops && s'.stopped == s.stopped && s'.stopClosed == s.stopClosed
  {
    if step.WatcherMoves? {
      WatcherSilent(s, step.watcher, step.action);
    } else if step.ForceMoves? {
      ForceSilent(s, step.force, step.ok);
    }
  }
}
