/** What the connection manager promises over every run. */
module WatcherProperties {
  import opened Sums
  import opened Backoff
  import opened Watcher

  // ---------------------------------------------------------------- population

  /** A lineage never has two active watchers, there are never more active watchers than Start
      calls, and stopChan is closed at most once, by however many Stop calls. */
  lemma Population(steps: seq<Step>)
    requires Feasible(steps)
    ensures var s := After(steps);
      && Unique(s.watchers)
      && Sum(s.watchers, Alive) <= |s.starts|
      && s.closes <= 1
      && !s.panicked
      && (s.stopClosed <==> s.closes == 1)
  {
    RunsKeepInv(steps);
    SpawnedAtMostAll(After(steps).starts);
  }

  lemma {:induction false} SpawnedAtMostAll(starts: seq<StartCall>)
    ensures Sum(starts, Spawned) <= |starts|
  {
    if starts != [] {
      SpawnedAtMostAll(starts[..|starts| - 1]);
    }
  }

  // ---------------------------------------------------------------- back-off

  /** The k-th wait is min(0.5s * 2^k, 30s), and n waits together are 0.5s(2^n - 1) up to six
      and 31.5s + 30s(n - 6) from then on. */
  ghost predicate OnSchedule(waits: seq<int>) {
    var n := |waits|;
    && (forall k: nat :: k < n ==> waits[k] == Min(RECONNECT_BACKOFF * Pow2(k), CAP))
    && (n <= 6 ==> SumOf(waits) == RECONNECT_BACKOFF * (Pow2(n) - 1))
    && (n >= 6 ==> SumOf(waits) == 31_500 * MILLISECOND + CAP * (n - 6))
  }

  /** In every run every watcher waits on schedule. */
  lemma BackoffSchedule(steps: seq<Step>, w: nat)
    requires Feasible(steps) && w < |After(steps).watchers|
    ensures OnSchedule(After(steps).watchers[w].waits)
  {
    RunsKeepInv(steps);
    assert WaitsOk(After(steps).watchers[w]);
    Schedule(After(steps).watchers[w].waits);
  }

  lemma Schedule(waits: seq<int>)
    requires FollowBackoff(RECONNECT_BACKOFF, waits)
    ensures OnSchedule(waits)
  {
    forall k: nat | k < |waits| ensures waits[k] == Min(RECONNECT_BACKOFF * Pow2(k), CAP) {
      ReconnectWait(k);
    }
    WaitsTotal(RECONNECT_BACKOFF, waits);
    ReconnectTotal(|waits|);
  }

  // ---------------------------------------------------------------- the connected flag

  predicate InLoop(p: Phase) {
    p.LoopTop? || p.Cleared? || p.Calling? || p.Succeeded? || p.Waiting?
  }

  ghost predicate SomeoneInLoop(s: State) {
    exists w: nat :: w < |s.watchers| && InLoop(s.watchers[w].phase)
  }

  /** What the flag should be: started, and not in a reconnect loop. */
  ghost predicate Right(s: State) { s.starts != [] && !SomeoneInLoop(s) }

  ghost predicate Agrees(s: State) { s.connected <==> Right(s) }

  /** A write of the flag by ForceReconnect fits: it clears the flag, on its way into the callback,
      only while the flag should be false, and sets it only while it should be true. */
  ghost predicate ForceFits(s: State, step: Step) {
    step.ForceMoves? && step.force < |s.forces| ==>
      match s.forces[step.force]
      case Fetched(wired) => wired <==> !Right(s)
      case CallbackOk => Right(s)
      case _ => true
  }

  ghost predicate ForcesFit(steps: seq<Step>)
    requires Feasible(steps)
  {
    steps == [] || (var n := |steps| - 1; ForcesFit(steps[..n]) && ForceFits(After(steps[..n]), steps[n]))
  }

  /** The flag agrees after every prefix of the run. */
  ghost predicate AgreesThroughout(steps: seq<Step>)
    requires Feasible(steps)
  {
    Agrees(After(steps)) && (steps != [] ==> AgreesThroughout(steps[..|steps| - 1]))
  }

  /** With one Start and before any Stop, the flag is true exactly when the lineage is not in its
      reconnect loop, all the way, if and only if every write of a ForceReconnect fits. */
  lemma {:induction false} FlagAgreesIff(steps: seq<Step>)
    requires Feasible(steps) && CallStop !in steps && |After(steps).starts| <= 1
    ensures After(steps).stops == [] && !After(steps).stopClosed
    ensures AgreesThroughout(steps) <==> ForcesFit(steps)
  {
    if steps != [] {
      var n := |steps| - 1;
      var s := After(steps[..n]);
      RunsKeepInv(steps[..n]);
      StartsGrow(s, steps[n]);
      FlagAgreesIff(steps[..n]);
      assert steps[n] in steps;
      NeverStopped(s, steps[n]);
      if Agrees(s) {
        FlagStep(s, steps[n]);
      }
    }
  }

  /** In particular it agrees as long as nobody calls ForceReconnect. */
  lemma {:induction false} FlagAgrees(steps: seq<Step>)
    requires Feasible(steps) && CallStop !in steps && CallForce !in steps && |After(steps).starts| <= 1
    ensures After(steps).forces == [] && ForcesFit(steps) && Agrees(After(steps))
  {
    FlagAgreesIff(steps);
    if steps != [] {
      var n := |steps| - 1;
      StartsGrow(After(steps[..n]), steps[n]);
      FlagAgrees(steps[..n]);
      assert steps[n] in steps;
    }
  }

  lemma StartsGrow(s: State, step: Step)
    requires Enabled(s, step)
    ensures |s.starts| <= |Next(s, step).starts|
  {
    if !step.CallStart? && !step.Launch? && !step.WatcherMoves? {
      OthersFramed(s, step);
    }
  }

  lemma NeverStopped(s: State, step: Step)
    requires Enabled(s, step) && step != CallStop && s.stops == [] && !s.stopClosed
    ensures Next(s, step).stops == [] && !Next(s, step).stopClosed
  {
  }

  /** The writes of ForceReconnect decide alone whether the flag agrees after them. */
  lemma ForceWrites(s: State, i: nat, ok: bool)
    requires Enabled(s, ForceMoves(i, ok))
    ensures var s' := ForceNext(s, i, ok);
      && Right(s') == Right(s)
      && (Agrees(s') <==> if s.forces[i].InCallback? then Agrees(s) else ForceFits(s, ForceMoves(i, ok)))
  {
    ForceFramed(s, i, ok);
    assert SomeoneInLoop(ForceNext(s, i, ok)) == SomeoneInLoop(s);
  }

  lemma FlagStep(s: State, step: Step)
    requires Inv(s) && Enabled(s, step) && step != CallStop && s.stops == [] && !s.stopClosed
    requires Agrees(s) && |Next(s, step).starts| <= 1
    ensures Agrees(Next(s, step)) <==> ForceFits(s, step)
  {
    if s.starts == [] {
      NoStartNoWatcher(s);
    }
    if step.ForceMoves? {
      ForceWrites(s, step.force, step.ok);
    } else if step.WatcherMoves? {
      FlagMove(s, step.watcher, step.action);
    } else {
      FlagArrival(s, step);
    }
  }

  lemma FlagArrival(s: State, step: Step)
    requires Enabled(s, step) && Agrees(s) && |Next(s, step).starts| <= 1 && (s.starts == [] ==> s.watchers == [])
    requires step.SetNotify? || step.SetReconnect? || step.CallStart? || step.Launch? || step.CallForce?
    ensures Agrees(Next(s, step))
  {
    var s' := Next(s, step);
    assert forall v: nat :: v < |s.watchers| ==> s'.watchers[v] == s.watchers[v];
    assert SomeoneInLoop(s') == SomeoneInLoop(s);
  }

  lemma NoStartNoWatcher(s: State)
    requires Inv(s) && s.starts == []
    ensures s.watchers == []
  {
  }

  lemma FlagMove(s: State, w: nat, a: Action)
    requires Inv(s) && Enabled(s, WatcherMoves(w, a)) && |s.starts| == 1 && !s.stopClosed && Agrees(s)
    ensures Agrees(WatcherNext(s, w, a))
  {
    var s' := WatcherNext(s, w, a);
    AloneInOneLineage(s, w);
    assert s'.watchers[w] == Act(s.watchers[w], a, s.stopClosed);
    forall v: nat | v < |s'.watchers| && v != w ensures !InLoop(s'.watchers[v].phase) {}
    assert SomeoneInLoop(s) <==> InLoop(s.watchers[w].phase);
    assert SomeoneInLoop(s') <==> InLoop(s'.watchers[w].phase);
  }

  /** With a single lineage, the active watcher is the only one. */
  lemma AloneInOneLineage(s: State, w: nat)
    requires Inv(s) && |s.starts| <= 1 && w < |s.watchers| && Active(s.watchers[w])
    ensures forall v: nat :: v < |s.watchers| && v != w ==> s.watchers[v].phase.Exited?
  {
    forall v: nat | v < |s.watchers| && v != w ensures s.watchers[v].phase.Exited? {
      assert s.watchers[v].lineage == 0 && s.watchers[w].lineage == 0;
    }
  }

  /** ForceReconnect breaks the agreement: it clears the flag while the watcher is watching. */
  lemma ForceReconnectBreaksAgreement() returns (steps: seq<Step>)
    ensures Feasible(steps) && CallStop !in steps && |After(steps).starts| == 1
    ensures !After(steps).connected && !SomeoneInLoop(After(steps))
  {
    steps := OneWatching();
    steps := Extend(steps, CallForce);
    steps := Extend(steps, ForceMoves(0, true));
  }

  lemma OneWatching() returns (steps: seq<Step>)
    ensures Feasible(steps) && CallStop !in steps
    ensures var s := After(steps);
      |s.starts| == 1 && s.watchers == [Goroutine(0, Watching, [])] && s.hasReconnect && s.forces == []
  {
    steps := Extend([], SetNotify(true));
    steps := Extend(steps, SetReconnect(true));
    steps := Extend(steps, CallStart);
    steps := Extend(steps, Launch(0));
  }

  lemma Extend(steps: seq<Step>, step: Step) returns (longer: seq<Step>)
    requires Feasible(steps) && Enabled(After(steps), step)
    ensures longer == steps + [step] && Feasible(longer) && After(longer) == Next(After(steps), step)
  {
    longer := steps + [step];
    assert longer[..|steps|] == steps;
  }

  // ---------------------------------------------------------------- after stopChan is closed

  /** How far a watcher is from exiting once stopChan is closed. */
  function Rank(g: Goroutine): nat {
    match g.phase
    case Cleared(_) => 7
    case Calling(_) => 6
    case Succeeded => 5
    case Respawning => 4
    case Watching => 3
    case Notified => 2
    case Waiting(_) => 2
    case LoopTop(_) => 1
    case Exited => 0
  }

  function ByWatcher(step: Step): nat { if step.WatcherMoves? then 1 else 0 }

  function ByLaunch(step: Step): nat { if step.Launch? then 1 else 0 }

  lemma RankMove(s: State, w: nat, a: Action)
    requires s.stopClosed && Enabled(s, WatcherMoves(w, a))
    ensures Sum(WatcherNext(s, w, a).watchers, Rank) < Sum(s.watchers, Rank)
  {
    var g := s.watchers[w];
    var g' := Act(g, a, s.stopClosed);
    SumUpdate(s.watchers, w, g', Rank);
    SumAppend(s.watchers[w := g'], Goroutine(g.lineage, Watching, []), Rank);
  }

  lemma RankStep(s: State, step: Step)
    requires s.stopClosed && Enabled(s, step)
    ensures Next(s, step).stopClosed
    ensures ByWatcher(step) + Sum(Next(s, step).watchers, Rank) <= Sum(s.watchers, Rank) + 3 * ByLaunch(step)
  {
    match step
    case WatcherMoves(w, a) => RankMove(s, w, a);
    case Launch(i) => SumAppend(s.watchers, Goroutine(i, Watching, []), Rank);
    case CallStart =>
    case _ => OthersFramed(s, step);
  }

  /** Termination: after stopChan is closed the watchers take at most as many steps as their
      ranks add up to, plus three for every watcher that a Start still launches. */
  lemma {:induction false} WatchersTerminate(steps: seq<Step>, more: seq<Step>)
    requires Feasible(steps + more) && Feasible(steps) && After(steps).stopClosed
    ensures After(steps + more).stopClosed
    ensures Sum(more, ByWatcher) + Sum(After(steps + more).watchers, Rank)
              <= Sum(After(steps).watchers, Rank) + 3 * Sum(more, ByLaunch)
  {
    if more == [] {
      assert steps + more == steps;
    } else {
      var n := |more| - 1;
      assert (steps + more)[..|steps| + n] == steps + more[..n];
      WatchersTerminate(steps, more[..n]);
      RankStep(After(steps + more[..n]), more[n]);
    }
  }

  /** No watcher is stuck: an active one can move, whatever its callback answers. */
  lemma WatcherNotStuck(steps: seq<Step>, w: nat) returns (a: Action)
    requires Feasible(steps) && After(steps).stopClosed
    requires w < |After(steps).watchers| && Active(After(steps).watchers[w])
    ensures Enabled(After(steps), WatcherMoves(w, a))
    ensures a.CallbackReturns? ==>
      forall ok :: Enabled(After(steps), WatcherMoves(w, CallbackReturns(ok)))
  {
    var p := After(steps).watchers[w].phase;
    a := if p.Watching? || p.Waiting? then SeesStop else if p.Calling? then CallbackReturns(true) else Proceed;
  }

  /** A step that begins a reconnect call in the given lineage. */
  predicate Begins(s: State, step: Step, lineage: nat) {
    && step.WatcherMoves? && step.watcher < |s.watchers|
    && s.watchers[step.watcher].phase.Cleared? && s.watchers[step.watcher].lineage == lineage
  }

  /** How many reconnect calls the lineage begins during `more`. */
  function BeginCount(steps: seq<Step>, more: seq<Step>, lineage: nat): nat
    requires Feasible(steps + more)
    decreases |more|
  {
    if more == [] then 0
    else
      var n := |more| - 1;
      assert (steps + more)[..|steps| + n] == steps + more[..n];
      BeginCount(steps, more[..n], lineage) + (if Begins(After(steps + more[..n]), more[n], lineage) then 1 else 0)
  }

  function ClearedIn(lineage: nat): Goroutine -> nat {
    (g: Goroutine) => if g.phase.Cleared? && g.lineage == lineage then 1 else 0
  }

  lemma ClearedStep(s: State, step: Step, lineage: nat)
    requires s.stopClosed && Enabled(s, step)
    ensures (if Begins(s, step, lineage) then 1 else 0) + Sum(Next(s, step).watchers, ClearedIn(lineage))
              <= Sum(s.watchers, ClearedIn(lineage))
  {
    match step
    case WatcherMoves(w, a) =>
      var g := s.watchers[w];
      ClearedMove(s.watchers, w, Act(g, a, s.stopClosed), lineage);
    case Launch(i) => SumAppend(s.watchers, Goroutine(i, Watching, []), ClearedIn(lineage));
    case CallStart =>
    case _ => OthersFramed(s, step);
  }

  lemma ClearedMove(watchers: seq<Goroutine>, w: nat, g': Goroutine, lineage: nat)
    requires w < |watchers| && !g'.phase.Cleared?
    ensures Sum(watchers[w := g'], ClearedIn(lineage)) + ClearedIn(lineage)(watchers[w]) ==
      Sum(watchers, ClearedIn(lineage))
    ensures Sum(watchers[w := g'] + [Goroutine(g'.lineage, Watching, [])], ClearedIn(lineage)) ==
              Sum(watchers[w := g'], ClearedIn(lineage))
  {
    SumUpdate(watchers, w, g', ClearedIn(lineage));
    SumAppend(watchers[w := g'], Goroutine(g'.lineage, Watching, []), ClearedIn(lineage));
  }

  lemma {:induction false} BeginsAreCleared(steps: seq<Step>, more: seq<Step>, lineage: nat)
    requires Feasible(steps + more) && Feasible(steps) && After(steps).stopClosed
    ensures BeginCount(steps, more, lineage) + Sum(After(steps + more).watchers, ClearedIn(lineage))
              <= Sum(After(steps).watchers, ClearedIn(lineage))
  {
    if more == [] {
      assert steps + more == steps;
    } else {
      var n := |more| - 1;
      assert (steps + more)[..|steps| + n] == steps + more[..n];
      BeginsAreCleared(steps, more[..n], lineage);
      WatchersTerminate(steps, more[..n]);
      ClearedStep(After(steps + more[..n]), more[n], lineage);
    }
  }

  lemma {:induction false} OneClearedPerLineage(watchers: seq<Goroutine>, lineage: nat)
    requires Unique(watchers)
    ensures Sum(watchers, ClearedIn(lineage)) <= 1
  {
    if watchers != [] {
      var n := |watchers| - 1;
      OneClearedPerLineage(watchers[..n], lineage);
      if Sum(watchers[..n], ClearedIn(lineage)) > 0 {
        var v := SumPositive(watchers[..n], ClearedIn(lineage));
        assert watchers[v] == watchers[..n][v];
        assert Active(watchers[v]) && watchers[v].lineage == lineage;
      }
    }
  }

  /** Once stopChan is closed a lineage begins at most one more reconnect call, and only when its
      watcher had already passed the stop check. */
  lemma AtMostOneMoreReconnect(steps: seq<Step>, more: seq<Step>, lineage: nat)
    requires Feasible(steps + more) && Feasible(steps) && After(steps).stopClosed
    ensures BeginCount(steps, more, lineage) <= 1
    ensures BeginCount(steps, more, lineage) == 1 ==>
      exists w: nat :: w < |After(steps).watchers| && After(steps).watchers[w].phase.Cleared? &&
                       After(steps).watchers[w].lineage == lineage
  {
    RunsKeepInv(steps);
    BeginsAreCleared(steps, more, lineage);
    OneClearedPerLineage(After(steps).watchers, lineage);
    if BeginCount(steps, more, lineage) == 1 {
      var w := SumPositive(After(steps).watchers, ClearedIn(lineage));
    }
  }

  // ---------------------------------------------------------------- the flag after Stop

  /** A reconnect that had passed the stop check and has not reported yet. */
  predicate InFlight(p: Phase) { p.Cleared? || p.Calling? || p.Succeeded? }

  /** What is left of the reconnects in flight at s when the run is in s'. */
  ghost predicate OnlyOldReconnects(s: State, s': State, more: seq<Step>) {
    && s'.stopClosed
    && |s.watchers| <= |s'.watchers|
    && (forall i: nat :: i < |s'.forces| ==> s'.forces[i].Forced?)
    && (forall w: nat :: w < |s'.watchers| && InFlight(s'.watchers[w].phase) ==>
          w < |s.watchers| && InFlight(s.watchers[w].phase) &&
          (s'.watchers[w].phase.Succeeded? ==> Answered(s, w, more)))
  }

  ghost predicate Answered(s: State, w: nat, more: seq<Step>) {
    w < |s.watchers| && (s.watchers[w].phase.Succeeded? || WatcherMoves(w, CallbackReturns(true)) in more)
  }

  ghost predicate SetBy(s: State, w: nat, more: seq<Step>) {
    && w < |s.watchers| && InFlight(s.watchers[w].phase)
    && Answered(s, w, more)
    && WatcherMoves(w, Proceed) in more
  }

  lemma OldReconnectsStep(s: State, s1: State, more: seq<Step>, step: Step)
    requires OnlyOldReconnects(s, s1, more) && Enabled(s1, step) && step != CallStart && step != CallForce
    ensures OnlyOldReconnects(s, Next(s1, step), more + [step])
    ensures Next(s1, step).connected && !s1.connected ==>
      step.WatcherMoves? && SetBy(s, step.watcher, more + [step])
  {
    var s2 := Next(s1, step);
    match step
    case WatcherMoves(w, a) =>
      assert forall v: nat :: v < |s1.watchers| && v != w ==> s2.watchers[v] == s1.watchers[v];
      assert s2.watchers[w] == Act(s1.watchers[w], a, s1.stopClosed);
      assert step in more + [step];
    case Launch(i) =>
    case _ => OthersFramed(s1, step);
  }

  /** After stopChan is closed, the flag can turn true again only through a reconnect that was
      in flight at that moment and whose callback succeeded.  (No Start and no ForceReconnect:
      those set the flag themselves.) */
  lemma {:induction false} FlagAfterStop(steps: seq<Step>, more: seq<Step>)
    requires Feasible(steps + more) && Feasible(steps)
    requires After(steps).stopClosed && !After(steps).connected
    requires forall i: nat :: i < |After(steps).forces| ==> After(steps).forces[i].Forced?
    requires CallStart !in more && CallForce !in more
    ensures OnlyOldReconnects(After(steps), After(steps + more), more)
    ensures After(steps + more).connected ==> exists w: nat :: SetBy(After(steps), w, more)
  {
    if more == [] {
      assert steps + more == steps;
    } else {
      var n := |more| - 1;
      var s := After(steps);
      assert (steps + more)[..|steps| + n] == steps + more[..n];
      assert more == more[..n] + [more[n]];
      assert more[n] in more;
      FlagAfterStop(steps, more[..n]);
      var s1 := After(steps + more[..n]);
      OldReconnectsStep(s, s1, more[..n], more[n]);
      if s1.connected {
        var w: nat :| SetBy(s, w, more[..n]);
        assert SetBy(s, w, more);
      }
    }
  }
}
