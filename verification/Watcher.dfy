/** The connection manager: a watcher goroutine that waits for a close notification, reconnects
    with back-off and hands over to a successor, beside any number of Start, Stop and
    ForceReconnect calls.  A state holds the manager's fields and the position of every
    goroutine; each step is one atomic action of one of them. */
module Watcher {
  import opened Sums
  import opened Backoff

  datatype Phase =
    | Watching               // select on the notify channel and stopChan
    | Notified               // the broker reported an error
    | LoopTop(backoff: int)  // before the stop check of the reconnect loop
    | Cleared(backoff: int)  // stop check passed, callback not called yet
    | Calling(backoff: int)  // inside the reconnect callback
    | Succeeded              // the callback returned a connection, flag not set yet
    | Respawning             // flag set, successor not started yet
    | Waiting(backoff: int)  // select on the timer and stopChan
    | Exited

  /** A watcher belongs to the lineage of the Start call that launched its first ancestor. */
  datatype Goroutine = Goroutine(lineage: nat, phase: Phase, waits: seq<int>)

  datatype StartCall = Launching(spawn: bool) | Launched(spawn: bool)
  datatype StopCall = Selecting | Closing | Stopped
  datatype ForceCall = Fetched(wired: bool) | InCallback | CallbackOk | Forced

  datatype State = State(
    connected: bool,
    stopped: bool,
    stopClosed: bool,
    closes: nat,              // how often stopChan was closed
    panicked: bool,           // close of a closed channel
    hasNotify: bool,
    hasReconnect: bool,
    starts: seq<StartCall>,
    stops: seq<StopCall>,
    forces: seq<ForceCall>,
    watchers: seq<Goroutine>)

  datatype Action = BrokerError | BrokerClosed | SeesStop | Proceed | CallbackReturns(ok: bool) | TimerFires

  datatype Step =
    | SetNotify(present: bool)
    | SetReconnect(present: bool)
    | CallStart
    | Launch(start: nat)
    | CallStop
    | StopMoves(stop: nat)
    | CallForce
    | ForceMoves(force: nat, ok: bool)
    | WatcherMoves(watcher: nat, action: Action)

  const INITIAL: State := State(false, false, false, 0, false, false, false, [], [], [], [])

  // ---------------------------------------------------------------- steps

  predicate CanAct(p: Phase, a: Action, stopClosed: bool) {
    match a
    case BrokerError => p.Watching?
    case BrokerClosed => p.Watching?
    case SeesStop => stopClosed && (p.Watching? || p.Waiting?)
    case Proceed => p.Notified? || p.LoopTop? || p.Cleared? || p.Succeeded? || p.Respawning?
    case CallbackReturns(_) => p.Calling?
    case TimerFires => p.Waiting?
  }

  /** A watcher's own move. */
  function Act(g: Goroutine, a: Action, stopClosed: bool): Goroutine
    requires CanAct(g.phase, a, stopClosed)
  {
    match a
    case BrokerError => g.(phase := Notified)
    case BrokerClosed => g.(phase := Exited)
    case SeesStop => g.(phase := Exited)
    case Proceed =>
      (match g.phase
       case Notified => g.(phase := LoopTop(RECONNECT_BACKOFF))
       case LoopTop(b) => g.(phase := if stopClosed then Exited else Cleared(b))
       case Cleared(b) => g.(phase := Calling(b))
       case Succeeded => g.(phase := Respawning)
       case _ => g.(phase := Exited))
    case CallbackReturns(ok) =>
      if ok then g.(phase := Succeeded)
      else g.(phase := Waiting(g.phase.backoff), waits := g.waits + [g.phase.backoff])
    case TimerFires => g.(phase := LoopTop(NextBackoff(g.phase.backoff)))
  }

  predicate Enabled(s: State, step: Step) {
    match step
    case Launch(i) => i < |s.starts| && s.starts[i].Launching?
    case StopMoves(i) => i < |s.stops| && !s.stops[i].Stopped?
    case ForceMoves(i, _) => i < |s.forces| && !s.forces[i].Forced?
    case WatcherMoves(w, a) => w < |s.watchers| && CanAct(s.watchers[w].phase, a, s.stopClosed)
    case _ => true
  }

  function Next(s: State, step: Step): State
    requires Enabled(s, step)
  {
    match step
    case SetNotify(present) => s.(hasNotify := present)
    case SetReconnect(present) => s.(hasReconnect := present)
    case CallStart => s.(connected := true, starts := s.starts + [Launching(s.hasNotify && s.hasReconnect)])
    case Launch(i) =>
      var spawn := s.starts[i].spawn;
      s.(starts := s.starts[i := Launched(spawn)],
         watchers := if spawn then s.watchers + [Goroutine(i, Watching, [])] else s.watchers)
    case CallStop =>
      s.(connected := false, stopped := true, stops := s.stops + [if s.stopped then Stopped else Selecting])
    case StopMoves(i) => StopNext(s, i)
    case CallForce => s.(forces := s.forces + [Fetched(s.hasReconnect)])
    case ForceMoves(i, ok) => ForceNext(s, i, ok)
    case WatcherMoves(w, a) => WatcherNext(s, w, a)
  }

  /** The select of Stop and the close behind it are two actions. */
  function StopNext(s: State, i: nat): State
    requires i < |s.stops|
  {
    if s.stops[i].Selecting? then s.(stops := s.stops[i := if s.stopClosed then Stopped else Closing])
    else if s.stopClosed then s.(panicked := true, stops := s.stops[i := Stopped])
    else s.(stopClosed := true, closes := s.closes + 1, stops := s.stops[i := Stopped])
  }

  function ForceNext(s: State, i: nat, ok: bool): State
    requires i < |s.forces|
  {
    match s.forces[i]
    case Fetched(wired) =>
      if wired then s.(connected := false, forces := s.forces[i := InCallback])
      else s.(connected := true, forces := s.forces[i := Forced])
    case InCallback => s.(forces := s.forces[i := if ok then CallbackOk else Forced])
    case CallbackOk => s.(connected := true, forces := s.forces[i := Forced])
    case Forced => s
  }

  function WatcherNext(s: State, w: nat, a: Action): State
    requires Enabled(s, WatcherMoves(w, a))
  {
    var g := s.watchers[w];
    var moved := s.watchers[w := Act(g, a, s.stopClosed)];
    s.(connected := FlagAfter(g.phase, s.connected),
       watchers := if g.phase.Respawning? then moved + [Goroutine(g.lineage, Watching, [])] else moved)
  }

  /** The flag as a watcher leaves it: cleared before the reconnect loop, set after it. */
  function FlagAfter(p: Phase, connected: bool): bool {
    if p.Notified? then false else if p.Succeeded? then true else connected
  }

  // ---------------------------------------------------------------- runs

  predicate Feasible(steps: seq<Step>)
    decreases |steps|, 0
  {
    steps == [] || (var n := |steps| - 1; Feasible(steps[..n]) && Enabled(After(steps[..n]), steps[n]))
  }

  function After(steps: seq<Step>): State
    requires Feasible(steps)
    decreases |steps|, 1
  {
    if steps == [] then INITIAL else var n := |steps| - 1; Next(After(steps[..n]), steps[n])
  }

  // ---------------------------------------------------------------- invariant

  predicate Active(g: Goroutine) { !g.phase.Exited? }

  function Alive(g: Goroutine): nat { if Active(g) then 1 else 0 }

  function Spawned(c: StartCall): nat { if c == Launched(true) then 1 else 0 }

  /** Only the first Stop call reaches the close. */
  ghost predicate StopInv(s: State) {
    && !s.panicked
    && s.closes == (if s.stopClosed then 1 else 0)
    && (s.stopClosed ==> s.stopped)
    && (forall i: nat :: i < |s.stops| && !s.stops[i].Stopped? ==> s.stopped && !s.stopClosed)
    && (forall i: nat, j: nat :: i < j < |s.stops| ==> s.stops[i].Stopped? || s.stops[j].Stopped?)
  }

  ghost predicate Owned(watchers: seq<Goroutine>, starts: seq<StartCall>) {
    forall w: nat :: w < |watchers| ==>
      watchers[w].lineage < |starts| && starts[watchers[w].lineage] == Launched(true)
  }

  /** A lineage has at most one active watcher. */
  ghost predicate Unique(watchers: seq<Goroutine>) {
    forall v: nat, w: nat :: v < w < |watchers| && Active(watchers[v]) && Active(watchers[w]) ==>
      watchers[v].lineage != watchers[w].lineage
  }

  ghost predicate LineageInv(watchers: seq<Goroutine>, starts: seq<StartCall>) {
    Owned(watchers, starts) && Unique(watchers) && Sum(watchers, Alive) <= Sum(starts, Spawned)
  }

  /** The waits a watcher has requested follow the back-off recurrence, and the back-off it
      carries is the next one. */
  ghost predicate WaitsOk(g: Goroutine) {
    && FollowBackoff(RECONNECT_BACKOFF, g.waits)
    && (g.phase.Watching? || g.phase.Notified? ==> g.waits == [])
    && (g.phase.LoopTop? || g.phase.Cleared? || g.phase.Calling? ==>
          g.phase.backoff == WaitAt(RECONNECT_BACKOFF, |g.waits|))
    && (g.phase.Waiting? ==> |g.waits| >= 1 && g.phase.backoff == WaitAt(RECONNECT_BACKOFF, |g.waits| - 1))
  }

  ghost predicate WaitInv(s: State) {
    forall w: nat :: w < |s.watchers| ==> WaitsOk(s.watchers[w])
  }

  ghost predicate Inv(s: State) {
    StopInv(s) && LineageInv(s.watchers, s.starts) && WaitInv(s)
  }

  lemma StopStep(s: State, step: Step)
    requires StopInv(s) && Enabled(s, step)
    ensures StopInv(Next(s, step))
  {
  }

  lemma LineageStep(s: State, step: Step)
    requires LineageInv(s.watchers, s.starts) && Enabled(s, step)
    ensures LineageInv(Next(s, step).watchers, Next(s, step).starts)
  {
    match step
    case CallStart =>
      StartGrows(s.watchers, s.starts, Launching(s.hasNotify && s.hasReconnect));
    case Launch(i) =>
      LaunchMove(s.watchers, s.starts, i);
    case WatcherMoves(w, a) =>
      LineageMove(s, w, a);
    case _ =>
      OthersFramed(s, step);
  }

  /** The remaining steps touch neither the watchers nor the Start calls. */
  lemma OthersFramed(s: State, step: Step)
    requires Enabled(s, step) && !step.CallStart? && !step.Launch? && !step.WatcherMoves?
    ensures Next(s, step).watchers == s.watchers && Next(s, step).starts == s.starts
  {
    match step
    case StopMoves(i) => StopFramed(s, i);
    case ForceMoves(i, ok) => ForceFramed(s, i, ok);
    case _ =>
  }

  lemma StopFramed(s: State, i: nat)
    requires i < |s.stops|
    ensures StopNext(s, i).watchers == s.watchers && StopNext(s, i).starts == s.starts
  {
  }

  lemma ForceFramed(s: State, i: nat, ok: bool)
    requires i < |s.forces|
    ensures ForceNext(s, i, ok).watchers == s.watchers && ForceNext(s, i, ok).starts == s.starts
  {
  }

  lemma LineageMove(s: State, w: nat, a: Action)
    requires LineageInv(s.watchers, s.starts) && Enabled(s, WatcherMoves(w, a))
    ensures LineageInv(WatcherNext(s, w, a).watchers, WatcherNext(s, w, a).starts)
  {
    var g' := Act(s.watchers[w], a, s.stopClosed);
    assert g'.lineage == s.watchers[w].lineage && (s.watchers[w].phase.Respawning? ==> !Active(g'));
    UniqueMove(s.watchers, w, g', s.starts);
  }

  lemma StartGrows(watchers: seq<Goroutine>, starts: seq<StartCall>, c: StartCall)
    requires LineageInv(watchers, starts)
    ensures LineageInv(watchers, starts + [c])
  {
    SumAppend(starts, c, Spawned);
  }

  lemma LaunchMove(watchers: seq<Goroutine>, starts: seq<StartCall>, i: nat)
    requires LineageInv(watchers, starts) && i < |starts| && starts[i].Launching?
    ensures var spawn := starts[i].spawn;
      LineageInv(if spawn then watchers + [Goroutine(i, Watching, [])] else watchers, starts[i := Launched(spawn)])
  {
    var starts' := starts[i := Launched(starts[i].spawn)];
    SumUpdate(starts, i, Launched(starts[i].spawn), Spawned);
    assert Owned(watchers, starts');
    if starts[i].spawn {
      SumAppend(watchers, Goroutine(i, Watching, []), Alive);
      assert Unique(watchers + [Goroutine(i, Watching, [])]);
    }
  }

  /** Moving one watcher, and replacing it by a successor when it exits, keeps lineages apart. */
  lemma UniqueMove(watchers: seq<Goroutine>, w: nat, g': Goroutine, starts: seq<StartCall>)
    requires LineageInv(watchers, starts) && w < |watchers|
    requires Active(watchers[w]) && g'.lineage == watchers[w].lineage
    ensures LineageInv(watchers[w := g'], starts)
    ensures !Active(g') ==> LineageInv(watchers[w := g'] + [Goroutine(g'.lineage, Watching, [])], starts)
  {
    SumUpdate(watchers, w, g', Alive);
    SumAppend(watchers[w := g'], Goroutine(g'.lineage, Watching, []), Alive);
  }

  lemma WaitsMove(g: Goroutine, a: Action, stopClosed: bool)
    requires WaitsOk(g) && CanAct(g.phase, a, stopClosed)
    ensures WaitsOk(Act(g, a, stopClosed))
  {
  }

  lemma WaitStep(s: State, step: Step)
    requires WaitInv(s) && Enabled(s, step)
    ensures WaitInv(Next(s, step))
  {
    match step
    case WatcherMoves(w, a) => WaitsMove(s.watchers[w], a, s.stopClosed);
    case Launch(_) =>
    case CallStart =>
    case _ => OthersFramed(s, step);
  }

  lemma StepInv(s: State, step: Step)
    requires Inv(s) && Enabled(s, step)
    ensures Inv(Next(s, step))
  {
    StopStep(s, step);
    LineageStep(s, step);
    WaitStep(s, step);
  }

  lemma {:induction false} RunsKeepInv(steps: seq<Step>)
    requires Feasible(steps)
    ensures Inv(After(steps))
  {
    if steps != [] {
      var n := |steps| - 1;
      RunsKeepInv(steps[..n]);
      StepInv(After(steps[..n]), steps[n]);
    }
  }
}
