/** How the dispatch loops come to an end: when a loop can leave its select, how many steps the
    sessions of a run can take, and when the wait group reaches zero. */
module Draining {
  import opened Sums
  import opened Delivery
  import opened DeliveryInvariant
  import opened DeliveryProperties
  import opened Shutdown

  /** A step of a start or a dispatch loop. */
  predicate LoopStep(step: Step) { step.Take? || step.HandlerReturns? || step.Exit? || step.SessionMoves? }

  // ---------------------------------------------------------------- loops that cannot leave

  ghost predicate Idle(s: State, i: nat) {
    forall step :: LoopStep(step) && step.session == i ==> !Enabled(s, step)
  }

  /** The loop's handler waits for a cleanup it has called. */
  predicate InOwnCleanup(s: State, i: nat)
    requires i < |s.sessions|
  {
    s.sessions[i].phase.Handling? && InCleanup(s, i)
  }

  /** A registered loop cannot move if and only if its handler waits for a cleanup, or it waits for
      deliveries with nothing to take, and neither closeChan, its context nor the end of the
      deliveries lets it leave. */
  lemma IdleIff(s: State, i: nat)
    requires i < |s.sessions| && Registered(s.sessions[i]) == 1
    ensures Idle(s, i) <==>
      || InOwnCleanup(s, i)
      || (var x := s.sessions[i]; x.phase.Select? && x.taken >= |x.delivered| && !MayLeave(x, s.closes))
  {
    if Idle(s, i) {
      assert !Enabled(s, Take(i)) && !Enabled(s, Exit(i));
      assert !Enabled(s, SessionMoves(i)) && !Enabled(s, HandlerReturns(i, Nil));
    }
  }

  // ---------------------------------------------------------------- every run is finite

  function PhaseRank(p: Phase): nat {
    match p
    case Handling(_) => 6
    case Opened => 5
    case Returned(_, _) => 5
    case Consuming => 4
    case Settling(_, _) => 4
    case Select => 3
    case Closing => 2
    case Refused => 1
    case Closed => 1
    case _ => 0
  }

  /** The steps left to a session that gets no more deliveries. */
  function StepsLeft(x: Session): nat {
    PhaseRank(x.phase) + if x.taken <= |x.delivered| then 4 * (|x.delivered| - x.taken) else 0
  }

  function BySession(step: Step): nat { if LoopStep(step) || step.ConsumeReturns? then 1 else 0 }
  function ByDelivery(step: Step): nat { if step.Deliver? then 1 else 0 }
  function ByOpen(step: Step): nat { if step.Open? then 1 else 0 }

  lemma CutKeepsSteps(s: State, k: nat, byClient: bool)
    ensures Sum(CloseChannels(s, k, |s.sessions|, byClient).sessions, StepsLeft) == Sum(s.sessions, StepsLeft)
  {
    CutAll(s, k, |s.sessions|, byClient);
    SumSame(s.sessions, CloseChannels(s, k, |s.sessions|, byClient).sessions, StepsLeft);
  }

  lemma OneSessionSteps(s: State, s': State, i: nat)
    requires i < |s.sessions| && |s'.sessions| == |s.sessions| && s'.sessions == s.sessions[i := s'.sessions[i]]
    ensures Sum(s'.sessions, StepsLeft) + StepsLeft(s.sessions[i]) ==
      Sum(s.sessions, StepsLeft) + StepsLeft(s'.sessions[i])
  {
    SumUpdate(s.sessions, i, s'.sessions[i], StepsLeft);
  }

  /** What a step of its own makes of a session: it has fewer steps left, it keeps its channel until
      it closes it, and it goes out only when something lets it. */
  ghost predicate Moved(x: Session, x': Session, closes: nat) {
    && StepsLeft(x') < StepsLeft(x) && x'.ctx == x.ctx && x'.ended == x.ended
    && (x'.phase.Handling? ==> x.phase.Select?)
    && (x.phase.Closing? ==> x'.phase.Closed?)
    && (x.phase.Closed? ==> x'.phase.Gone?)
    && (x.phase.Select? || MidDispatch(x.phase) ==>
          && x'.live == x.live
          && (x'.phase.Select? || MidDispatch(x'.phase) || (x'.phase.Closing? && MayLeave(x, closes))))
  }

  /** A step of session i and of nothing else, as far as the loops can see. */
  ghost predicate OnlyMoved(s: State, s': State, i: nat) {
    && i < |s.sessions| && |s'.sessions| == |s.sessions| && s'.sessions == s.sessions[i := s'.sessions[i]]
    && s'.closes == s.closes && s'.cleanups == s.cleanups && s'.cleaners == s.cleaners
    && Moved(s.sessions[i], s'.sessions[i], s.closes)
  }

  lemma MoveCloser(s: State, i: nat)
    requires i < |s.sessions| && CanMove(s.sessions[i].phase)
    ensures OnlyMoved(s, MoveSession(s, i), i)
  {
    var x := s.sessions[i];
    if x.phase.Settling? {
      SettleCloser(s, i, x.phase.tag, x.phase.ok);
    } else if x.phase.Returned? {
      RecordCloser(s, i, x.phase.tag, x.phase.ok);
    } else if x.phase.Refused? || x.phase.Closing? {
      CloseCloser(s, i);
    } else {
      PhaseCloser(s, i);
    }
  }

  lemma PhaseCloser(s: State, i: nat)
    requires i < |s.sessions| && (s.sessions[i].phase.Consuming? || s.sessions[i].phase.Closed?)
    ensures OnlyMoved(s, MoveSession(s, i), i)
  {
  }

  lemma CloseCloser(s: State, i: nat)
    requires i < |s.sessions| && (s.sessions[i].phase.Refused? || s.sessions[i].phase.Closing?)
    ensures OnlyMoved(s, MoveSession(s, i), i)
  {
  }

  lemma SettleCloser(s: State, i: nat, tag: nat, ok: bool)
    requires i < |s.sessions| && s.sessions[i].phase.Settling?
    ensures OnlyMoved(s, Settle(s, i, tag, ok), i)
  {
    SettleShape(s, i, tag, ok);
  }

  lemma RecordCloser(s: State, i: nat, tag: nat, ok: bool)
    requires i < |s.sessions| && s.sessions[i].phase.Returned?
    ensures OnlyMoved(s, Record(s, i, tag, ok), i)
  {
  }

  lemma LoopStepCloser(s: State, step: Step)
    requires Enabled(s, step) && (LoopStep(step) || step.ConsumeReturns?)
    ensures OnlyMoved(s, Next(s, step), step.session)
  {
    if step.SessionMoves? {
      MoveCloser(s, step.session);
    }
  }

  lemma StepCost(s: State, step: Step)
    requires Inv(s) && Enabled(s, step)
    ensures BySession(step) + Sum(Next(s, step).sessions, StepsLeft) <=
              Sum(s.sessions, StepsLeft) + 4 * ByDelivery(step) + 5 * ByOpen(step)
  {
    if LoopStep(step) || step.ConsumeReturns? {
      LoopStepCloser(s, step);
      OneSessionSteps(s, Next(s, step), step.session);
    } else if step.CleanupMoves? {
      CleanupKeepsSteps(s, step.cleanup);
    } else if step.LoseConnection? {
      CutKeepsSteps(s, step.conn, false);
    } else {
      OutsideCost(s, step);
    }
  }

  lemma OutsideCost(s: State, step: Step)
    requires Inv(s) && Enabled(s, step) && !LoopStep(step) && !step.ConsumeReturns?
    requires !step.CleanupMoves? && !step.LoseConnection?
    ensures Sum(Next(s, step).sessions, StepsLeft) <=
              Sum(s.sessions, StepsLeft) + 4 * ByDelivery(step) + 5 * ByOpen(step)
  {
    var s' := Next(s, step);
    if step.Open? {
      SumAppend(s.sessions, s'.sessions[|s.sessions|], StepsLeft);
    } else if step.Deliver? {
      assert SessionOk(s.sessions[step.session]);
      DeliveryCost(s, step.session, step.msg);
    } else if step.LoseChannel? || step.CancelContext? || step.CancelConsumer? {
      SumUpdate(s.sessions, step.session, s'.sessions[step.session], StepsLeft);
    }
  }

  lemma DeliveryCost(s: State, i: nat, m: Message)
    requires i < |s.sessions| && s.sessions[i].taken <= |s.sessions[i].delivered|
    ensures Sum(DeliverTo(s, i, m).sessions, StepsLeft) == Sum(s.sessions, StepsLeft) + 4
  {
    var x' := DeliverTo(s, i, m).sessions[i];
    assert StepsLeft(x') == StepsLeft(s.sessions[i]) + 4;
    SumUpdate(s.sessions, i, x', StepsLeft);
  }

  lemma CleanupKeepsSteps(s: State, c: nat)
    requires Enabled(s, CleanupMoves(c))
    ensures Sum(MoveCleanup(s, c).sessions, StepsLeft) == Sum(s.sessions, StepsLeft)
  {
    if s.cleanups[c].ChannelsClosed? && HasConnection(s) {
      CutKeepsSteps(s.(earlyClose := s.earlyClose || s.wg != 0, cleanups := s.cleanups[c := Finished]),
                    s.current.conn, true);
    }
  }

  /** In every run the sessions take at most five steps for each start and four for each delivery,
      whatever is lost, cancelled or closed meanwhile. */
  lemma {:induction false} SessionStepsBounded(steps: seq<Step>)
    requires Feasible(steps)
    ensures Sum(steps, BySession) + Sum(After(steps).sessions, StepsLeft) <=
              4 * Sum(steps, ByDelivery) + 5 * Sum(steps, ByOpen)
  {
    if steps != [] {
      var n := |steps| - 1;
      SessionStepsBounded(steps[..n]);
      RunsKeepInv(steps[..n]);
      StepCost(After(steps[..n]), steps[n]);
    }
  }

  // ---------------------------------------------------------------- the wait group

  ghost predicate Resting(s: State) { forall step :: LoopStep(step) ==> !Enabled(s, step) }

  ghost predicate NoHandlerWaits(s: State) {
    forall i: nat :: i < |s.sessions| ==> !InOwnCleanup(s, i)
  }

  /** Once closeChan is closed, loops at rest have all released the wait group if and only if no
      handler waits for a cleanup. */
  lemma RestingMeansDrained(steps: seq<Step>)
    requires Feasible(steps) && After(steps).closes > 0 && Resting(After(steps))
    ensures After(steps).wg == 0 <==> NoHandlerWaits(After(steps))
  {
    RunsKeepInv(steps);
    var s := After(steps);
    if s.wg > 0 {
      var i := SumPositive(s.sessions, Registered);
      assert Idle(s, i);
      IdleIff(s, i);
    } else {
      forall i: nat | i < |s.sessions| ensures !InOwnCleanup(s, i) {
        SumAtLeast(s.sessions, i, Registered);
      }
    }
  }

  /** Something lets the loop out, at once or after the deliveries it still has. */
  predicate LetOut(x: Session, closes: nat) {
    closes > 0 || x.ctx.Cancelled? || !x.live || x.ended
  }

  /** The loop is on its way out or will be let out, and its handler does not keep it. */
  predicate CanLeave(s: State, i: nat)
    requires i < |s.sessions|
  {
    var x := s.sessions[i];
    !InOwnCleanup(s, i) && (x.phase.Closing? || x.phase.Closed? || LetOut(x, s.closes))
  }

  ghost predicate AllCanLeave(s: State) {
    forall i: nat :: i < |s.sessions| && Registered(s.sessions[i]) == 1 ==> CanLeave(s, i)
  }

  ghost predicate Drains(steps: seq<Step>, more: seq<Step>) {
    && Feasible(steps + more) && After(steps + more).wg == 0
    && forall k :: 0 <= k < |more| ==> LoopStep(more[k])
  }

  /** The step that brings a registered loop closer to its end. */
  function LeavingStep(s: State, i: nat): Step
    requires i < |s.sessions|
  {
    match s.sessions[i].phase
    case Handling(_) => HandlerReturns(i, Nil)
    case Select => if MayLeave(s.sessions[i], s.closes) then Exit(i) else Take(i)
    case _ => SessionMoves(i)
  }

  lemma LeavingStepKeeps(s: State, i: nat)
    requires CleanersOk(s) && i < |s.sessions| && Registered(s.sessions[i]) == 1 && AllCanLeave(s)
    ensures var step := LeavingStep(s, i);
      && Enabled(s, step) && AllCanLeave(Next(s, step))
      && Sum(Next(s, step).sessions, StepsLeft) < Sum(s.sessions, StepsLeft)
      && Next(s, step).cleanups == s.cleanups
  {
    var step := LeavingStep(s, i);
    assert CanLeave(s, i);
    LoopStepCloser(s, step);
    OneSessionSteps(s, Next(s, step), i);
    StillLeave(s, Next(s, step), i);
  }

  lemma SameCleanups(s: State, s': State, j: nat)
    requires s'.cleanups == s.cleanups && s'.cleaners == s.cleaners
    ensures InCleanup(s', j) == InCleanup(s, j)
  {
    assert forall c: nat :: PendingFor(s', c, j) == PendingFor(s, c, j);
  }

  lemma StillLeave(s: State, s': State, i: nat)
    requires CleanersOk(s) && AllCanLeave(s) && OnlyMoved(s, s', i) && Registered(s.sessions[i]) == 1
    ensures AllCanLeave(s')
  {
    forall j: nat | j < |s'.sessions| && Registered(s'.sessions[j]) == 1 ensures CanLeave(s', j) {
      assert Registered(s.sessions[j]) == 1;
      assert CanLeave(s, j);
      SameCleanups(s, s', j);
      if j == i && s'.sessions[j].phase.Handling? {
        assert forall c: nat :: !PendingFor(s, c, j);
      }
    }
  }

  /** Where every registered loop can leave, they all can do so by steps of their own, as many as
      they have left at most. */
  lemma LoopsLeave(steps: seq<Step>) returns (more: seq<Step>)
    requires Feasible(steps) && AllCanLeave(After(steps))
    ensures Drains(steps, more) && |more| <= Sum(After(steps).sessions, StepsLeft)
    ensures After(steps + more).cleanups == After(steps).cleanups
  {
    var longer := DrainedRun(steps);
    more := longer[|steps|..];
    assert steps + more == longer;
  }

  lemma {:induction false} DrainedRun(steps: seq<Step>) returns (longer: seq<Step>)
    requires Feasible(steps) && AllCanLeave(After(steps))
    ensures steps <= longer && Feasible(longer)
    ensures After(longer).wg == 0 && After(longer).cleanups == After(steps).cleanups
    ensures |longer| <= |steps| + Sum(After(steps).sessions, StepsLeft)
    ensures forall k :: |steps| <= k < |longer| ==> LoopStep(longer[k])
    decreases Sum(After(steps).sessions, StepsLeft)
  {
    if After(steps).wg == 0 {
      longer := steps;
    } else {
      var step := OneLeaves(steps);
      var next := Extend(steps, step);
      longer := DrainedRun(next);
      assert longer[|steps|] == step;
    }
  }

  lemma OneLeaves(steps: seq<Step>) returns (step: Step)
    requires Feasible(steps) && AllCanLeave(After(steps)) && After(steps).wg != 0
    ensures var s := After(steps);
      && LoopStep(step) && Enabled(s, step) && AllCanLeave(Next(s, step))
      && Sum(Next(s, step).sessions, StepsLeft) < Sum(s.sessions, StepsLeft)
      && Next(s, step).cleanups == s.cleanups
  {
    RunsKeepInv(steps);
    var s := After(steps);
    RunsKeepCleaners(steps);
    var i := SumPositive(s.sessions, Registered);
    step := LeavingStep(s, i);
    LeavingStepKeeps(s, i);
  }

  /** A registered loop that nothing lets out. */
  predicate Stuck(s: State, i: nat) {
    i < |s.sessions| && Registered(s.sessions[i]) == 1 && !CanLeave(s, i)
  }

  lemma StuckStays(s: State, step: Step, i: nat)
    requires Stuck(s, i) && LoopStep(step) && Enabled(s, step)
    ensures Stuck(Next(s, step), i)
  {
    LoopStepCloser(s, step);
    SameCleanups(s, Next(s, step), i);
    StillStuck(s, Next(s, step), step.session, i);
  }

  lemma StillStuck(s: State, s': State, j: nat, i: nat)
    requires Stuck(s, i) && OnlyMoved(s, s', j) && InCleanup(s', i) == InCleanup(s, i)
    requires InOwnCleanup(s, i) ==> j != i
    ensures Stuck(s', i)
  {
  }

  lemma {:induction false} StuckForGood(steps: seq<Step>, more: seq<Step>, i: nat)
    requires Feasible(steps) && Stuck(After(steps), i)
    requires Feasible(steps + more) && forall k :: 0 <= k < |more| ==> LoopStep(more[k])
    ensures Stuck(After(steps + more), i)
  {
    if more == [] {
      assert steps + more == steps;
    } else {
      var n := |more| - 1;
      assert (steps + more)[..|steps| + n] == steps + more[..n];
      StuckForGood(steps, more[..n], i);
      assert After(steps + more) == Next(After(steps + more[..n]), more[n]);
      StuckStays(After(steps + more[..n]), more[n], i);
    }
  }

  /** The wait group can reach zero by steps of the loops alone if and only if no handler waits for a
      cleanup, and every registered loop is leaving or will be let out: closeChan is closed, its
      context has ended, its channel is lost, or the broker has cancelled its consumer. */
  lemma DrainIff(steps: seq<Step>)
    requires Feasible(steps)
    ensures (exists more :: Drains(steps, more)) <==> AllCanLeave(After(steps))
  {
    var s := After(steps);
    if AllCanLeave(s) {
      var more := LoopsLeave(steps);
    } else {
      var i: nat :| i < |s.sessions| && Registered(s.sessions[i]) == 1 && !CanLeave(s, i);
      forall more | Drains(steps, more) ensures false {
        StuckForGood(steps, more, i);
        RunsKeepInv(steps + more);
        SumAtLeast(After(steps + more).sessions, i, Registered);
      }
    }
  }

  /** Every cleanup past its signal has closed closeChan. */
  ghost predicate Signals(s: State) {
    forall c: nat :: c < |s.cleanups| && !s.cleanups[c].Begun? ==> s.closes > 0
  }

  lemma SignalStep(s: State, step: Step)
    requires Signals(s) && Enabled(s, step)
    ensures Signals(Next(s, step)) && (s.closes > 0 ==> Next(s, step).closes > 0)
  {
    if step.CleanupMoves? {
      SignalCleanup(s, step.cleanup);
    } else if LoopStep(step) || step.ConsumeReturns? {
      LoopStepCloser(s, step);
    } else if step.LoseConnection? {
      CutAll(s, step.conn, |s.sessions|, false);
    }
  }

  lemma SignalCleanup(s: State, c: nat)
    requires Signals(s) && Enabled(s, CleanupMoves(c))
    ensures Signals(MoveCleanup(s, c)) && (s.closes > 0 ==> MoveCleanup(s, c).closes > 0)
  {
    if s.cleanups[c].ChannelsClosed? && HasConnection(s) {
      CutAll(s.(earlyClose := s.earlyClose || s.wg != 0, cleanups := s.cleanups[c := Finished]),
             s.current.conn, |s.sessions|, true);
    }
  }

  /** Every cleanup past its signal has closed closeChan, and nothing opens it again: from then on
      every loop, of whichever later start, can leave unless its handler waits for a cleanup. */
  lemma ClosedForGood(steps: seq<Step>, n: nat)
    requires Feasible(steps) && n <= |steps|
    ensures Feasible(steps[..n]) && Signals(After(steps))
    ensures After(steps[..n]).closes > 0 ==> After(steps).closes > 0
    ensures After(steps).closes > 0 ==> (AllCanLeave(After(steps)) <==> NoHandlerWaits(After(steps)))
  {
    StaysClosed(steps, n);
    LeaveOrWait(After(steps));
  }

  lemma {:induction false} StaysClosed(steps: seq<Step>, n: nat)
    requires Feasible(steps) && n <= |steps|
    ensures Feasible(steps[..n]) && Signals(After(steps))
    ensures After(steps[..n]).closes > 0 ==> After(steps).closes > 0
  {
    if |steps| == n {
      assert steps[..n] == steps;
    }
    if steps != [] {
      var k := |steps| - 1;
      StaysClosed(steps[..k], if n <= k then n else k);
      assert n <= k ==> steps[..k][..n] == steps[..n];
      SignalStep(After(steps[..k]), steps[k]);
    }
  }

  lemma LeaveOrWait(s: State)
    ensures s.closes > 0 ==> (AllCanLeave(s) <==> NoHandlerWaits(s))
  {
    if s.closes > 0 && AllCanLeave(s) {
      forall i: nat | i < |s.sessions| ensures !InOwnCleanup(s, i) {
        assert s.sessions[i].phase.Handling? ==> CanLeave(s, i);
      }
    }
  }

  /** The run goes on to a state in which the cleanup passes its drain. */
  ghost predicate GoesOn(steps: seq<Step>, more: seq<Step>, c: nat) {
    && Feasible(steps + more)
    && var s := After(steps + more);
       c < |s.cleanups| && s.cleanups[c].Signalled? && Enabled(s, CleanupMoves(c))
  }

  /** A cleanup that waits for the loops can still go on, by whatever steps, if and only if no handler
      waits for a cleanup; and then steps of the loops are enough. */
  lemma CleanupCanGoOnIff(steps: seq<Step>, c: nat)
    requires Feasible(steps) && c < |After(steps).cleanups| && After(steps).cleanups[c].Signalled?
    ensures (exists more :: GoesOn(steps, more, c)) <==> NoHandlerWaits(After(steps))
    ensures NoHandlerWaits(After(steps)) ==> exists more :: Drains(steps, more) && GoesOn(steps, more, c)
  {
    if NoHandlerWaits(After(steps)) {
      var more := LoopsLetCleanupOn(steps, c);
    } else {
      WaitingHandlerBlocks(steps, c);
    }
  }

  lemma LoopsLetCleanupOn(steps: seq<Step>, c: nat) returns (more: seq<Step>)
    requires Feasible(steps) && c < |After(steps).cleanups| && After(steps).cleanups[c].Signalled?
    requires NoHandlerWaits(After(steps))
    ensures Drains(steps, more) && GoesOn(steps, more, c)
  {
    ClosedForGood(steps, |steps|);
    more := LoopsLeave(steps);
    ReadyToGoOn(After(steps + more), c);
  }

  lemma ReadyToGoOn(s: State, c: nat)
    requires c < |s.cleanups| && s.cleanups[c].Signalled? && s.wg == 0
    ensures Enabled(s, CleanupMoves(c))
  {
  }

  lemma WaitingHandlerBlocks(steps: seq<Step>, c: nat)
    requires Feasible(steps) && !NoHandlerWaits(After(steps))
    ensures !exists more :: GoesOn(steps, more, c)
  {
    var s := After(steps);
    var i: nat :| i < |s.sessions| && InOwnCleanup(s, i);
    var d: nat :| d < |s.cleanups| && PendingFor(s, d, i);
    if more :| GoesOn(steps, more, c) {
      HandlerCleanupNeverReturns(steps, more, d, i);
    }
  }

  lemma OneHandling(m: Message) returns (steps: seq<Step>)
    ensures Feasible(steps) && After(steps).cleanups == [] && After(steps).cleaners == []
    ensures |After(steps).sessions| == 1 && After(steps).sessions[0].phase.Handling?
  {
    steps := OneLoop([], m);
    steps := Extend(steps, Deliver(0, m));
    steps := Extend(steps, Take(0));
  }

  /** A run in which it cannot: the handler of the first delivery calls a cleanup. */
  lemma HandlerMustNotCleanUp(m: Message) returns (steps: seq<Step>)
    ensures Feasible(steps) && PendingFor(After(steps), 0, 0) && After(steps).cleanups == [Signalled]
  {
    steps := OneHandling(m);
    steps := Extend(steps, CallCleanup(ByHandler(0)));
    assert After(steps).cleanups == [Begun] && After(steps).cleaners == [ByHandler(0)];
    steps := Extend(steps, CleanupMoves(0));
  }
}
