/** Shutdown: the order in which cleanup and the dispatch loops give up channels and connections,
    exactly when a late start can break it, and cleanups that wait for their own caller. */
module Shutdown {
  import opened Sums
  import opened Delivery
  import opened DeliveryInvariant
  import opened DeliveryProperties

  // ---------------------------------------------------------------- starts that do harm

  /** A cleanup has seen the wait group at zero and has closes ahead of it. */
  predicate MidClose(c: Cleanup) { c.Drained? || c.ChannelsClosed? }

  ghost predicate Window(s: State) {
    exists c: nat :: c < |s.cleanups| && MidClose(s.cleanups[c])
  }

  /** The step registers a dispatch loop. */
  predicate Registers(s: State, step: Step) {
    step.SessionMoves? && step.session < |s.sessions| && s.sessions[step.session].phase.Consuming?
  }

  /** The client has closed the channel, and there is a delivery the loop would settle on it. */
  predicate OwesSettlement(x: Session) { x.shut && !x.autoAck && x.delivered != [] }

  /** A loop is registered between the drain and the closes of a cleanup, or on a channel that the
      client has closed and that owes settlements. */
  ghost predicate Harmful(s: State, step: Step) {
    Registers(s, step) && (Window(s) || OwesSettlement(s.sessions[step.session]))
  }

  ghost predicate SafeStarts(steps: seq<Step>)
    requires Feasible(steps)
  {
    steps == [] || (var n := |steps| - 1; SafeStarts(steps[..n]) && !Harmful(After(steps[..n]), steps[n]))
  }

  /** A close under a registered loop, or a settlement on a channel the client has closed. */
  predicate Violated(s: State) { s.earlyClose || s.lateSettle }

  // ---------------------------------------------------------------- the invariant of shutdown

  /** A registered loop on a channel the client closed has nothing to settle there. */
  predicate NothingOwed(x: Session) {
    x.shut ==> !x.live && (Registered(x) == 1 ==> x.phase.Closed? || x.autoAck || x.delivered == [])
  }

  ghost predicate ConnsOk(conns: seq<Conn>, sessions: seq<Session>) {
    && (forall k: nat :: k < |conns| && conns[k].closedByClient ==> !conns[k].live)
    && (forall i: nat :: i < |sessions| ==> sessions[i].conn < |conns|)
    && (forall i: nat :: i < |sessions| && conns[sessions[i].conn].closedByClient ==> sessions[i].shut)
  }

  ghost predicate ShutInv(s: State) {
    && !Violated(s)
    && (Window(s) ==> s.wg == 0)
    && (forall i: nat :: i < |s.sessions| ==> NothingOwed(s.sessions[i]))
    && ConnsOk(s.conns, s.sessions)
  }

  /** The channels of the connection among the first n sessions are cut, and nothing else changes. */
  ghost predicate CutTo(s: State, s': State, k: nat, n: nat, byClient: bool) {
    && |s'.sessions| == |s.sessions| && s' == s.(broker := s'.broker, sessions := s'.sessions)
    && forall i: nat :: i < |s.sessions| ==>
         s'.sessions[i] == if i < n && s.sessions[i].conn == k then Cut(s.sessions[i], byClient) else s.sessions[i]
  }

  lemma {:induction false} CutAll(s: State, k: nat, n: nat, byClient: bool)
    requires n <= |s.sessions|
    ensures CutTo(s, CloseChannels(s, k, n, byClient), k, n, byClient)
  {
    if n > 0 {
      CutAll(s, k, n - 1, byClient);
      CutNext(s, CloseChannels(s, k, n - 1, byClient), k, n - 1, byClient);
    }
  }

  lemma CutNext(s: State, s1: State, k: nat, n: nat, byClient: bool)
    requires n < |s.sessions| && CutTo(s, s1, k, n, byClient)
    ensures CutTo(s, if s1.sessions[n].conn == k then CloseChannel(s1, n, byClient) else s1, k, n + 1, byClient)
  {
  }

  /** One session moves, within what the invariant allows it. */
  lemma SessionShifts(s: State, s': State, i: nat)
    requires ShutInv(s) && i < |s.sessions| && |s'.sessions| == |s.sessions|
    requires s'.sessions == s.sessions[i := s'.sessions[i]] && NothingOwed(s'.sessions[i])
    requires s'.sessions[i].conn == s.sessions[i].conn && (s.sessions[i].shut ==> s'.sessions[i].shut)
    requires s'.conns == s.conns && s'.cleanups == s.cleanups && (Window(s) ==> s'.wg == 0) && !Violated(s')
    ensures ShutInv(s')
  {
  }

  lemma ShutSession(s: State, i: nat)
    requires Inv(s) && ShutInv(s) && Enabled(s, SessionMoves(i)) && !Harmful(s, SessionMoves(i))
    ensures ShutInv(MoveSession(s, i))
  {
    var x := s.sessions[i];
    assert SessionOk(x) && NothingOwed(x);
    if x.phase.Settling? {
      SettleNotLate(s, i, x.phase.tag, x.phase.ok);
    } else {
      SumAtLeast(s.sessions, i, Registered);
      if x.phase.Refused? || x.phase.Closing? {
        CloseNotLate(s, i);
      } else {
        MoveNotLate(s, i);
      }
    }
    SessionShifts(s, MoveSession(s, i), i);
  }

  lemma MoveNotLate(s: State, i: nat)
    requires i < |s.sessions| && SessionOk(s.sessions[i]) && NothingOwed(s.sessions[i]) && !Violated(s)
    requires s.sessions[i].phase.Consuming? || s.sessions[i].phase.Returned? || s.sessions[i].phase.Closed?
    requires s.sessions[i].phase.Consuming? ==> !OwesSettlement(s.sessions[i])
    ensures var s' := MoveSession(s, i);
      && !Violated(s') && |s'.sessions| == |s.sessions| && s'.sessions == s.sessions[i := s'.sessions[i]]
      && NothingOwed(s'.sessions[i]) && s'.conns == s.conns && s'.cleanups == s.cleanups
      && s'.wg == s.wg + Registered(s'.sessions[i]) - Registered(s.sessions[i])
      && s'.sessions[i].conn == s.sessions[i].conn && (s.sessions[i].shut ==> s'.sessions[i].shut)
  {
  }

  lemma CloseNotLate(s: State, i: nat)
    requires i < |s.sessions| && SessionOk(s.sessions[i]) && NothingOwed(s.sessions[i]) && !Violated(s)
    requires s.sessions[i].phase.Refused? || s.sessions[i].phase.Closing?
    ensures var s' := MoveSession(s, i);
      && !Violated(s') && |s'.sessions| == |s.sessions| && s'.sessions == s.sessions[i := s'.sessions[i]]
      && NothingOwed(s'.sessions[i]) && s'.conns == s.conns && s'.cleanups == s.cleanups
      && s'.wg == s.wg + Registered(s'.sessions[i]) - Registered(s.sessions[i])
      && s'.sessions[i].conn == s.sessions[i].conn && (s.sessions[i].shut ==> s'.sessions[i].shut)
  {
  }

  lemma SettleNotLate(s: State, i: nat, tag: nat, ok: bool)
    requires i < |s.sessions| && SessionOk(s.sessions[i]) && NothingOwed(s.sessions[i])
    requires s.sessions[i].phase == Settling(tag, ok) && !Violated(s)
    ensures var s' := Settle(s, i, tag, ok);
      && !Violated(s') && |s'.sessions| == |s.sessions| && s'.sessions == s.sessions[i := s'.sessions[i]]
      && NothingOwed(s'.sessions[i]) && s'.conns == s.conns && s'.cleanups == s.cleanups && s'.wg == s.wg
      && s'.sessions[i].conn == s.sessions[i].conn && s'.sessions[i].shut == s.sessions[i].shut
  {
  }

  lemma ShutLoop(s: State, step: Step)
    requires Inv(s) && ShutInv(s) && Enabled(s, step)
    requires || step.Deliver? || step.CancelConsumer? || step.ConsumeReturns? || step.Take? || step.HandlerReturns?
             || step.Exit? || step.CancelContext?
    ensures ShutInv(Next(s, step))
  {
    assert SessionOk(s.sessions[step.session]) && NothingOwed(s.sessions[step.session]);
    LoopNotLate(s, step);
    SessionShifts(s, Next(s, step), step.session);
  }

  lemma LoopNotLate(s: State, step: Step)
    requires Enabled(s, step) && !Violated(s)
    requires || step.Deliver? || step.CancelConsumer? || step.ConsumeReturns? || step.Take? || step.HandlerReturns?
             || step.Exit? || step.CancelContext?
    requires SessionOk(s.sessions[step.session]) && NothingOwed(s.sessions[step.session])
    ensures var s', i := Next(s, step), step.session;
      && !Violated(s') && |s'.sessions| == |s.sessions| && s'.sessions == s.sessions[i := s'.sessions[i]]
      && NothingOwed(s'.sessions[i]) && s'.conns == s.conns && s'.cleanups == s.cleanups && s'.wg == s.wg
      && s'.sessions[i].conn == s.sessions[i].conn && s'.sessions[i].shut == s.sessions[i].shut
  {
  }

  /** A connection closes: on the client's side only when no loop is registered. */
  lemma ShutConnection(s: State, k: nat, byClient: bool)
    requires Inv(s) && ShutInv(s) && k < |s.conns| && (byClient ==> s.wg == 0)
    ensures ShutInv(CloseConnection(s, k, byClient))
  {
    var s' := CloseConnection(s, k, byClient);
    CutAll(s, k, |s.sessions|, byClient);
    forall i: nat | i < |s.sessions| ensures NothingOwed(s'.sessions[i]) {
      assert NothingOwed(s.sessions[i]);
      SumAtLeast(s.sessions, i, Registered);
    }
    assert Window(s') == Window(s);
  }

  lemma ShutCleanup(s: State, c: nat)
    requires Inv(s) && ShutInv(s) && Enabled(s, CleanupMoves(c))
    ensures ShutInv(MoveCleanup(s, c))
  {
    var s' := MoveCleanup(s, c);
    if s.cleanups[c].ChannelsClosed? {
      assert Window(s);
      var s1 := s.(cleanups := s.cleanups[c := Finished]);
      WindowShrinks(s, s1, c);
      if HasConnection(s) {
        Frame(s, s1);
        ShutConnection(s1, s.current.conn, true);
        WindowSame(CloseConnection(s1, s.current.conn, true), s');
      }
    } else {
      if s.cleanups[c].Drained? {
        assert Window(s);
      }
      WindowShrinks(s, s', c);
    }
  }

  lemma WindowSame(s: State, s': State)
    requires ShutInv(s) && s' == s.(current := s'.current)
    ensures ShutInv(s')
  {
    assert Window(s') == Window(s);
  }

  lemma WindowShrinks(s: State, s': State, c: nat)
    requires c < |s.cleanups| && |s'.cleanups| == |s.cleanups| && s'.cleanups == s.cleanups[c := s'.cleanups[c]]
    requires MidClose(s'.cleanups[c]) ==> MidClose(s.cleanups[c]) || s.wg == 0
    requires Window(s) ==> s.wg == 0
    ensures Window(s') ==> s.wg == 0
  {
    if d: nat :| d < |s'.cleanups| && MidClose(s'.cleanups[d]) {
      if d != c {
        assert MidClose(s.cleanups[d]);
      }
    }
  }

  lemma ShutStep(s: State, step: Step)
    requires Inv(s) && ShutInv(s) && Enabled(s, step) && !Harmful(s, step)
    ensures ShutInv(Next(s, step))
  {
    var s' := Next(s, step);
    match step
    case CleanupMoves(c) => ShutCleanup(s, c);
    case SessionMoves(i) => ShutSession(s, i);
    case LoseConnection(k) => ShutConnection(s, k, false);
    case LoseChannel(i) => SessionShifts(s, s', i);
    case Publish(_) => ShutArrival(s, step);
    case Dial => ShutArrival(s, step);
    case Open(_, _, _) => ShutArrival(s, step);
    case CallCleanup(_) => ShutArrival(s, step);
    case _ => ShutLoop(s, step);
  }

  lemma ShutArrival(s: State, step: Step)
    requires ShutInv(s) && Enabled(s, step) && (step.Publish? || step.Dial? || step.Open? || step.CallCleanup?)
    ensures ShutInv(Next(s, step))
  {
    var s' := Next(s, step);
    assert forall d: nat :: d < |s.cleanups| ==> s'.cleanups[d] == s.cleanups[d];
    assert step.CallCleanup? ==> !MidClose(s'.cleanups[|s.cleanups|]);
    assert Window(s') == Window(s);
  }

  /** Shutdown order: without harmful starts cleanup closes channels and the connection only while
      no loop is registered, no loop settles on a channel or over a connection the client has
      closed, and closeChan is closed at most once. */
  lemma {:induction false} ShutdownOrder(steps: seq<Step>)
    requires Feasible(steps) && SafeStarts(steps)
    ensures var s := After(steps);
      && !s.earlyClose && !s.lateSettle && s.closes <= 1
      && (Window(s) ==> s.wg == 0)
    ensures ShutInv(After(steps))
  {
    RunsKeepInv(steps);
    if steps != [] {
      var n := |steps| - 1;
      ShutdownOrder(steps[..n]);
      RunsKeepInv(steps[..n]);
      ShutStep(After(steps[..n]), steps[n]);
    }
  }

  // ---------------------------------------------------------------- cleanups called by handlers

  /** A handler whose cleanup has not returned is still running, and its cleanup has not drained. */
  ghost predicate CleanersOk(s: State) {
    && |s.cleaners| == |s.cleanups|
    && forall c: nat, i: nat :: PendingFor(s, c, i) ==>
         i < |s.sessions| && s.sessions[i].phase.Handling? && (s.cleanups[c].Begun? || s.cleanups[c].Signalled?)
  }

  /** Only its return takes a session out of its handler. */
  lemma HandlersStay(s: State, step: Step)
    requires Enabled(s, step) && !step.HandlerReturns?
    ensures |s.sessions| <= |Next(s, step).sessions|
    ensures forall i: nat :: i < |s.sessions| && s.sessions[i].phase.Handling? ==>
              Next(s, step).sessions[i].phase.Handling?
  {
    if step.LoseConnection? {
      CutAll(s, step.conn, |s.sessions|, false);
    } else if step.CleanupMoves? {
      CleanupKeepsPhases(s, step.cleanup);
    } else if step.SessionMoves? {
      MoveElsewhere(s, step.session);
    }
  }

  lemma CleanupKeepsPhases(s: State, c: nat)
    requires c < |s.cleanups|
    ensures |MoveCleanup(s, c).sessions| == |s.sessions|
    ensures forall i: nat :: i < |s.sessions| ==> MoveCleanup(s, c).sessions[i].phase == s.sessions[i].phase
  {
    if s.cleanups[c].ChannelsClosed? && HasConnection(s) {
      CutAll(s.(earlyClose := s.earlyClose || s.wg != 0, cleanups := s.cleanups[c := Finished]),
             s.current.conn, |s.sessions|, true);
    }
  }

  /** A move changes one session, and of the shared state only what these fields say. */
  ghost predicate OnlySession(s: State, s': State, i: nat)
    requires i < |s.sessions|
  {
    && |s'.sessions| == |s.sessions| && s'.sessions == s.sessions[i := s'.sessions[i]]
    && s'.cleanups == s.cleanups && s'.cleaners == s.cleaners && s'.conns == s.conns
    && s'.current == s.current && s'.closes == s.closes
  }

  lemma MoveElsewhere(s: State, i: nat)
    requires i < |s.sessions| && CanMove(s.sessions[i].phase)
    ensures OnlySession(s, MoveSession(s, i), i)
  {
    var x := s.sessions[i];
    if x.phase.Settling? {
      SettleShape(s, i, x.phase.tag, x.phase.ok);
    } else if x.phase.Returned? {
      RecordShape(s, i, x.phase.tag, x.phase.ok);
    } else {
      PhaseShape(s, i, if x.phase.Consuming? then Select else if x.phase.Refused? then Failed
                       else if x.phase.Closing? then Closed else Gone);
    }
  }

  lemma RecordShape(s: State, i: nat, tag: nat, ok: bool)
    requires i < |s.sessions|
    ensures OnlySession(s, Record(s, i, tag, ok), i)
  {
  }

  lemma PhaseShape(s: State, i: nat, p: Phase)
    requires i < |s.sessions|
    ensures forall wg :: OnlySession(s, SetPhase(s, i, p).(wg := wg), i)
    ensures OnlySession(s, SetPhase(CloseChannel(s, i, true), i, p), i)
  {
  }

  lemma SettleShape(s: State, i: nat, tag: nat, ok: bool)
    requires i < |s.sessions|
    ensures var s' := Settle(s, i, tag, ok);
      && |s'.sessions| == |s.sessions| && s'.sessions == s.sessions[i := s'.sessions[i]]
      && s' == s.(broker := s'.broker, sessions := s'.sessions, lateSettle := s'.lateSettle,
                  unknownTag := s'.unknownTag)
      && var x, x' := s.sessions[i], s'.sessions[i];
         x' == x.(phase := Select, attempts := x'.attempts, unsettled := x'.unsettled)
  {
  }

  /** How a step changes the cleanups. */
  lemma CleanupsAfter(s: State, step: Step)
    requires Enabled(s, step)
    ensures var s' := Next(s, step);
      if step.CallCleanup? then s'.cleanups == s.cleanups + [Begun] && s'.cleaners == s.cleaners + [step.cleaner]
      else if step.CleanupMoves? then
        && s'.cleaners == s.cleaners && |s'.cleanups| == |s.cleanups|
        && s'.cleanups == s.cleanups[step.cleanup := s'.cleanups[step.cleanup]]
        && (s.cleanups[step.cleanup].Begun? ==> s'.cleanups[step.cleanup].Signalled?)
      else s'.cleanups == s.cleanups && s'.cleaners == s.cleaners
  {
    if step.SessionMoves? {
      MoveElsewhere(s, step.session);
    } else if step.LoseConnection? {
      CutAll(s, step.conn, |s.sessions|, false);
    } else if step.CleanupMoves? && s.cleanups[step.cleanup].ChannelsClosed? && HasConnection(s) {
      CutAll(s.(earlyClose := s.earlyClose || s.wg != 0, cleanups := s.cleanups[step.cleanup := Finished]),
             s.current.conn, |s.sessions|, true);
    }
  }

  lemma CleanersStep(s: State, step: Step)
    requires Inv(s) && CleanersOk(s) && Enabled(s, step)
    ensures CleanersOk(Next(s, step))
  {
    CleanupsAfter(s, step);
    if step.HandlerReturns? {
      HandlerLeaves(s, Next(s, step), step.session);
    } else {
      HandlersStay(s, step);
      if step.CleanupMoves? {
        WaitsForItsCaller(s, step.cleanup);
      }
      PendingKept(s, Next(s, step), step);
    }
  }

  lemma HandlerLeaves(s: State, s': State, j: nat)
    requires CleanersOk(s) && !InCleanup(s, j) && j < |s.sessions| && |s'.sessions| == |s.sessions|
    requires s'.sessions == s.sessions[j := s'.sessions[j]] && s'.cleanups == s.cleanups && s'.cleaners == s.cleaners
    ensures CleanersOk(s')
  {
    forall c: nat, i: nat | PendingFor(s', c, i)
      ensures i < |s'.sessions| && s'.sessions[i].phase.Handling? &&
        (s'.cleanups[c].Begun? || s'.cleanups[c].Signalled?)
    {
      assert PendingFor(s, c, i);
      assert i != j by { assert c < |s.cleanups|; }
    }
  }

  /** A cleanup called by a handler cannot pass the drain: the loop of that handler is registered. */
  lemma WaitsForItsCaller(s: State, c: nat)
    requires Inv(s) && CleanersOk(s) && Enabled(s, CleanupMoves(c))
    ensures s.cleaners[c].ByHandler? ==> s.cleanups[c].Begun?
  {
    if s.cleaners[c].ByHandler? {
      assert PendingFor(s, c, s.cleaners[c].session);
      SumAtLeast(s.sessions, s.cleaners[c].session, Registered);
    }
  }

  lemma PendingKept(s: State, s': State, step: Step)
    requires CleanersOk(s) && |s.sessions| <= |s'.sessions|
    requires forall i: nat :: i < |s.sessions| && s.sessions[i].phase.Handling? ==> s'.sessions[i].phase.Handling?
    requires
      if step.CallCleanup? then
        && s'.cleanups == s.cleanups + [Begun] && s'.cleaners == s.cleaners + [step.cleaner]
        && (step.cleaner.ByHandler? ==>
              step.cleaner.session < |s.sessions| && s.sessions[step.cleaner.session].phase.Handling?)
      else if step.CleanupMoves? then
        && step.cleanup < |s.cleanups| && s'.cleaners == s.cleaners && |s'.cleanups| == |s.cleanups|
        && s'.cleanups == s.cleanups[step.cleanup := s'.cleanups[step.cleanup]]
        && !s.cleanups[step.cleanup].Finished?
        && (s.cleaners[step.cleanup].ByHandler? ==> s'.cleanups[step.cleanup].Signalled?)
      else s'.cleanups == s.cleanups && s'.cleaners == s.cleaners
    ensures CleanersOk(s')
  {
    forall c: nat, i: nat | PendingFor(s', c, i)
      ensures i < |s'.sessions| && s'.sessions[i].phase.Handling? &&
        (s'.cleanups[c].Begun? || s'.cleanups[c].Signalled?)
    {
      if c < |s.cleanups| {
        assert PendingFor(s, c, i);
      }
    }
  }

  lemma {:induction false} RunsKeepCleaners(steps: seq<Step>)
    requires Feasible(steps)
    ensures CleanersOk(After(steps))
  {
    if steps != [] {
      var n := |steps| - 1;
      RunsKeepCleaners(steps[..n]);
      RunsKeepInv(steps[..n]);
      CleanersStep(After(steps[..n]), steps[n]);
    }
  }

  lemma PendingStays(s: State, step: Step, c: nat, i: nat)
    requires Inv(s) && CleanersOk(s) && Enabled(s, step) && PendingFor(s, c, i)
    ensures PendingFor(Next(s, step), c, i)
  {
    CleanupsAfter(s, step);
    if step.CleanupMoves? {
      WaitsForItsCaller(s, step.cleanup);
    }
  }

  /** A cleanup called by a handler never returns, whatever else happens: it waits for the loop that
      waits for it, the wait group stays above zero, and no other cleanup passes its drain either. */
  lemma {:induction false} HandlerCleanupNeverReturns(steps: seq<Step>, more: seq<Step>, c: nat, i: nat)
    requires Feasible(steps + more) && Feasible(steps) && PendingFor(After(steps), c, i)
    ensures PendingFor(After(steps + more), c, i) && After(steps + more).wg > 0
  {
    if more == [] {
      assert steps + more == steps;
    } else {
      var n := |more| - 1;
      assert (steps + more)[..|steps| + n] == steps + more[..n];
      HandlerCleanupNeverReturns(steps, more[..n], c, i);
      RunsKeepInv(steps + more[..n]);
      RunsKeepCleaners(steps + more[..n]);
      PendingStays(After(steps + more[..n]), more[n], c, i);
    }
    RunsKeepInv(steps + more);
    RunsKeepCleaners(steps + more);
    SumAtLeast(After(steps + more).sessions, i, Registered);
  }

  // ---------------------------------------------------------------- exactly the harmful starts

  /** No loop is registered from step n on. */
  ghost predicate NoStartsFrom(steps: seq<Step>, n: nat)
    requires Feasible(steps) && n <= |steps|
  {
    |steps| == n || (var k := |steps| - 1; NoStartsFrom(steps[..k], n) && !Registers(After(steps[..k]), steps[k]))
  }

  ghost predicate Breaks(steps: seq<Step>, more: seq<Step>) {
    Feasible(steps + more) && NoStartsFrom(steps + more, |steps|) && Violated(After(steps + more))
  }

  /** The run can go on, without registering a loop, to a violation. */
  ghost predicate Breakable(steps: seq<Step>) { exists more :: Breaks(steps, more) }

  lemma {:induction false} SafeTo(steps: seq<Step>, n: nat)
    requires Feasible(steps) && SafeStarts(steps) && n <= |steps|
    ensures Feasible(steps[..n]) && SafeStarts(steps[..n])
  {
    if n == |steps| {
      assert steps[..n] == steps;
    } else {
      SafeTo(steps[..|steps| - 1], n);
      assert steps[..|steps| - 1][..n] == steps[..n];
    }
  }

  /** Only starts can do harm. */
  lemma {:induction false} SafeWithoutStarts(steps: seq<Step>, n: nat)
    requires Feasible(steps) && n <= |steps| && NoStartsFrom(steps, n)
    requires Feasible(steps[..n]) && SafeStarts(steps[..n])
    ensures SafeStarts(steps)
  {
    if |steps| == n {
      assert steps[..n] == steps;
    } else {
      assert steps[..|steps| - 1][..n] == steps[..n];
      SafeWithoutStarts(steps[..|steps| - 1], n);
    }
  }

  /** Where a run first does harm. */
  lemma {:induction false} FirstHarm(steps: seq<Step>) returns (n: nat)
    requires Feasible(steps) && !SafeStarts(steps)
    ensures n < |steps| && Feasible(steps[..n]) && Enabled(After(steps[..n]), steps[n])
    ensures SafeStarts(steps[..n]) && Harmful(After(steps[..n]), steps[n])
  {
    var k := |steps| - 1;
    if SafeStarts(steps[..k]) {
      n := k;
    } else {
      n := FirstHarm(steps[..k]);
      assert steps[..k][..n] == steps[..n];
    }
  }

  /** Goes on by one step that registers nothing. */
  lemma Continue(steps: seq<Step>, n: nat, step: Step) returns (longer: seq<Step>)
    requires Feasible(steps) && n <= |steps| && NoStartsFrom(steps, n)
    requires Enabled(After(steps), step) && !Registers(After(steps), step)
    ensures longer == steps + [step] && Feasible(longer) && After(longer) == Next(After(steps), step)
    ensures NoStartsFrom(longer, n)
  {
    longer := Extend(steps, step);
    assert longer[..|steps|] == steps;
  }

  /** A loop registered in the window is there when cleanup closes. */
  lemma WindowBreaks(steps: seq<Step>) returns (longer: seq<Step>)
    requires Feasible(steps) && Window(After(steps)) && After(steps).wg != 0
    ensures |steps| <= |longer| && longer[..|steps|] == steps
    ensures Feasible(longer) && NoStartsFrom(longer, |steps|) && Violated(After(longer))
  {
    var s := After(steps);
    var c: nat :| c < |s.cleanups| && MidClose(s.cleanups[c]);
    longer := Continue(steps, |steps|, CleanupMoves(c));
    var s1 := s.(earlyClose := true, cleanups := s.cleanups[c := Finished]);
    if s.cleanups[c].ChannelsClosed? && HasConnection(s) {
      CutAll(s1, s.current.conn, |s.sessions|, true);
    }
  }

  /** A loop that waits on a closed channel takes a delivery and settles it there. */
  lemma OwedBreaks(steps: seq<Step>, i: nat) returns (longer: seq<Step>)
    requires Feasible(steps) && i < |After(steps).sessions|
    requires var x := After(steps).sessions[i]; x.phase.Select? && OwesSettlement(x) && x.taken == 0
    ensures |steps| <= |longer| && longer[..|steps|] == steps
    ensures Feasible(longer) && NoStartsFrom(longer, |steps|) && Violated(After(longer))
  {
    RunsKeepCleaners(steps);
    longer := Continue(steps, |steps|, Take(i));
    assert !InCleanup(After(longer), i) by {
      assert forall c: nat :: PendingFor(After(longer), c, i) ==> PendingFor(After(steps), c, i);
    }
    longer := Continue(longer, |steps|, HandlerReturns(i, Nil));
    longer := SettlesWhatItHandled(longer, |steps|, i);
  }

  lemma SettlesWhatItHandled(steps: seq<Step>, n: nat, i: nat) returns (longer: seq<Step>)
    requires Feasible(steps) && n <= |steps| && NoStartsFrom(steps, n) && i < |After(steps).sessions|
    requires var x := After(steps).sessions[i]; x.phase.Returned? && x.shut && !x.autoAck
    ensures |steps| <= |longer| && longer[..|steps|] == steps
    ensures Feasible(longer) && NoStartsFrom(longer, n) && Violated(After(longer))
  {
    longer := Continue(steps, n, SessionMoves(i));
    var x := After(longer).sessions[i];
    assert x.phase.Settling? && x.shut;
    SettleLate(After(longer), i);
    longer := Continue(longer, n, SessionMoves(i));
  }

  lemma SettleLate(s: State, i: nat)
    requires i < |s.sessions| && s.sessions[i].shut && s.sessions[i].phase.Settling?
    ensures Violated(MoveSession(s, i))
  {
  }

  lemma HarmBreaks(steps: seq<Step>, step: Step)
    requires Feasible(steps) && SafeStarts(steps) && Enabled(After(steps), step) && Harmful(After(steps), step)
    ensures Breakable(steps + [step])
  {
    RunsKeepInv(steps);
    var s := After(steps);
    assert SessionOk(s.sessions[step.session]);
    var started := Extend(steps, step);
    var longer: seq<Step>;
    if Window(s) {
      assert Window(After(started));
      longer := WindowBreaks(started);
    } else {
      longer := OwedBreaks(started, step.session);
    }
    assert longer == started + longer[|started|..];
    assert Breaks(started, longer[|started|..]);
  }

  /** The condition is exact: a run has no harmful start if and only if from none of its prefixes
      the order can be broken without registering another loop. */
  lemma ShutdownOrderIff(steps: seq<Step>)
    requires Feasible(steps)
    ensures SafeStarts(steps) <==> forall n: nat :: n <= |steps| ==> !Breakable(steps[..n])
  {
    if SafeStarts(steps) {
      forall n: nat | n <= |steps| ensures !Breakable(steps[..n]) {
        SafeTo(steps, n);
        SafeUnbreakable(steps[..n]);
      }
    } else {
      var n := HarmShows(steps);
    }
  }

  lemma HarmShows(steps: seq<Step>) returns (n: nat)
    requires Feasible(steps) && !SafeStarts(steps)
    ensures n <= |steps| && Breakable(steps[..n])
  {
    var k := FirstHarm(steps);
    n := k + 1;
    HarmBreaks(steps[..k], steps[k]);
    OneLonger(steps, k);
  }

  lemma OneLonger(steps: seq<Step>, k: nat)
    requires k < |steps|
    ensures steps[..k + 1] == steps[..k] + [steps[k]]
  {
  }

  lemma SafeUnbreakable(steps: seq<Step>)
    requires Feasible(steps) && SafeStarts(steps)
    ensures !Breakable(steps)
  {
    if more :| Breaks(steps, more) {
      assert (steps + more)[..|steps|] == steps;
      SafeWithoutStarts(steps + more, |steps|);
      ShutdownOrder(steps + more);
    }
  }

  // ---------------------------------------------------------------- nothing left behind

  lemma {:induction false} StaysDrained(steps: seq<Step>, n: nat)
    requires Feasible(steps) && n <= |steps| && NoStartsFrom(steps, n)
    requires Feasible(steps[..n]) && After(steps[..n]).wg == 0
    ensures After(steps).wg == 0
  {
    if |steps| == n {
      assert steps[..n] == steps;
    } else {
      var k := |steps| - 1;
      assert steps[..k][..n] == steps[..n];
      StaysDrained(steps[..k], n);
      RunsKeepInv(steps[..k]);
      DrainedStep(After(steps[..k]), steps[k]);
    }
  }

  lemma DrainedStep(s: State, step: Step)
    requires Inv(s) && s.wg == 0 && Enabled(s, step) && !Registers(s, step)
    ensures Next(s, step).wg == 0
  {
    if step.SessionMoves? {
      SumAtLeast(s.sessions, step.session, Registered);
      MoveCounts(s, step.session);
    } else if step.LoseConnection? {
      CutAll(s, step.conn, |s.sessions|, false);
    } else if step.CleanupMoves? {
      CleanupCounts(s, step.cleanup);
    }
  }

  /** A move registers a loop, releases one, or leaves the wait group alone. */
  lemma MoveCounts(s: State, i: nat)
    requires i < |s.sessions| && CanMove(s.sessions[i].phase)
    ensures MoveSession(s, i).wg ==
      s.wg + (if s.sessions[i].phase.Consuming? then 1 else if s.sessions[i].phase.Closed? then -1 else 0)
  {
  }

  lemma CleanupCounts(s: State, c: nat)
    requires c < |s.cleanups|
    ensures MoveCleanup(s, c).wg == s.wg
  {
    if s.cleanups[c].ChannelsClosed? && HasConnection(s) {
      CutAll(s.(earlyClose := s.earlyClose || s.wg != 0, cleanups := s.cleanups[c := Finished]),
             s.current.conn, |s.sessions|, true);
    }
  }

  /** From the drain of a cleanup until the next loop is registered, and while no start is under
      way, no message is left behind: each is settled or back in its queue. */
  lemma DrainedLeavesNothingHeld(steps: seq<Step>, n: nat, m: Message)
    requires Feasible(steps) && n <= |steps| && NoStartsFrom(steps, n)
    requires Feasible(steps[..n]) && SafeStarts(steps[..n]) && Window(After(steps[..n]))
    requires m in After(steps).broker.published
    requires forall i: nat :: i < |After(steps).sessions| ==> !After(steps).sessions[i].phase.Consuming?
    ensures m in After(steps).broker.ready || Settled(After(steps).broker, m)
  {
    ShutdownOrder(steps[..n]);
    StaysDrained(steps, n);
    NoLoopHoldsNothing(steps, m);
  }

  /** A run with a harmful start and what follows from it: cleanup closes the connection under the
      loop, and the loop settles on its closed channel. */
  lemma LateStartBreaksShutdown(m: Message) returns (steps: seq<Step>)
    ensures Feasible(steps) && After(steps).earlyClose && After(steps).lateSettle
  {
    steps := Extend([], CallCleanup(Outside));
    steps := Extend(steps, CleanupMoves(0));
    steps := Extend(steps, CleanupMoves(0));
    assert After(steps).cleanups == [Drained] && After(steps).cleaners == [Outside] && After(steps).wg == 0;
    steps := OneHandled(steps, m);
    steps := ClosedUnderLoop(steps, m);
  }

  lemma ClosedUnderLoop(start: seq<Step>, m: Message) returns (steps: seq<Step>)
    requires Feasible(start) && After(start).sessions == [Handled(m, Returned(0, true), [])]
    requires After(start).conns == [Conn(true, false)] && After(start).current == Over(0)
    requires After(start).cleanups == [Drained] && After(start).wg == 1
    ensures Feasible(steps) && After(steps).earlyClose && After(steps).lateSettle
  {
    var x := Handled(m, Settling(0, true), [true]);
    steps := Extend(start, SessionMoves(0));
    assert [] + [true] == [true];
    assert After(steps).sessions == [x];
    steps := Extend(steps, CleanupMoves(0));
    assert After(steps).cleanups == [ChannelsClosed];
    steps := SettlesOverClosed(steps, x);
  }

  lemma SettlesOverClosed(start: seq<Step>, x: Session) returns (steps: seq<Step>)
    requires Feasible(start) && After(start).sessions == [x] && x.conn == 0 && x.phase.Settling?
    requires After(start).conns == [Conn(true, false)] && After(start).current == Over(0)
    requires After(start).cleanups == [ChannelsClosed] && After(start).earlyClose
    ensures Feasible(steps) && After(steps).earlyClose && After(steps).lateSettle
  {
    var s := After(start);
    CutAll(s.(earlyClose := s.earlyClose || s.wg != 0, cleanups := s.cleanups[0 := Finished]), 0, 1, true);
    steps := Extend(start, CleanupMoves(0));
    steps := Extend(steps, SessionMoves(0));
  }
}
