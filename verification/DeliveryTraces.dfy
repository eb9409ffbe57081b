/** The state of a session in terms of what happened to it: every entry of its records goes back to a
    step of the run, so that what is acknowledged and counted is what the handlers returned. */
module DeliveryTraces {
  import opened Sums
  import opened Delivery
  import opened DeliveryInvariant
  import opened DeliveryProperties
  import opened Shutdown
  import opened Connections

  // ---------------------------------------------------------------- one step

  /** The step closes the channel of session i. */
  predicate Cuts(s: State, step: Step, i: nat)
    requires i < |s.sessions|
  {
    || step == LoseChannel(i)
    || step == LoseConnection(s.sessions[i].conn)
    || (step == SessionMoves(i) && (s.sessions[i].phase.Refused? || s.sessions[i].phase.Closing?))
    || ClosesIt(s, step, s.sessions[i].conn)
  }

  /** What a step makes of a session: it appends the message delivered to it and the result of its
      handler, and cuts its channel. */
  ghost predicate Records(s: State, step: Step, x: Session, x': Session, i: nat)
    requires i < |s.sessions|
  {
    && x'.conn == x.conn && x'.queue == x.queue && x'.autoAck == x.autoAck
    && x'.ctx == (if step == CancelContext(i) then Cancelled else x.ctx)
    && x'.ended == (x.ended || step == CancelConsumer(i))
    && x'.delivered == x.delivered + (if step.Deliver? && step.session == i then [step.msg] else [])
    && x'.outcomes == x.outcomes + (if step.HandlerReturns? && step.session == i then [step.result == Nil] else [])
    && x'.live == (x.live && !Cuts(s, step, i))
  }

  lemma RecordsStep(s: State, step: Step, i: nat)
    requires Enabled(s, step) && i < |s.sessions|
    ensures i < |Next(s, step).sessions| && Records(s, step, s.sessions[i], Next(s, step).sessions[i], i)
  {
    if step.Deliver? || step.HandlerReturns? || step.CancelContext? || step.CancelConsumer? {
      RecordsOwn(s, step, i);
    } else {
      if step.SessionMoves? {
        SilentMove(s, step.session, i);
      } else if step.LoseConnection? {
        CutAll(s, step.conn, |s.sessions|, false);
      } else if step.CleanupMoves? {
        SilentCleanup(s, step.cleanup, i);
      } else {
        SilentOther(s, step, i);
      }
      RecordsSilent(s, step, Next(s, step).sessions[i], i);
    }
  }

  /** Only what the loop keeps for itself changes, and the channel if the step cuts it. */
  ghost predicate Silent(x: Session, x': Session, cut: bool) {
    && x'.conn == x.conn && x'.queue == x.queue && x'.autoAck == x.autoAck && x'.ctx == x.ctx && x'.ended == x.ended
    && x'.delivered == x.delivered && x'.outcomes == x.outcomes && x'.live == (x.live && !cut)
  }

  lemma RecordsSilent(s: State, step: Step, x': Session, i: nat)
    requires i < |s.sessions| && Silent(s.sessions[i], x', Cuts(s, step, i))
    requires !step.Deliver? && !step.HandlerReturns? && !step.CancelContext? && !step.CancelConsumer?
    ensures Records(s, step, s.sessions[i], x', i)
  {
  }

  lemma RecordsOwn(s: State, step: Step, i: nat)
    requires Enabled(s, step) && i < |s.sessions|
    requires step.Deliver? || step.HandlerReturns? || step.CancelContext? || step.CancelConsumer?
    ensures i < |Next(s, step).sessions| && Records(s, step, s.sessions[i], Next(s, step).sessions[i], i)
  {
    assert !Cuts(s, step, i);
    if step.session != i {
      assert Next(s, step).sessions[i] == s.sessions[i];
    }
  }

  lemma SilentOther(s: State, step: Step, i: nat)
    requires Enabled(s, step) && i < |s.sessions|
    requires || step.Publish? || step.LoseChannel? || step.Dial? || step.Open? || step.ConsumeReturns? || step.Take?
             || step.Exit? || step.CallCleanup?
    ensures i < |Next(s, step).sessions| && Silent(s.sessions[i], Next(s, step).sessions[i], Cuts(s, step, i))
  {
  }

  lemma SilentMove(s: State, j: nat, i: nat)
    requires Enabled(s, SessionMoves(j)) && i < |s.sessions|
    ensures i < |MoveSession(s, j).sessions|
    ensures Silent(s.sessions[i], MoveSession(s, j).sessions[i], Cuts(s, SessionMoves(j), i))
  {
    MoveElsewhere(s, j);
    if i == j {
      var p := s.sessions[j].phase;
      if p.Settling? {
        SilentSettle(s, j, p.tag, p.ok);
      } else if p.Returned? {
        SilentRecord(s, j, p.tag, p.ok);
      } else if p.Consuming? || p.Closed? {
        SilentPhase(s, j);
      } else {
        SilentClose(s, j);
      }
    }
  }

  lemma SilentSettle(s: State, j: nat, tag: nat, ok: bool)
    requires j < |s.sessions| && s.sessions[j].phase == Settling(tag, ok)
    ensures |MoveSession(s, j).sessions| == |s.sessions|
    ensures Silent(s.sessions[j], MoveSession(s, j).sessions[j], false)
    ensures MoveSession(s, j).sessions[j].phase.Select?
  {
    SettleShape(s, j, tag, ok);
    assert MoveSession(s, j) == Settle(s, j, tag, ok);
  }

  lemma SilentRecord(s: State, j: nat, tag: nat, ok: bool)
    requires j < |s.sessions| && s.sessions[j].phase == Returned(tag, ok)
    ensures |MoveSession(s, j).sessions| == |s.sessions|
    ensures Silent(s.sessions[j], MoveSession(s, j).sessions[j], false)
    ensures var p' := MoveSession(s, j).sessions[j].phase; p'.Select? || p'.Settling?
  {
    assert MoveSession(s, j) == Record(s, j, tag, ok);
  }

  lemma SilentPhase(s: State, j: nat)
    requires j < |s.sessions| && (s.sessions[j].phase.Consuming? || s.sessions[j].phase.Closed?)
    ensures |MoveSession(s, j).sessions| == |s.sessions|
    ensures Silent(s.sessions[j], MoveSession(s, j).sessions[j], false)
    ensures var p' := MoveSession(s, j).sessions[j].phase; p'.Select? || p'.Gone?
  {
    if s.sessions[j].phase.Consuming? {
      assert MoveSession(s, j) == SetPhase(s, j, Select).(wg := s.wg + 1);
    } else {
      assert MoveSession(s, j) == SetPhase(s, j, Gone).(wg := s.wg - 1);
    }
  }

  lemma SilentClose(s: State, j: nat)
    requires j < |s.sessions| && (s.sessions[j].phase.Refused? || s.sessions[j].phase.Closing?)
    ensures |MoveSession(s, j).sessions| == |s.sessions|
    ensures Silent(s.sessions[j], MoveSession(s, j).sessions[j], true)
    ensures MoveSession(s, j).sessions[j].phase == if s.sessions[j].phase.Refused? then Failed else Closed
  {
  }

  lemma SilentCleanup(s: State, c: nat, i: nat)
    requires Enabled(s, CleanupMoves(c)) && i < |s.sessions|
    ensures i < |MoveCleanup(s, c).sessions|
    ensures Silent(s.sessions[i], MoveCleanup(s, c).sessions[i], Cuts(s, CleanupMoves(c), i))
  {
    if s.cleanups[c].ChannelsClosed? && HasConnection(s) {
      CutAll(s.(earlyClose := s.earlyClose || s.wg != 0, cleanups := s.cleanups[c := Finished]),
             s.current.conn, |s.sessions|, true);
    }
  }

  /** Only Open adds a session, as its parameters say. */
  lemma SessionsGrow(s: State, step: Step)
    requires Enabled(s, step)
    ensures var s' := Next(s, step);
      if step.Open? then
        && |s'.sessions| == |s.sessions| + 1
        && var x := s'.sessions[|s.sessions|];
           && s.current.Over? && x.conn == s.current.conn && x.queue == step.queue && x.autoAck == step.autoAck
           && x.ctx == (if step.restart then Background else Caller)
           && x.live && !x.ended && x.delivered == [] && x.outcomes == []
      else |s'.sessions| == |s.sessions|
  {
    if step.SessionMoves? {
      MoveElsewhere(s, step.session);
    } else if step.LoseConnection? {
      CutAll(s, step.conn, |s.sessions|, false);
    } else if step.CleanupMoves? && s.cleanups[step.cleanup].ChannelsClosed? && HasConnection(s) {
      CutAll(s.(earlyClose := s.earlyClose || s.wg != 0, cleanups := s.cleanups[step.cleanup := Finished]),
             s.current.conn, |s.sessions|, true);
    }
  }

  // ---------------------------------------------------------------- the records of a run

  /** The messages the broker delivered to session i, in order. */
  function Deliveries(steps: seq<Step>, i: nat): seq<Message> {
    if steps == [] then []
    else
      var n := |steps| - 1;
      Deliveries(steps[..n], i) + if steps[n].Deliver? && steps[n].session == i then [steps[n].msg] else []
  }

  /** Whether each handler call of session i returned nil, in order; a panic did not. */
  function Results(steps: seq<Step>, i: nat): seq<bool> {
    if steps == [] then []
    else
      var n := |steps| - 1;
      Results(steps[..n], i) +
      if steps[n].HandlerReturns? && steps[n].session == i then [steps[n].result == Nil] else []
  }

  /** Step k opened session i over the connection that was current. */
  ghost predicate OpenedAt(steps: seq<Step>, k: nat, i: nat, conn: nat, queue: string, autoAck: bool, restart: bool) {
    && k < |steps| && Feasible(steps[..k]) && steps[k] == Open(queue, autoAck, restart)
    && |After(steps[..k]).sessions| == i && After(steps[..k]).current == Over(conn)
  }

  ghost predicate Origin(steps: seq<Step>, i: nat, x: Session) {
    exists k: nat, restart: bool ::
      OpenedAt(steps, k, i, x.conn, x.queue, x.autoAck, restart) && (x.ctx.Background? <==> restart)
  }

  /** A session has exactly the deliveries and handler results of the run, in their order; its context
      has ended and its consumer was cancelled exactly if a step says so; and it was opened by an Open
      step over the connection, queue and acknowledgement mode it has. */
  lemma {:induction false} SessionTrace(steps: seq<Step>, i: nat)
    requires Feasible(steps)
    ensures i >= |After(steps).sessions| ==>
      && Deliveries(steps, i) == [] && Results(steps, i) == []
      && CancelContext(i) !in steps && CancelConsumer(i) !in steps
    ensures i < |After(steps).sessions| ==>
      var x := After(steps).sessions[i];
      && x.delivered == Deliveries(steps, i) && x.outcomes == Results(steps, i)
      && (x.ctx.Cancelled? <==> CancelContext(i) in steps) && (x.ended <==> CancelConsumer(i) in steps)
      && Origin(steps, i, x)
  {
    if steps != [] {
      var n := |steps| - 1;
      var s := After(steps[..n]);
      SessionTrace(steps[..n], i);
      SessionsGrow(s, steps[n]);
      assert steps == steps[..n] + [steps[n]];
      if i < |s.sessions| {
        RecordsStep(s, steps[n], i);
        OriginStays(steps, i, s.sessions[i], After(steps).sessions[i]);
      } else if i < |After(steps).sessions| {
        var x := After(steps).sessions[i];
        assert OpenedAt(steps, n, i, x.conn, x.queue, x.autoAck, steps[n].restart);
      }
    }
  }

  lemma OriginStays(steps: seq<Step>, i: nat, x: Session, x': Session)
    requires steps != [] && Origin(steps[..|steps| - 1], i, x)
    requires x'.conn == x.conn && x'.queue == x.queue && x'.autoAck == x.autoAck
    requires x'.ctx == x.ctx || (x'.ctx.Cancelled? && x.ctx.Caller?)
    ensures Origin(steps, i, x')
  {
    var n := |steps| - 1;
    var k: nat, restart: bool :|
      OpenedAt(steps[..n], k, i, x.conn, x.queue, x.autoAck, restart) && (x.ctx.Background? <==> restart);
    assert steps[..n][..k] == steps[..k];
    assert OpenedAt(steps, k, i, x'.conn, x'.queue, x'.autoAck, restart);
  }

  // ---------------------------------------------------------------- settled for what the handler returned

  /** Step k is the return of the handler for delivery t of session i. */
  ghost predicate ReturnedAt(steps: seq<Step>, k: nat, i: nat, t: nat, result: Result) {
    && k < |steps| && Feasible(steps[..k]) && steps[k] == HandlerReturns(i, result)
    && i < |After(steps[..k]).sessions| && After(steps[..k]).sessions[i].phase == Handling(t)
  }

  ghost predicate HandlerReturned(steps: seq<Step>, i: nat, t: nat, ok: bool) {
    exists k: nat, result: Result :: ReturnedAt(steps, k, i, t, result) && (ok <==> result == Nil)
  }

  lemma ReturnedBefore(steps: seq<Step>, i: nat, t: nat, ok: bool)
    requires steps != [] && HandlerReturned(steps[..|steps| - 1], i, t, ok)
    ensures HandlerReturned(steps, i, t, ok)
  {
    var n := |steps| - 1;
    var k: nat, result: Result :| ReturnedAt(steps[..n], k, i, t, result) && (ok <==> result == Nil);
    assert steps[..n][..k] == steps[..k];
    assert ReturnedAt(steps, k, i, t, result);
  }

  /** Every recorded outcome is what the handler returned for that delivery. */
  lemma {:induction false} OutcomesReturned(steps: seq<Step>, i: nat, t: nat)
    requires Feasible(steps) && i < |After(steps).sessions| && t < |After(steps).sessions[i].outcomes|
    ensures HandlerReturned(steps, i, t, After(steps).sessions[i].outcomes[t])
  {
    var n := |steps| - 1;
    var s := After(steps[..n]);
    SessionsGrow(s, steps[n]);
    if i < |s.sessions| {
      RecordsStep(s, steps[n], i);
      if t < |s.sessions[i].outcomes| {
        OutcomesReturned(steps[..n], i, t);
        ReturnedBefore(steps, i, t, After(steps).sessions[i].outcomes[t]);
      } else {
        RunsKeepInv(steps[..n]);
        assert SessionOk(s.sessions[i]);
        assert ReturnedAt(steps, n, i, t, steps[n].result);
      }
    }
  }

  /** A message is acknowledged only if the handler returned nil for that very delivery of it, and
      rejected only if the handler returned an error or panicked: the return is a step of the run. */
  lemma SettledForItsResult(steps: seq<Step>, m: Message)
    requires Feasible(steps)
    ensures var b := After(steps).broker;
      && (m in b.acked ==>
            exists k: nat :: ReturnedAt(steps, k, b.acked[m].session, b.acked[m].tag, Nil))
      && (m in b.rejected ==>
            exists k: nat, bad: Result ::
              bad != Nil && ReturnedAt(steps, k, b.rejected[m].session, b.rejected[m].tag, bad))
  {
    RunsKeepInv(steps);
    var s := After(steps);
    if m in s.broker.acked {
      var d := s.broker.acked[m];
      assert Proven(s.sessions, d, m, true);
      OutcomesReturned(steps, d.session, d.tag);
      var k: nat, result: Result :| ReturnedAt(steps, k, d.session, d.tag, result) && (true <==> result == Nil);
    }
    if m in s.broker.rejected {
      var d := s.broker.rejected[m];
      assert Proven(s.sessions, d, m, false);
      OutcomesReturned(steps, d.session, d.tag);
      var k: nat, result: Result :| ReturnedAt(steps, k, d.session, d.tag, result) && (false <==> result == Nil);
    }
  }

  // ---------------------------------------------------------------- counted for what the handlers returned

  function ReturnsNil(step: Step): nat { if step.HandlerReturns? && step.result == Nil then 1 else 0 }
  function ReturnsBad(step: Step): nat { if step.HandlerReturns? && step.result != Nil then 1 else 0 }

  function NilOutcomes(x: Session): nat { Sum(x.outcomes, IsNil) }
  function BadOutcomes(x: Session): nat { Sum(x.outcomes, IsError) }

  /** Returned and not counted yet. */
  function NilDue(x: Session): nat { if x.phase.Returned? then IsNil(x.phase.ok) else 0 }
  function BadDue(x: Session): nat { if x.phase.Returned? then IsError(x.phase.ok) else 0 }

  lemma OutcomesStep(s: State, step: Step)
    requires Enabled(s, step)
    ensures Sum(Next(s, step).sessions, NilOutcomes) == Sum(s.sessions, NilOutcomes) + ReturnsNil(step)
    ensures Sum(Next(s, step).sessions, BadOutcomes) == Sum(s.sessions, BadOutcomes) + ReturnsBad(step)
  {
    var s' := Next(s, step);
    SessionsGrow(s, step);
    if step.HandlerReturns? {
      var i := step.session;
      SumAppend(s.sessions[i].outcomes, step.result == Nil, IsNil);
      SumAppend(s.sessions[i].outcomes, step.result == Nil, IsError);
      SumUpdate(s.sessions, i, s'.sessions[i], NilOutcomes);
      SumUpdate(s.sessions, i, s'.sessions[i], BadOutcomes);
    } else {
      forall i | 0 <= i < |s.sessions| ensures s'.sessions[i].outcomes == s.sessions[i].outcomes {
        RecordsStep(s, step, i);
      }
      SumSame(s.sessions, s'.sessions[..|s.sessions|], NilOutcomes);
      SumSame(s.sessions, s'.sessions[..|s.sessions|], BadOutcomes);
      if step.Open? {
        assert s'.sessions == s'.sessions[..|s.sessions|] + [s'.sessions[|s.sessions|]];
        SumAppend(s'.sessions[..|s.sessions|], s'.sessions[|s.sessions|], NilOutcomes);
        SumAppend(s'.sessions[..|s.sessions|], s'.sessions[|s.sessions|], BadOutcomes);
      } else {
        assert s'.sessions[..|s.sessions|] == s'.sessions;
      }
    }
  }

  lemma {:induction false} OutcomesCounted(steps: seq<Step>)
    requires Feasible(steps)
    ensures Sum(After(steps).sessions, NilOutcomes) == Sum(steps, ReturnsNil)
    ensures Sum(After(steps).sessions, BadOutcomes) == Sum(steps, ReturnsBad)
  {
    if steps != [] {
      var n := |steps| - 1;
      OutcomesCounted(steps[..n]);
      OutcomesStep(After(steps[..n]), steps[n]);
    }
  }

  lemma {:induction false} OutcomesSplit(sessions: seq<Session>)
    requires SessionsOk(sessions)
    ensures Sum(sessions, NilOutcomes) == Sum(sessions, Successes) + Sum(sessions, NilDue)
    ensures Sum(sessions, BadOutcomes) == Sum(sessions, Failures) + Sum(sessions, BadDue)
  {
    if sessions != [] {
      var n := |sessions| - 1;
      OutcomesSplit(sessions[..n]);
      assert SessionOk(sessions[n]);
      OutcomesOfOne(sessions[n]);
    }
  }

  lemma OutcomesOfOne(x: Session)
    requires SessionOk(x)
    ensures NilOutcomes(x) == Successes(x) + NilDue(x) && BadOutcomes(x) == Failures(x) + BadDue(x)
  {
    if x.phase.Returned? {
      assert x.outcomes == x.recorded + [x.phase.ok];
      SumAppend(x.recorded, x.phase.ok, IsNil);
      SumAppend(x.recorded, x.phase.ok, IsError);
    } else {
      assert x.outcomes == x.recorded;
    }
  }

  /** The received metric counts the handler calls of the run that returned nil, less those not counted
      yet, and the failed metric those that returned an error or panicked. */
  lemma MetricsCountReturns(steps: seq<Step>)
    requires Feasible(steps)
    ensures var s := After(steps);
      && s.received + Sum(s.sessions, NilDue) == Sum(steps, ReturnsNil)
      && s.failed + Sum(s.sessions, BadDue) == Sum(steps, ReturnsBad)
  {
    RunsKeepInv(steps);
    OutcomesCounted(steps);
    OutcomesSplit(After(steps).sessions);
  }

  // ---------------------------------------------------------------- published, consuming, lost

  /** The published messages are those of the Publish steps. */
  lemma {:induction false} PublishedTrace(steps: seq<Step>, m: Message)
    requires Feasible(steps)
    ensures m in After(steps).broker.published <==> Publish(m) in steps
  {
    if steps != [] {
      var n := |steps| - 1;
      PublishedTrace(steps[..n], m);
      PublishedStep(After(steps[..n]), steps[n]);
      assert steps == steps[..n] + [steps[n]];
    }
  }

  lemma PublishedStep(s: State, step: Step)
    requires Enabled(s, step)
    ensures Next(s, step).broker.published == s.broker.published + if step.Publish? then {step.msg} else {}
  {
    if step.LoseConnection? {
      PublishedCut(s, step.conn, |s.sessions|, false);
    } else if step.CleanupMoves? {
      PublishedCleanup(s, step.cleanup);
    } else if step.SessionMoves? {
      PublishedMove(s, step.session);
    } else {
      PublishedOther(s, step);
    }
  }

  lemma PublishedOther(s: State, step: Step)
    requires Enabled(s, step) && !step.LoseConnection? && !step.CleanupMoves? && !step.SessionMoves?
    ensures Next(s, step).broker.published == s.broker.published + if step.Publish? then {step.msg} else {}
  {
  }

  lemma PublishedMove(s: State, i: nat)
    requires i < |s.sessions|
    ensures MoveSession(s, i).broker.published == s.broker.published
  {
    match s.sessions[i].phase
    case Returned(tag, ok) => PublishedRecord(s, i, tag, ok);
    case Settling(tag, ok) => PublishedSettle(s, i, tag, ok);
    case Refused => PublishedClose(s, i, Failed);
    case Closing => PublishedClose(s, i, Closed);
    case _ =>
  }

  lemma PublishedRecord(s: State, i: nat, tag: nat, ok: bool)
    requires i < |s.sessions|
    ensures Record(s, i, tag, ok).broker.published == s.broker.published
  {
  }

  lemma PublishedSettle(s: State, i: nat, tag: nat, ok: bool)
    requires i < |s.sessions|
    ensures Settle(s, i, tag, ok).broker.published == s.broker.published
  {
  }

  lemma PublishedClose(s: State, i: nat, p: Phase)
    requires i < |s.sessions|
    ensures SetPhase(CloseChannel(s, i, true), i, p).broker.published == s.broker.published
  {
  }

  lemma PublishedCleanup(s: State, c: nat)
    requires c < |s.cleanups|
    ensures MoveCleanup(s, c).broker.published == s.broker.published
  {
    if s.cleanups[c].ChannelsClosed? && HasConnection(s) {
      PublishedCut(s.(earlyClose := s.earlyClose || s.wg != 0, cleanups := s.cleanups[c := Finished]),
                   s.current.conn, |s.sessions|, true);
    }
  }

  lemma {:induction false} PublishedCut(s: State, k: nat, n: nat, byClient: bool)
    requires n <= |s.sessions|
    ensures CloseChannels(s, k, n, byClient).broker.published == s.broker.published
  {
    if n > 0 {
      PublishedCut(s, k, n - 1, byClient);
    }
  }

  /** A start goes on to consume if and only if QoS and Consume succeeded, and gives up if and only if
      one of them failed. */
  lemma {:induction false} StartTrace(steps: seq<Step>, i: nat)
    requires Feasible(steps) && i < |After(steps).sessions|
    ensures var p := After(steps).sessions[i].phase;
      && (ConsumeReturns(i, true) in steps <==> !p.Opened? && !p.Refused? && !p.Failed?)
      && (ConsumeReturns(i, false) in steps <==> p.Refused? || p.Failed?)
  {
    if steps != [] {
      var n := |steps| - 1;
      var s := After(steps[..n]);
      SessionsGrow(s, steps[n]);
      assert steps == steps[..n] + [steps[n]];
      if i < |s.sessions| {
        StartTrace(steps[..n], i);
        StartStep(s, steps[n], i);
      } else {
        NotBeforeOpen(steps[..n], i);
      }
    }
  }

  lemma {:induction false} NotBeforeOpen(steps: seq<Step>, i: nat)
    requires Feasible(steps) && i >= |After(steps).sessions|
    ensures ConsumeReturns(i, true) !in steps && ConsumeReturns(i, false) !in steps
  {
    if steps != [] {
      var n := |steps| - 1;
      SessionsGrow(After(steps[..n]), steps[n]);
      NotBeforeOpen(steps[..n], i);
      assert steps == steps[..n] + [steps[n]];
    }
  }

  predicate Refusing(p: Phase) { p.Refused? || p.Failed? }

  lemma StartStep(s: State, step: Step, i: nat)
    requires Enabled(s, step) && i < |s.sessions|
    ensures i < |Next(s, step).sessions|
    ensures var p, p' := s.sessions[i].phase, Next(s, step).sessions[i].phase;
      if step == ConsumeReturns(i, true) then p.Opened? && !p'.Opened? && !Refusing(p')
      else if step == ConsumeReturns(i, false) then p.Opened? && Refusing(p')
      else (p'.Opened? <==> p.Opened?) && (Refusing(p') <==> Refusing(p))
  {
    if step.SessionMoves? {
      MoveElsewhere(s, step.session);
      if step.session == i {
        StartMove(s, i);
      }
    } else if step.LoseConnection? {
      CutAll(s, step.conn, |s.sessions|, false);
    } else if step.CleanupMoves? {
      CleanupKeepsPhases(s, step.cleanup);
    } else {
      StartOther(s, step, i);
    }
  }

  lemma StartOther(s: State, step: Step, i: nat)
    requires Enabled(s, step) && i < |s.sessions|
    requires !step.SessionMoves? && !step.LoseConnection? && !step.CleanupMoves?
    ensures i < |Next(s, step).sessions|
    ensures var p, p' := s.sessions[i].phase, Next(s, step).sessions[i].phase;
      if step == ConsumeReturns(i, true) then p.Opened? && p'.Consuming?
      else if step == ConsumeReturns(i, false) then p.Opened? && p'.Refused?
      else (p'.Opened? <==> p.Opened?) && (Refusing(p') <==> Refusing(p))
  {
    if step.ConsumeReturns? || step.Take? || step.HandlerReturns? || step.Exit? {
      LoopPhase(s, step, i);
    }
  }

  lemma LoopPhase(s: State, step: Step, i: nat)
    requires Enabled(s, step) && i < |s.sessions|
    requires step.ConsumeReturns? || step.Take? || step.HandlerReturns? || step.Exit?
    ensures |Next(s, step).sessions| == |s.sessions|
    ensures var p, p' := s.sessions[i].phase, Next(s, step).sessions[i].phase;
      if step.session != i then p' == p
      else if step.ConsumeReturns? then p.Opened? && p' == (if step.ok then Consuming else Refused)
      else (p.Select? || p.Handling?) && (p'.Handling? || p'.Returned? || p'.Closing?)
  {
  }

  lemma StartMove(s: State, i: nat)
    requires i < |s.sessions| && CanMove(s.sessions[i].phase)
    ensures |MoveSession(s, i).sessions| == |s.sessions|
    ensures var p, p' := s.sessions[i].phase, MoveSession(s, i).sessions[i].phase;
      !p'.Opened? && (Refusing(p') <==> Refusing(p))
  {
    var p := s.sessions[i].phase;
    if p.Settling? {
      SilentSettle(s, i, p.tag, p.ok);
    } else if p.Returned? {
      SilentRecord(s, i, p.tag, p.ok);
    } else if p.Consuming? || p.Closed? {
      SilentPhase(s, i);
    } else {
      SilentClose(s, i);
    }
  }

  /** Step k cut the channel of session i. */
  ghost predicate CutAt(steps: seq<Step>, k: nat, i: nat) {
    && k < |steps| && Feasible(steps[..k]) && i < |After(steps[..k]).sessions|
    && Cuts(After(steps[..k]), steps[k], i)
  }

  /** The broker has the channel of a session exactly until the first step that cuts it: the loss of the
      channel or of its connection, the close by its own goroutine, or the close of its connection. */
  lemma {:induction false} LiveTrace(steps: seq<Step>, i: nat)
    requires Feasible(steps) && i < |After(steps).sessions|
    ensures After(steps).sessions[i].live <==> !exists k: nat :: k < |steps| && CutAt(steps, k, i)
  {
    if steps != [] {
      var n := |steps| - 1;
      var s := After(steps[..n]);
      SessionsGrow(s, steps[n]);
      if i < |s.sessions| {
        LiveTrace(steps[..n], i);
        RecordsStep(s, steps[n], i);
        CutsSoFar(steps, i);
      } else {
        forall k: nat | k < |steps| ensures !CutAt(steps, k, i) {
          SessionsBefore(steps[..n], k, i);
          assert k <= n ==> steps[..n][..k] == steps[..k];
        }
      }
    }
  }

  lemma CutsSoFar(steps: seq<Step>, i: nat)
    requires steps != [] && Feasible(steps) && i < |After(steps[..|steps| - 1]).sessions|
    ensures var n := |steps| - 1;
      (exists k: nat :: k < |steps| && CutAt(steps, k, i)) <==>
        (exists k: nat :: k < n && CutAt(steps[..n], k, i)) || Cuts(After(steps[..n]), steps[n], i)
  {
    var n := |steps| - 1;
    forall k: nat | k < n ensures CutAt(steps, k, i) == CutAt(steps[..n], k, i) {
      assert steps[..n][..k] == steps[..k];
    }
    assert CutAt(steps, n, i) == Cuts(After(steps[..n]), steps[n], i);
  }

  lemma {:induction false} SessionsBefore(steps: seq<Step>, k: nat, i: nat)
    requires Feasible(steps) && i >= |After(steps).sessions|
    ensures k <= |steps| ==> Feasible(steps[..k]) && i >= |After(steps[..k]).sessions|
  {
    if k == |steps| {
      assert steps[..k] == steps;
    } else if k < |steps| {
      var n := |steps| - 1;
      SessionsGrow(After(steps[..n]), steps[n]);
      SessionsBefore(steps[..n], k, i);
      assert steps[..n][..k] == steps[..k];
    }
  }
}
