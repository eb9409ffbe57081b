/** What delivery promises over every interleaving of deliveries, handler results, panics,
    channel and connection losses, loop exits, reconnects and shutdowns. */
module DeliveryProperties {
  import opened Sums
  import opened Delivery
  import opened DeliveryInvariant

  // ---------------------------------------------------------------- one place per message

  /** The deliveries under which a message is unsettled. */
  ghost function HeldUnder(s: State, m: Message): set<DeliveryId> {
    set i: nat, t: nat | i < |s.sessions| && t in s.sessions[i].unsettled && HoldsMessage(s.sessions, i, t, m)
      :: DeliveryId(i, t)
  }

  ghost function PlaceCount(s: State, m: Message): nat {
    (if m in s.broker.ready then 1 else 0) + (if m in s.broker.acked then 1 else 0) +
    (if m in s.broker.rejected then 1 else 0) + (if m in s.broker.autoSettled then 1 else 0) + |HeldUnder(s, m)|
  }

  /** After every run, every published message is in exactly one place: ready, unsettled under
      one tag of one channel, acknowledged, rejected, or settled by automatic acknowledgement. */
  lemma ExactlyOnePlace(steps: seq<Step>, m: Message)
    requires Feasible(steps)
    ensures PlaceCount(After(steps), m) == if m in After(steps).broker.published then 1 else 0
  {
    RunsKeepInv(steps);
    var s := After(steps);
    var held := HeldUnder(s, m);
    assert forall i: nat, t: nat :: HoldsMessage(s.sessions, i, t, m) ==> DeliveryId(i, t) in held;
    if d :| d in held {
      assert HoldsMessage(s.sessions, d.session, d.tag, m);
      forall e | e in held ensures e == d {
        assert HoldsMessage(s.sessions, e.session, e.tag, m);
      }
      assert held == {d};
    } else {
      assert held == {};
      assert m in s.broker.published ==> Somewhere(s.broker, s.sessions, m);
    }
  }

  /** A message is acknowledged only for a delivery of it whose handler returned nil, rejected
      only for one whose handler failed or panicked, and never on an automatic channel. */
  lemma SettledOnlyAfterHandling(steps: seq<Step>, m: Message)
    requires Feasible(steps)
    ensures var s := After(steps);
      && (m in s.broker.acked ==> Proven(s.sessions, s.broker.acked[m], m, true))
      && (m in s.broker.rejected ==> Proven(s.sessions, s.broker.rejected[m], m, false))
      && !s.unknownTag
  {
    RunsKeepInv(steps);
  }

  /** A message waits unsettled only while the session that holds it is alive: it lies in the
      inbox of its loop or in the loop's hand, and the loop still has to close its channel. */
  lemma HeldByLiveLoop(steps: seq<Step>, i: nat, t: nat, m: Message)
    requires Feasible(steps) && HoldsMessage(After(steps).sessions, i, t, m)
    ensures var x := After(steps).sessions[i];
      && x.live && Consumes(x.phase)
      && (x.taken <= t || InHand(x.phase, t))
  {
    RunsKeepInv(steps);
    assert SessionOk(After(steps).sessions[i]);
  }

  /** Nothing is lost with the loops: when the wait group is zero and no start is under way,
      every published message is settled or back in its queue. */
  lemma NoLoopHoldsNothing(steps: seq<Step>, m: Message)
    requires Feasible(steps) && After(steps).wg == 0 && m in After(steps).broker.published
    requires forall i: nat :: i < |After(steps).sessions| ==> !After(steps).sessions[i].phase.Consuming?
    ensures m in After(steps).broker.ready || Settled(After(steps).broker, m)
  {
    RunsKeepInv(steps);
    var s := After(steps);
    assert Somewhere(s.broker, s.sessions, m);
    if i: nat, t: nat :| HoldsMessage(s.sessions, i, t, m) {
      HeldByLiveLoop(steps, i, t, m);
      SumAtLeast(s.sessions, i, Registered);
    }
  }

  // ---------------------------------------------------------------- one settlement per delivery

  /** Every delivery a loop took was handled once and settled once, in delivery order and with
      the handler's result; only the delivery in hand may still owe its settlement.  With
      automatic acknowledgement there is no settlement at all. */
  lemma OneSettlementPerDelivery(steps: seq<Step>, i: nat)
    requires Feasible(steps) && i < |After(steps).sessions|
    ensures var x := After(steps).sessions[i];
      && (x.autoAck ==> x.attempts == [])
      && (!x.autoAck ==> |x.attempts| == x.taken - (if MidDispatch(x.phase) then 1 else 0))
      && |x.attempts| <= |x.outcomes|
      && (forall t: nat :: t < |x.attempts| ==> x.attempts[t].tag == t && x.attempts[t].ok == x.outcomes[t])
  {
    RunsKeepInv(steps);
    assert SessionOk(After(steps).sessions[i]);
  }

  // ---------------------------------------------------------------- when a settlement counts

  /** A settlement settles its message if and only if the broker still had the channel when it was
      sent; as long as the channel lives, all of them did. */
  lemma SettlesIffLive(steps: seq<Step>, i: nat, t: nat)
    requires Feasible(steps) && i < |After(steps).sessions| && t < |After(steps).sessions[i].attempts|
    ensures t < |After(steps).sessions[i].delivered|
    ensures var s := After(steps); var x := s.sessions[i]; var m := x.delivered[t];
      && (x.attempts[t].live <==>
            if x.attempts[t].ok then m in s.broker.acked && s.broker.acked[m] == DeliveryId(i, t)
            else m in s.broker.rejected && s.broker.rejected[m] == DeliveryId(i, t))
      && (x.live ==> x.attempts[t].live)
  {
    RunsKeepInv(steps);
    var s := After(steps);
    assert SessionOk(s.sessions[i]);
    assert TookEffect(s.broker, s.sessions[i], i, t);
  }

  predicate Carried(s: State, i: nat, t: nat, m: Message) {
    i < |s.sessions| && t < |s.sessions[i].delivered| && s.sessions[i].delivered[t] == m
  }

  /** Delivery t came to nothing: its channel was lost before the delivery was settled. */
  predicate Lost(x: Session, t: nat) {
    !x.autoAck && if t < |x.attempts| then !x.attempts[t].live else !x.live
  }

  ghost predicate AllLost(s: State, m: Message) {
    forall i: nat, t: nat :: Carried(s, i, t, m) ==> Lost(s.sessions[i], t)
  }

  /** A delivery that is not lost holds its message or has settled it. */
  lemma KeptPlace(s: State, i: nat, t: nat, m: Message)
    requires Inv(s) && Carried(s, i, t, m) && !Lost(s.sessions[i], t)
    ensures HoldsMessage(s.sessions, i, t, m) || SettledUnder(s.broker, m, DeliveryId(i, t))
  {
    assert SessionOk(s.sessions[i]);
    assert TookEffect(s.broker, s.sessions[i], i, t);
  }

  predicate SettledUnder(b: Broker, m: Message, d: DeliveryId) {
    || (m in b.acked && b.acked[m] == d)
    || (m in b.rejected && b.rejected[m] == d)
    || (m in b.autoSettled && b.autoSettled[m] == d)
  }

  /** A published message is ready if and only if every delivery of it so far was lost before it
      was settled.  So a message is delivered again only then, whatever its handlers returned. */
  lemma ReadyIff(steps: seq<Step>, m: Message)
    requires Feasible(steps) && m in After(steps).broker.published
    ensures m in After(steps).broker.ready <==> AllLost(After(steps), m)
  {
    RunsKeepInv(steps);
    var s := After(steps);
    if m in s.broker.ready {
      forall i: nat, t: nat | Carried(s, i, t, m) ensures Lost(s.sessions[i], t) {
        if !Lost(s.sessions[i], t) { KeptPlace(s, i, t, m); }
      }
    } else {
      var i, t := NotReadyKept(steps, m);
    }
  }

  /** A message that is not ready has a delivery that was not lost. */
  lemma NotReadyKept(steps: seq<Step>, m: Message) returns (i: nat, t: nat)
    requires Feasible(steps) && m in After(steps).broker.published && m !in After(steps).broker.ready
    ensures Carried(After(steps), i, t, m) && !Lost(After(steps).sessions[i], t)
  {
    RunsKeepInv(steps);
    var s := After(steps);
    assert Somewhere(s.broker, s.sessions, m);
    if Settled(s.broker, m) {
      var d := if m in s.broker.acked then s.broker.acked[m]
               else if m in s.broker.rejected then s.broker.rejected[m]
               else s.broker.autoSettled[m];
      i, t := d.session, d.tag;
    } else {
      i, t :| HoldsMessage(s.sessions, i, t, m);
      HeldByLiveLoop(steps, i, t, m);
      assert SessionOk(s.sessions[i]);
    }
  }

  /** At most one delivery of a message is not lost. */
  lemma KeptOnce(steps: seq<Step>, i: nat, t: nat, j: nat, u: nat, m: Message)
    requires Feasible(steps) && Carried(After(steps), i, t, m) && Carried(After(steps), j, u, m)
    requires !Lost(After(steps).sessions[i], t) && !Lost(After(steps).sessions[j], u)
    ensures i == j && t == u
  {
    RunsKeepInv(steps);
    KeptPlace(After(steps), i, t, m);
    KeptPlace(After(steps), j, u, m);
  }

  /** A message whose handler returned nil comes back only if its channel was lost before the Ack:
      when it is ready, or another delivery of it is not lost, that Ack was not sent and the channel
      is gone, or it was sent over a dead channel. */
  lemma HandledStaysUnlessLost(steps: seq<Step>, i: nat, t: nat, m: Message)
    requires Feasible(steps) && Carried(After(steps), i, t, m)
    requires t < |After(steps).sessions[i].outcomes| && After(steps).sessions[i].outcomes[t]
    ensures var s := After(steps); var x := s.sessions[i];
      && ((m in s.broker.ready || exists j: nat, u: nat ::
             (j, u) != (i, t) && Carried(s, j, u, m) && !Lost(s.sessions[j], u)) ==>
            && !x.autoAck
            && if t < |x.attempts| then x.attempts[t] == Attempt(t, true, false)
               else InHand(x.phase, t) && !x.live)
      && (t < |x.attempts| && x.attempts[t].live ==> m in s.broker.acked && s.broker.acked[m] == DeliveryId(i, t))
  {
    RunsKeepInv(steps);
    var s := After(steps);
    var x := s.sessions[i];
    assert SessionOk(x);
    assert TookEffect(s.broker, x, i, t);
    if !Lost(x, t) {
      KeptPlace(s, i, t, m);
      forall j: nat, u: nat | Carried(s, j, u, m) && !Lost(s.sessions[j], u) ensures (j, u) == (i, t) {
        KeptOnce(steps, i, t, j, u, m);
      }
    }
  }

  // ---------------------------------------------------------------- metrics

  function Taken(x: Session): nat { x.taken }
  function Uncounted(x: Session): nat { if x.phase.Handling? || x.phase.Returned? then 1 else 0 }

  function IsAck(a: Attempt): nat { IsNil(a.ok) }
  function IsNack(a: Attempt): nat { IsError(a.ok) }

  function Acks(x: Session): nat { Sum(x.attempts, IsAck) }
  function Nacks(x: Session): nat { Sum(x.attempts, IsNack) }

  /** Results counted whose Ack is still due or, with autoAck, never sent. */
  function NoAckYet(x: Session): nat {
    if x.autoAck then Successes(x) else if x.phase.Settling? then IsNil(x.phase.ok) else 0
  }

  /** The same for Nack. */
  function NoNackYet(x: Session): nat {
    if x.autoAck then Failures(x) else if x.phase.Settling? then IsError(x.phase.ok) else 0
  }

  /** Metric conservation: received and failed add up to the deliveries taken, less those whose
      handler has not been counted yet; received splits into the acknowledgements sent, those
      about to be sent and the automatic ones, and failed in the same way. */
  lemma MetricsConserved(steps: seq<Step>)
    requires Feasible(steps)
    ensures var s := After(steps);
      && s.received + s.failed + Sum(s.sessions, Uncounted) == Sum(s.sessions, Taken)
      && s.received == Sum(s.sessions, Acks) + Sum(s.sessions, NoAckYet)
      && s.failed == Sum(s.sessions, Nacks) + Sum(s.sessions, NoNackYet)
  {
    RunsKeepInv(steps);
    CountsAddUp(After(steps).sessions);
  }

  lemma {:induction false} CountsAddUp(sessions: seq<Session>)
    requires SessionsOk(sessions)
    ensures Sum(sessions, Successes) + Sum(sessions, Failures) + Sum(sessions, Uncounted) == Sum(sessions, Taken)
    ensures Sum(sessions, Successes) == Sum(sessions, Acks) + Sum(sessions, NoAckYet)
    ensures Sum(sessions, Failures) == Sum(sessions, Nacks) + Sum(sessions, NoNackYet)
  {
    if sessions != [] {
      var n := |sessions| - 1;
      CountsAddUp(sessions[..n]);
      assert SessionOk(sessions[n]);
      SessionCounts(sessions[n]);
    }
  }

  lemma SessionCounts(x: Session)
    requires SessionOk(x)
    ensures Successes(x) + Failures(x) + Uncounted(x) == Taken(x)
    ensures Successes(x) == Acks(x) + NoAckYet(x)
    ensures Failures(x) == Nacks(x) + NoNackYet(x)
  {
    TrueAndFalse(x.recorded);
    if !x.autoAck {
      var n := |x.attempts|;
      AttemptsCount(x.attempts, x.recorded[..n]);
      if x.phase.Settling? {
        assert x.recorded == x.recorded[..n] + [x.recorded[n]];
        SumAppend(x.recorded[..n], x.recorded[n], IsNil);
        SumAppend(x.recorded[..n], x.recorded[n], IsError);
      } else {
        assert x.recorded == x.recorded[..n];
      }
    }
  }

  lemma {:induction false} TrueAndFalse(xs: seq<bool>)
    ensures Sum(xs, IsNil) + Sum(xs, IsError) == |xs|
  {
    if xs != [] {
      TrueAndFalse(xs[..|xs| - 1]);
    }
  }

  lemma {:induction false} AttemptsCount(attempts: seq<Attempt>, results: seq<bool>)
    requires |attempts| == |results| && forall t: nat :: t < |attempts| ==> attempts[t].ok == results[t]
    ensures Sum(attempts, IsAck) == Sum(results, IsNil) && Sum(attempts, IsNack) == Sum(results, IsError)
  {
    if attempts != [] {
      var n := |attempts| - 1;
      AttemptsCount(attempts[..n], results[..n]);
    }
  }

  // ---------------------------------------------------------------- runs that show it

  lemma Extend(steps: seq<Step>, step: Step) returns (longer: seq<Step>)
    requires Feasible(steps) && Enabled(After(steps), step)
    ensures longer == steps + [step] && Feasible(longer) && After(longer) == Next(After(steps), step)
  {
    longer := steps + [step];
    assert longer[..|steps|] == steps;
  }

  /** From a state without sessions: a new connection with one loop that waits for deliveries. */
  lemma OneLoop(start: seq<Step>, m: Message) returns (steps: seq<Step>)
    requires Feasible(start) && After(start).sessions == [] && After(start).conns == []
    requires m !in After(start).broker.published
    ensures Feasible(steps)
    ensures var s, s0 := After(steps), After(start);
      && s.sessions == [NewSession(0, m.queue, false, Caller).(phase := Select)] && m in s.broker.ready
      && s.conns == [Conn(true, false)] && s.current == Over(0)
      && s.cleanups == s0.cleanups && s.cleaners == s0.cleaners
      && s.wg == s0.wg + 1 && s.earlyClose == s0.earlyClose && s.closes == s0.closes
  {
    steps := Extend(start, Publish(m));
    steps := Extend(steps, Dial);
    steps := Extend(steps, Open(m.queue, false, false));
    assert After(steps).sessions == [NewSession(0, m.queue, false, Caller)];
    steps := Extend(steps, ConsumeReturns(0, true));
    steps := Extend(steps, SessionMoves(0));
  }

  function Handled(m: Message, p: Phase, recorded: seq<bool>): Session {
    Session(0, m.queue, false, Caller, p, true, false, false, [m], 1, {0}, [true], recorded, [])
  }

  /** The same after the handler has returned nil for the first delivery. */
  lemma OneHandled(start: seq<Step>, m: Message) returns (steps: seq<Step>)
    requires Feasible(start) && After(start).sessions == [] && After(start).conns == []
    requires m !in After(start).broker.published
    requires forall c: nat :: c < |After(start).cleaners| ==> After(start).cleaners[c].Outside?
    ensures Feasible(steps)
    ensures var s, s0 := After(steps), After(start);
      && s.sessions == [Handled(m, Returned(0, true), [])]
      && s.conns == [Conn(true, false)] && s.current == Over(0)
      && s.cleanups == s0.cleanups && s.cleaners == s0.cleaners
      && s.wg == s0.wg + 1 && s.earlyClose == s0.earlyClose && s.closes == s0.closes
  {
    steps := OneLoop(start, m);
    steps := Extend(steps, Deliver(0, m));
    assert [] + [m] == [m] && {} + {0} == {0};
    assert [] + [true] == [true];
    steps := Extend(steps, Take(0));
    steps := Extend(steps, HandlerReturns(0, Nil));
  }

  /** Handling is at least once, not exactly once: a message whose handler returned nil is ready
      again when its channel is lost before the acknowledgement. */
  lemma HandledMessageCanReturn(m: Message) returns (steps: seq<Step>)
    ensures Feasible(steps) && m in After(steps).broker.ready
    ensures |After(steps).sessions| == 1
    ensures After(steps).sessions[0].delivered == [m] && After(steps).sessions[0].outcomes == [true]
  {
    steps := OneHandled([], m);
    var x := After(steps).sessions[0];
    assert 0 in x.unsettled && x.delivered[0] == m;
    assert m in UnsettledMessages(x);
    steps := Extend(steps, LoseChannel(0));
  }
}
