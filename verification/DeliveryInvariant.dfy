/** The invariant of the delivery protocol, kept by every step. */
module DeliveryInvariant {
  import opened Sums
  import opened Delivery

  // ---------------------------------------------------------------- where messages are

  ghost predicate Holds(sessions: seq<Session>, i: nat, t: nat) {
    i < |sessions| && t in sessions[i].unsettled && t < |sessions[i].delivered|
  }

  ghost predicate HoldsMessage(sessions: seq<Session>, i: nat, t: nat, m: Message) {
    Holds(sessions, i, t) && sessions[i].delivered[t] == m
  }

  /** Settled messages, whichever way. */
  predicate Settled(b: Broker, m: Message) { m in b.acked || m in b.rejected || m in b.autoSettled }

  ghost predicate BrokerOk(b: Broker) {
    && (forall m :: m in b.ready ==> m in b.published && !Settled(b, m))
    && (forall m :: Settled(b, m) ==> m in b.published)
    && (forall m :: m in b.acked ==> m !in b.rejected && m !in b.autoSettled)
    && (forall m :: m in b.rejected ==> m !in b.autoSettled)
  }

  /** An unsettled message is nowhere else, and on one channel under one tag. */
  ghost predicate HeldApart(b: Broker, sessions: seq<Session>) {
    && (forall i: nat, t: nat, m :: HoldsMessage(sessions, i, t, m) ==>
          m in b.published && m !in b.ready && !Settled(b, m))
    && (forall i: nat, t: nat, j: nat, u: nat, m ::
          HoldsMessage(sessions, i, t, m) && HoldsMessage(sessions, j, u, m) ==> i == j && t == u)
  }

  ghost predicate Somewhere(b: Broker, sessions: seq<Session>, m: Message) {
    m in b.ready || Settled(b, m) || exists i: nat, t: nat :: HoldsMessage(sessions, i, t, m)
  }

  ghost predicate NoneLost(b: Broker, sessions: seq<Session>) {
    forall m :: m in b.published ==> Somewhere(b, sessions, m)
  }

  ghost predicate Partition(b: Broker, sessions: seq<Session>) {
    BrokerOk(b) && HeldApart(b, sessions) && NoneLost(b, sessions)
  }

  // ---------------------------------------------------------------- why messages are settled

  /** The delivery carried the message, its handler call had the given result, and it was settled so. */
  ghost predicate Proven(sessions: seq<Session>, d: DeliveryId, m: Message, ok: bool) {
    && d.session < |sessions|
    && var x := sessions[d.session];
    && !x.autoAck
    && d.tag < |x.delivered| && x.delivered[d.tag] == m
    && d.tag < |x.outcomes| && x.outcomes[d.tag] == ok
    && d.tag < |x.attempts| && x.attempts[d.tag] == Attempt(d.tag, ok, true)
  }

  ghost predicate AutoProven(sessions: seq<Session>, d: DeliveryId, m: Message) {
    && d.session < |sessions|
    && var x := sessions[d.session];
    && x.autoAck && d.tag < |x.delivered| && x.delivered[d.tag] == m
  }

  ghost predicate Evidence(b: Broker, sessions: seq<Session>) {
    && (forall m :: m in b.acked ==> Proven(sessions, b.acked[m], m, true))
    && (forall m :: m in b.rejected ==> Proven(sessions, b.rejected[m], m, false))
    && (forall m :: m in b.autoSettled ==> AutoProven(sessions, b.autoSettled[m], m))
  }

  /** Delivery t of session i settled its message if it could: at once with autoAck, otherwise by a
      call the broker still had a channel for. */
  ghost predicate TookEffect(b: Broker, x: Session, i: nat, t: nat)
    requires t < |x.delivered|
  {
    var m, d := x.delivered[t], DeliveryId(i, t);
    && (x.autoAck ==> m in b.autoSettled && b.autoSettled[m] == d)
    && (t < |x.attempts| && x.attempts[t].live ==>
          if x.attempts[t].ok then m in b.acked && b.acked[m] == d else m in b.rejected && b.rejected[m] == d)
  }

  ghost predicate Effects(b: Broker, sessions: seq<Session>) {
    forall i: nat, t: nat :: i < |sessions| && t < |sessions[i].delivered| ==> TookEffect(b, sessions[i], i, t)
  }

  // ---------------------------------------------------------------- counters

  function IsNil(ok: bool): nat { if ok then 1 else 0 }
  function IsError(ok: bool): nat { if ok then 0 else 1 }

  /** The dispatch goroutine holds the wait group. */
  function Registered(x: Session): nat {
    if x.phase.Select? || MidDispatch(x.phase) || x.phase.Closing? || x.phase.Closed? then 1 else 0
  }

  function Successes(x: Session): nat { Sum(x.recorded, IsNil) }
  function Failures(x: Session): nat { Sum(x.recorded, IsError) }

  ghost predicate CountersOk(s: State) {
    && s.wg == Sum(s.sessions, Registered)
    && s.received == Sum(s.sessions, Successes)
    && s.failed == Sum(s.sessions, Failures)
    && s.closes <= 1
    && !s.unknownTag
  }

  ghost predicate SessionsOk(sessions: seq<Session>) {
    forall i: nat :: i < |sessions| ==> SessionOk(sessions[i])
  }

  ghost predicate Inv(s: State) {
    && Partition(s.broker, s.sessions)
    && Evidence(s.broker, s.sessions)
    && Effects(s.broker, s.sessions)
    && SessionsOk(s.sessions)
    && CountersOk(s)
  }

  // ---------------------------------------------------------------- replacing one session

  /** A change of one session that the broker does not see. */
  ghost predicate Quiet(x: Session, x': Session) {
    && x'.delivered == x.delivered && x'.unsettled == x.unsettled && x'.autoAck == x.autoAck
    && x.outcomes <= x'.outcomes && x.attempts <= x'.attempts
    && (forall t: nat :: |x.attempts| <= t < |x'.attempts| ==> !x'.attempts[t].live)
  }

  lemma PartitionQuiet(b: Broker, sessions: seq<Session>, i: nat, x': Session)
    requires Partition(b, sessions) && i < |sessions| && Quiet(sessions[i], x')
    ensures Partition(b, sessions[i := x'])
  {
    var sessions' := sessions[i := x'];
    assert forall j: nat, t: nat, m :: HoldsMessage(sessions', j, t, m) <==> HoldsMessage(sessions, j, t, m);
    assert forall m :: Somewhere(b, sessions, m) ==> Somewhere(b, sessions', m);
  }

  lemma EvidenceQuiet(b: Broker, sessions: seq<Session>, i: nat, x': Session)
    requires Evidence(b, sessions) && i < |sessions|
    requires sessions[i].delivered <= x'.delivered && x'.autoAck == sessions[i].autoAck
    requires sessions[i].outcomes <= x'.outcomes && sessions[i].attempts <= x'.attempts
    ensures Evidence(b, sessions[i := x'])
  {
    forall d, m, ok | Proven(sessions, d, m, ok) ensures Proven(sessions[i := x'], d, m, ok) {}
    forall d, m | AutoProven(sessions, d, m) ensures AutoProven(sessions[i := x'], d, m) {}
  }

  lemma EffectsQuiet(b: Broker, sessions: seq<Session>, i: nat, x': Session)
    requires Effects(b, sessions) && i < |sessions| && x'.delivered == sessions[i].delivered
    requires x'.autoAck == sessions[i].autoAck && sessions[i].attempts <= x'.attempts
    requires forall t: nat :: |sessions[i].attempts| <= t < |x'.attempts| ==> !x'.attempts[t].live
    ensures Effects(b, sessions[i := x'])
  {
    forall t: nat | t < |x'.delivered| ensures TookEffect(b, x', i, t) {
      assert TookEffect(b, sessions[i], i, t);
    }
  }

  /** What is settled, and why, does not depend on what is published or ready. */
  lemma SameSettlements(b: Broker, b': Broker, sessions: seq<Session>)
    requires Evidence(b, sessions) && Effects(b, sessions)
    requires b'.acked == b.acked && b'.rejected == b.rejected && b'.autoSettled == b.autoSettled
    ensures Evidence(b', sessions) && Effects(b', sessions)
  {
    assert forall i: nat, t: nat ::
      i < |sessions| && t < |sessions[i].delivered| && TookEffect(b, sessions[i], i, t) ==>
        TookEffect(b', sessions[i], i, t);
  }

  lemma CountersMove(s: State, s': State, i: nat, x': Session)
    requires CountersOk(s) && i < |s.sessions| && s'.sessions == s.sessions[i := x']
    requires s'.wg + Registered(s.sessions[i]) == s.wg + Registered(x')
    requires s'.received + Successes(s.sessions[i]) == s.received + Successes(x')
    requires s'.failed + Failures(s.sessions[i]) == s.failed + Failures(x')
    requires s'.closes <= 1 && !s'.unknownTag
    ensures CountersOk(s')
  {
    SumUpdate(s.sessions, i, x', Registered);
    SumUpdate(s.sessions, i, x', Successes);
    SumUpdate(s.sessions, i, x', Failures);
  }

  /** A quiet move of one session keeps the invariant when its own part and the counters do. */
  lemma QuietMove(s: State, s': State, i: nat, x': Session)
    requires Inv(s) && i < |s.sessions| && Quiet(s.sessions[i], x') && SessionOk(x')
    requires s'.broker == s.broker && s'.sessions == s.sessions[i := x']
    requires CountersOk(s')
    ensures Inv(s')
  {
    PartitionQuiet(s.broker, s.sessions, i, x');
    EvidenceQuiet(s.broker, s.sessions, i, x');
    EffectsQuiet(s.broker, s.sessions, i, x');
  }

  // ---------------------------------------------------------------- broker steps

  lemma PublishKeeps(s: State, m: Message)
    requires Inv(s) && Enabled(s, Publish(m))
    ensures Inv(Next(s, Publish(m)))
  {
    var s' := Next(s, Publish(m));
    assert forall n :: Somewhere(s.broker, s.sessions, n) ==> Somewhere(s'.broker, s.sessions, n);
    assert Somewhere(s'.broker, s.sessions, m);
    SameSettlements(s.broker, s'.broker, s.sessions);
  }

  lemma DeliverKeeps(s: State, i: nat, m: Message)
    requires Inv(s) && Enabled(s, Deliver(i, m))
    ensures Inv(DeliverTo(s, i, m))
  {
    var s' := DeliverTo(s, i, m);
    var x, x' := s.sessions[i], s'.sessions[i];
    assert SessionOk(x);
    DeliveredOk(x, m);
    DeliverPartition(s.broker, s.sessions, i, m);
    DeliverEvidence(s.broker, s'.broker, s.sessions, i, m, x');
    CountersMove(s, s', i, x');
  }

  lemma DeliverEvidence(b: Broker, b': Broker, sessions: seq<Session>, i: nat, m: Message, x': Session)
    requires Partition(b, sessions) && Evidence(b, sessions) && Effects(b, sessions)
    requires i < |sessions| && m in b.ready && b'.acked == b.acked && b'.rejected == b.rejected
    requires b'.autoSettled ==
      if x'.autoAck then b.autoSettled[m := DeliveryId(i, |sessions[i].delivered|)] else b.autoSettled
    requires x'.delivered == sessions[i].delivered + [m] && x'.autoAck == sessions[i].autoAck
    requires x'.outcomes == sessions[i].outcomes && x'.attempts == sessions[i].attempts
    requires |x'.attempts| <= |sessions[i].delivered|
    ensures Evidence(b', sessions[i := x']) && Effects(b', sessions[i := x'])
  {
    var sessions' := sessions[i := x'];
    EvidenceQuiet(b, sessions, i, x');
    forall j: nat, t: nat | j < |sessions'| && t < |sessions'[j].delivered| ensures TookEffect(b', sessions'[j], j, t) {
      if j != i || t < |sessions[i].delivered| {
        assert TookEffect(b, sessions[j], j, t);
        assert sessions'[j].delivered[t] == sessions[j].delivered[t];
      }
    }
  }

  lemma DeliveredOk(x: Session, m: Message)
    requires SessionOk(x) && x.live && Consumes(x.phase)
    ensures SessionOk(x.(delivered := x.delivered + [m],
                         unsettled := if x.autoAck then x.unsettled else x.unsettled + {|x.delivered|}))
  {
  }

  lemma DeliverPartition(b: Broker, sessions: seq<Session>, i: nat, m: Message)
    requires Partition(b, sessions) && SessionsOk(sessions) && i < |sessions| && m in b.ready
    ensures var x := sessions[i];
      if x.autoAck then
        Partition(b.(ready := b.ready - {m}, autoSettled := b.autoSettled[m := DeliveryId(i, |x.delivered|)]),
                  sessions[i := x.(delivered := x.delivered + [m])])
      else
        Partition(b.(ready := b.ready - {m}),
                  sessions[i := x.(delivered := x.delivered + [m], unsettled := x.unsettled + {|x.delivered|})])
  {
    var x := sessions[i];
    assert SessionOk(x);
    var tag := |x.delivered|;
    var b' := if x.autoAck then b.(ready := b.ready - {m}, autoSettled := b.autoSettled[m := DeliveryId(i, tag)])
              else b.(ready := b.ready - {m});
    var x' := if x.autoAck then x.(delivered := x.delivered + [m])
              else x.(delivered := x.delivered + [m], unsettled := x.unsettled + {tag});
    var sessions' := sessions[i := x'];
    forall j: nat, t: nat, n
      ensures HoldsMessage(sessions', j, t, n) <==>
                HoldsMessage(sessions, j, t, n) || (!x.autoAck && j == i && t == tag && n == m)
    {}
    forall n | n in b.published ensures Somewhere(b', sessions', n) {
      if n == m {
        if !x.autoAck { assert HoldsMessage(sessions', i, tag, m); }
      } else {
        assert Somewhere(b, sessions, n);
        if j: nat, t: nat :| HoldsMessage(sessions, j, t, n) { assert HoldsMessage(sessions', j, t, n); }
      }
    }
  }

  /** Closing one channel only moves its unsettled messages back to the queue. */
  lemma CloseKeeps(s: State, i: nat, byClient: bool)
    requires Inv(s) && i < |s.sessions|
    ensures Inv(CloseChannel(s, i, byClient))
  {
    var s' := CloseChannel(s, i, byClient);
    var x' := s'.sessions[i];
    assert SessionOk(s.sessions[i]);
    ClosePartition(s.broker, s.sessions, i, x');
    EvidenceQuiet(s.broker, s.sessions, i, x');
    EffectsQuiet(s.broker, s.sessions, i, x');
    SameSettlements(s.broker, s'.broker, s'.sessions);
    CountersMove(s, s', i, x');
  }

  lemma ClosePartition(b: Broker, sessions: seq<Session>, i: nat, x': Session)
    requires Partition(b, sessions) && i < |sessions| && x'.unsettled == {}
    ensures Partition(b.(ready := b.ready + UnsettledMessages(sessions[i])), sessions[i := x'])
  {
    var x := sessions[i];
    var b' := b.(ready := b.ready + UnsettledMessages(x));
    var sessions' := sessions[i := x'];
    forall j: nat, t: nat, n
      ensures HoldsMessage(sessions', j, t, n) <==> HoldsMessage(sessions, j, t, n) && j != i
    {}
    forall n | n in UnsettledMessages(x) ensures n in b.published && !Settled(b, n) {
      var t :| t in x.unsettled && t < |x.delivered| && x.delivered[t] == n;
      assert HoldsMessage(sessions, i, t, n);
    }
    forall j: nat, t: nat, n | HoldsMessage(sessions', j, t, n) ensures n !in b'.ready {
      if n in UnsettledMessages(x) {
        var u :| u in x.unsettled && u < |x.delivered| && x.delivered[u] == n;
        assert HoldsMessage(sessions, i, u, n);
      }
    }
    forall n | n in b.published ensures Somewhere(b', sessions', n) {
      assert Somewhere(b, sessions, n);
      if j: nat, t: nat :| HoldsMessage(sessions, j, t, n) {
        if j == i {
          assert n in UnsettledMessages(x);
        } else {
          assert HoldsMessage(sessions', j, t, n);
        }
      }
    }
  }

  lemma {:induction false} CloseAllKeeps(s: State, k: nat, n: nat, byClient: bool)
    requires Inv(s) && n <= |s.sessions|
    ensures Inv(CloseChannels(s, k, n, byClient))
  {
    if n > 0 {
      CloseAllKeeps(s, k, n - 1, byClient);
      var s1 := CloseChannels(s, k, n - 1, byClient);
      if s1.sessions[n - 1].conn == k {
        CloseKeeps(s1, n - 1, byClient);
      }
    }
  }

  /** The invariant does not speak of connections and cleanup calls. */
  lemma Frame(s: State, s': State)
    requires Inv(s) && s'.broker == s.broker && s'.sessions == s.sessions
    requires s'.wg == s.wg && s'.received == s.received && s'.failed == s.failed
    requires s'.closes <= 1 && !s'.unknownTag
    ensures Inv(s')
  {
  }

  lemma CloseConnectionKeeps(s: State, k: nat, byClient: bool)
    requires Inv(s) && k < |s.conns|
    ensures Inv(CloseConnection(s, k, byClient))
  {
    CloseAllKeeps(s, k, |s.sessions|, byClient);
    Frame(CloseChannels(s, k, |s.sessions|, byClient), CloseConnection(s, k, byClient));
  }

  // ---------------------------------------------------------------- session steps

  lemma OpenKeeps(s: State, x: Session)
    requires Inv(s) && x == NewSession(x.conn, x.queue, x.autoAck, x.ctx)
    ensures Inv(s.(sessions := s.sessions + [x]))
  {
    OpenPartition(s.broker, s.sessions, x);
    OpenEvidence(s.broker, s.sessions, x);
    OpenCounters(s, x);
    OpenSessions(s.sessions, x);
  }

  lemma OpenSessions(sessions: seq<Session>, x: Session)
    requires SessionsOk(sessions) && x == NewSession(x.conn, x.queue, x.autoAck, x.ctx)
    ensures SessionsOk(sessions + [x])
  {
    assert SessionOk(x);
  }

  lemma OpenCounters(s: State, x: Session)
    requires CountersOk(s) && x == NewSession(x.conn, x.queue, x.autoAck, x.ctx)
    ensures CountersOk(s.(sessions := s.sessions + [x]))
  {
    SumAppend(s.sessions, x, Registered);
    SumAppend(s.sessions, x, Successes);
    SumAppend(s.sessions, x, Failures);
  }

  lemma OpenPartition(b: Broker, sessions: seq<Session>, x: Session)
    requires Partition(b, sessions) && x.unsettled == {}
    ensures Partition(b, sessions + [x])
  {
    var sessions' := sessions + [x];
    assert forall j: nat, t: nat, m :: HoldsMessage(sessions', j, t, m) <==> HoldsMessage(sessions, j, t, m);
    assert forall m :: Somewhere(b, sessions, m) ==> Somewhere(b, sessions', m);
  }

  lemma OpenEvidence(b: Broker, sessions: seq<Session>, x: Session)
    requires Evidence(b, sessions) && Effects(b, sessions) && x.delivered == []
    ensures Evidence(b, sessions + [x]) && Effects(b, sessions + [x])
  {
    assert forall d, m, ok :: Proven(sessions, d, m, ok) ==> Proven(sessions + [x], d, m, ok);
    assert forall d, m :: AutoProven(sessions, d, m) ==> AutoProven(sessions + [x], d, m);
  }

  lemma CancelKeeps(s: State, i: nat, x': Session)
    requires Inv(s) && i < |s.sessions| && x' == s.sessions[i].(ctx := x'.ctx, ended := x'.ended)
    ensures Inv(s.(sessions := s.sessions[i := x']))
  {
    var s' := s.(sessions := s.sessions[i := x']);
    assert SessionOk(s.sessions[i]);
    CountersMove(s, s', i, x');
    QuietMove(s, s', i, x');
  }

  lemma SetPhaseKeeps(s: State, i: nat, p: Phase, wg: int)
    requires Inv(s) && i < |s.sessions|
    requires var x := s.sessions[i];
      SessionOk(x.(phase := p)) && wg + Registered(x) == s.wg + Registered(x.(phase := p))
    ensures Inv(SetPhase(s, i, p).(wg := wg))
  {
    var x' := s.sessions[i].(phase := p);
    var s' := SetPhase(s, i, p).(wg := wg);
    CountersMove(s, s', i, x');
    QuietMove(s, s', i, x');
  }

  lemma TakeKeeps(s: State, i: nat)
    requires Inv(s) && Enabled(s, Take(i))
    ensures Inv(Next(s, Take(i)))
  {
    var s' := Next(s, Take(i));
    var x := s.sessions[i];
    assert SessionOk(x);
    TakenOk(x);
    CountersMove(s, s', i, s'.sessions[i]);
    QuietMove(s, s', i, s'.sessions[i]);
  }

  lemma TakenOk(x: Session)
    requires SessionOk(x) && x.phase.Select? && x.taken < |x.delivered|
    ensures SessionOk(x.(phase := Handling(x.taken), taken := x.taken + 1))
  {
  }

  lemma HandlerKeeps(s: State, i: nat, result: Result)
    requires Inv(s) && Enabled(s, HandlerReturns(i, result))
    ensures Inv(Next(s, HandlerReturns(i, result)))
  {
    var s' := Next(s, HandlerReturns(i, result));
    var x := s.sessions[i];
    assert SessionOk(x);
    ReturnedOk(x, result.Nil?);
    CountersMove(s, s', i, s'.sessions[i]);
    QuietMove(s, s', i, s'.sessions[i]);
  }

  lemma ReturnedOk(x: Session, ok: bool)
    requires SessionOk(x) && x.phase.Handling?
    ensures SessionOk(x.(phase := Returned(x.phase.tag, ok), outcomes := x.outcomes + [ok]))
  {
  }

  lemma RecordKeeps(s: State, i: nat)
    requires Inv(s) && i < |s.sessions| && s.sessions[i].phase.Returned?
    ensures Inv(Record(s, i, s.sessions[i].phase.tag, s.sessions[i].phase.ok))
  {
    var x := s.sessions[i];
    var ok := x.phase.ok;
    var s' := Record(s, i, x.phase.tag, ok);
    assert SessionOk(x);
    RecordedOk(x);
    SumAppend(x.recorded, ok, IsNil);
    SumAppend(x.recorded, ok, IsError);
    CountersMove(s, s', i, s'.sessions[i]);
    QuietMove(s, s', i, s'.sessions[i]);
  }

  lemma RecordedOk(x: Session)
    requires SessionOk(x) && x.phase.Returned?
    ensures SessionOk(x.(recorded := x.recorded + [x.phase.ok],
                         phase := if x.autoAck then Select else Settling(x.phase.tag, x.phase.ok)))
  {
  }

  lemma SettleKeeps(s: State, i: nat)
    requires Inv(s) && i < |s.sessions| && s.sessions[i].phase.Settling?
    ensures Inv(Settle(s, i, s.sessions[i].phase.tag, s.sessions[i].phase.ok))
  {
    var x := s.sessions[i];
    var tag, ok := x.phase.tag, x.phase.ok;
    var s' := Settle(s, i, tag, ok);
    assert SessionOk(x);
    SettledOk(x);
    CountersMove(s, s', i, s'.sessions[i]);
    if x.live {
      SettlePartition(s.broker, s.sessions, i, tag, ok, s'.sessions[i]);
      SettleEvidence(s.broker, s.sessions, i, tag, ok, s'.sessions[i]);
    } else {
      QuietMove(s, s', i, s'.sessions[i]);
    }
  }

  lemma SettledOk(x: Session)
    requires SessionOk(x) && x.phase.Settling?
    ensures x.live ==> x.phase.tag in x.unsettled && x.phase.tag < |x.delivered|
    ensures SessionOk(x.(phase := Select, attempts := x.attempts + [Attempt(x.phase.tag, x.phase.ok, x.live)],
                         unsettled := x.unsettled - {x.phase.tag}))
  {
  }

  lemma SettlePartition(b: Broker, sessions: seq<Session>, i: nat, tag: nat, ok: bool, x': Session)
    requires Partition(b, sessions) && Holds(sessions, i, tag)
    requires x'.delivered == sessions[i].delivered && x'.unsettled == sessions[i].unsettled - {tag}
    ensures Partition(SettleAtBroker(b, sessions[i].delivered[tag], DeliveryId(i, tag), ok), sessions[i := x'])
  {
    var m := sessions[i].delivered[tag];
    var b' := SettleAtBroker(b, m, DeliveryId(i, tag), ok);
    var sessions' := sessions[i := x'];
    assert HoldsMessage(sessions, i, tag, m);
    forall j: nat, t: nat, n
      ensures HoldsMessage(sessions', j, t, n) <==> HoldsMessage(sessions, j, t, n) && n != m
    {}
    assert forall n :: Settled(b', n) <==> Settled(b, n) || n == m;
    forall n | n in b.published ensures Somewhere(b', sessions', n) {
      assert Somewhere(b, sessions, n);
      if j: nat, t: nat :| HoldsMessage(sessions, j, t, n) && n != m {
        assert HoldsMessage(sessions', j, t, n);
      }
    }
  }

  lemma SettleEvidence(b: Broker, sessions: seq<Session>, i: nat, tag: nat, ok: bool, x': Session)
    requires Partition(b, sessions) && Evidence(b, sessions) && Effects(b, sessions) && Holds(sessions, i, tag)
    requires x'.delivered == sessions[i].delivered && !sessions[i].autoAck && !x'.autoAck
    requires tag == |sessions[i].attempts| && x'.attempts == sessions[i].attempts + [Attempt(tag, ok, true)]
    requires x'.outcomes == sessions[i].outcomes && tag < |x'.outcomes| && x'.outcomes[tag] == ok
    ensures var b' := SettleAtBroker(b, sessions[i].delivered[tag], DeliveryId(i, tag), ok);
      Evidence(b', sessions[i := x']) && Effects(b', sessions[i := x'])
  {
    var m := sessions[i].delivered[tag];
    var b' := SettleAtBroker(b, m, DeliveryId(i, tag), ok);
    var sessions' := sessions[i := x'];
    EvidenceQuiet(b, sessions, i, x');
    assert Proven(sessions', DeliveryId(i, tag), m, ok);
    assert HoldsMessage(sessions, i, tag, m);
    forall j: nat, t: nat | j < |sessions'| && t < |sessions'[j].delivered| ensures TookEffect(b', sessions'[j], j, t) {
      assert TookEffect(b, sessions[j], j, t);
    }
  }

  lemma SessionKeeps(s: State, i: nat)
    requires Inv(s) && Enabled(s, SessionMoves(i))
    ensures Inv(MoveSession(s, i))
  {
    var x := s.sessions[i];
    assert SessionOk(x);
    match x.phase
    case Consuming => SetPhaseKeeps(s, i, Select, s.wg + 1);
    case Refused => CloseThen(s, i, Failed);
    case Returned(_, _) => RecordKeeps(s, i);
    case Settling(_, _) => SettleKeeps(s, i);
    case Closing => CloseThen(s, i, Closed);
    case Closed => SetPhaseKeeps(s, i, Gone, s.wg - 1);
  }

  lemma CloseThen(s: State, i: nat, p: Phase)
    requires Inv(s) && i < |s.sessions|
    requires var q := s.sessions[i].phase; (q.Refused? && p.Failed?) || (q.Closing? && p.Closed?)
    ensures Inv(SetPhase(CloseChannel(s, i, true), i, p))
  {
    CloseKeeps(s, i, true);
    var s1 := CloseChannel(s, i, true);
    assert SessionOk(s1.sessions[i]);
    SetPhaseKeeps(s1, i, p, s1.wg);
  }

  lemma CleanupKeeps(s: State, i: nat)
    requires Inv(s) && Enabled(s, CleanupMoves(i))
    ensures Inv(MoveCleanup(s, i))
  {
    match s.cleanups[i]
    case ChannelsClosed =>
      var s1 := s.(earlyClose := s.earlyClose || s.wg != 0, cleanups := s.cleanups[i := Finished]);
      Frame(s, s1);
      if HasConnection(s) {
        CloseConnectionKeeps(s1, s.current.conn, true);
        Frame(CloseConnection(s1, s.current.conn, true), MoveCleanup(s, i));
      }
    case _ => Frame(s, MoveCleanup(s, i));
  }

  lemma StepInv(s: State, step: Step)
    requires Inv(s) && Enabled(s, step)
    ensures Inv(Next(s, step))
  {
    match step
    case Publish(m) => PublishKeeps(s, m);
    case Deliver(i, m) => DeliverKeeps(s, i, m);
    case LoseChannel(i) => CloseKeeps(s, i, false);
    case LoseConnection(k) => CloseConnectionKeeps(s, k, false);
    case Dial => Frame(s, Next(s, step));
    case Open(queue, autoAck, restart) =>
      OpenKeeps(s, NewSession(s.current.conn, queue, autoAck, if restart then Background else Caller));
    case CancelContext(i) => CancelKeeps(s, i, s.sessions[i].(ctx := Cancelled));
    case CancelConsumer(i) => CancelKeeps(s, i, s.sessions[i].(ended := true));
    case CallCleanup(_) => Frame(s, Next(s, step));
    case CleanupMoves(i) => CleanupKeeps(s, i);
    case SessionMoves(i) => SessionKeeps(s, i);
    case _ => LoopStepInv(s, step);
  }

  lemma AnsweredOk(x: Session, p: Phase)
    requires SessionOk(x) && x.phase.Opened? && (p.Consuming? || p.Refused?)
    ensures SessionOk(x.(phase := p)) && Registered(x.(phase := p)) == Registered(x)
  {
  }

  lemma ExitOk(x: Session)
    requires SessionOk(x) && x.phase.Select?
    ensures SessionOk(x.(phase := Closing)) && Registered(x.(phase := Closing)) == Registered(x)
  {
  }

  /** The steps of startDispatchLoop and of the dispatch goroutine. */
  lemma LoopStepInv(s: State, step: Step)
    requires Inv(s) && Enabled(s, step)
    requires step.ConsumeReturns? || step.Take? || step.HandlerReturns? || step.Exit?
    ensures Inv(Next(s, step))
  {
    assert SessionOk(s.sessions[step.session]);
    match step
    case ConsumeReturns(i, ok) =>
      AnsweredOk(s.sessions[i], if ok then Consuming else Refused);
      SetPhaseKeeps(s, i, if ok then Consuming else Refused, s.wg);
    case Take(i) => TakeKeeps(s, i);
    case HandlerReturns(i, result) => HandlerKeeps(s, i, result);
    case Exit(i) =>
      ExitOk(s.sessions[i]);
      SetPhaseKeeps(s, i, Closing, s.wg);
  }

  lemma {:induction false} RunsKeepInv(steps: seq<Step>)
    requires Feasible(steps)
    ensures Inv(After(steps))
  {
    if steps != [] {
      var n := |steps| - 1;
      RunsKeepInv(steps[..n]);
      StepInv(After(steps[..n]), steps[n]);
    }
  }
}
