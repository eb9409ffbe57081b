/** Consumer delivery under failures.

    A session is one call of startDispatchLoop together with the dedicated channel it opens and
    the dispatch goroutine it starts.  The broker follows the explicit acknowledgement model of
    section 3.1.8 of the AMQP 0-9-1 specification: a delivered message stays unsettled on its
    channel until it is acknowledged or rejected there, and returns to its queue when the channel
    or its connection closes first.  Each step is one atomic action of the broker, a session or a
    cleanup call; sessions start at any time, for a Subscribe call or for a rebuild after a
    reconnect. */
module Delivery {
  datatype Message = Message(id: nat, queue: string)

  /** A delivery: the session whose channel carried it, and its tag there. */
  datatype DeliveryId = DeliveryId(session: nat, tag: nat)

  datatype Phase =
    | Opened                           // channel open, consume not answered yet
    | Consuming                        // consuming, goroutine not registered yet
    | Refused                          // QoS or consume failed, channel not closed yet
    | Select                           // the dispatch loop's select
    | Handling(tag: nat)               // inside the handler
    | Returned(tag: nat, ok: bool)     // handler returned or panicked, metrics not recorded yet
    | Settling(tag: nat, ok: bool)     // before Ack or Nack
    | Closing                          // left the loop, channel not closed yet
    | Closed                           // channel closed, wait group not released yet
    | Gone
    | Failed

  /** An Ack (ok) or Nack call, and whether the broker still had the channel when it was made. */
  datatype Attempt = Attempt(tag: nat, ok: bool, live: bool)

  /** The context of a start: Background after a reconnect, else the caller's, which may end. */
  datatype Context = Background | Caller | Cancelled

  datatype Session = Session(
    conn: nat,
    queue: string,
    autoAck: bool,
    ctx: Context,
    phase: Phase,
    live: bool,                // the broker still has the channel
    shut: bool,                // the client closed the channel or its connection
    ended: bool,               // the broker cancelled the consumer: no more deliveries
    delivered: seq<Message>,   // what the channel carried; the tag is the index
    taken: nat,                // how many deliveries the loop received
    unsettled: set<nat>,       // tags the broker waits for
    outcomes: seq<bool>,       // handler results: nil or not
    recorded: seq<bool>,       // results counted in the metrics
    attempts: seq<Attempt>)    // Ack and Nack calls, single message, no requeue

  datatype Broker = Broker(
    published: set<Message>,
    ready: set<Message>,
    acked: map<Message, DeliveryId>,
    rejected: map<Message, DeliveryId>,
    autoSettled: map<Message, DeliveryId>)

  datatype Conn = Conn(live: bool, closedByClient: bool)
  datatype Current = NoConnection | Over(conn: nat)

  datatype Cleanup = Begun | Signalled | Drained | ChannelsClosed | Finished

  /** Who calls a cleanup: a goroutine of its own, or a handler, which then waits for it. */
  datatype Cleaner = Outside | ByHandler(session: nat)

  datatype State = State(
    broker: Broker,
    conns: seq<Conn>,
    current: Current,
    sessions: seq<Session>,
    cleanups: seq<Cleanup>,
    cleaners: seq<Cleaner>,    // who called each cleanup
    wg: int,
    closes: nat,               // how often closeChan was closed
    received: nat,
    failed: nat,
    unknownTag: bool,          // a settlement the broker does not expect
    lateSettle: bool,          // a settlement over a channel the client closed
    earlyClose: bool)          // a close by cleanup while a loop is registered

  datatype Result = Nil | Error | Panic

  datatype Step =
    | Publish(msg: Message)
    | Deliver(session: nat, msg: Message)
    | CancelConsumer(session: nat)
    | LoseChannel(session: nat)
    | LoseConnection(conn: nat)
    | Dial
    | Open(queue: string, autoAck: bool, restart: bool)
    | CancelContext(session: nat)
    | ConsumeReturns(session: nat, ok: bool)
    | Take(session: nat)
    | HandlerReturns(session: nat, result: Result)
    | Exit(session: nat)
    | SessionMoves(session: nat)
    | CallCleanup(cleaner: Cleaner)
    | CleanupMoves(cleanup: nat)

  const INITIAL: State :=
    State(Broker({}, {}, map[], map[], map[]), [], NoConnection, [], [], [], 0, 0, 0, 0, false, false, false)

  // ---------------------------------------------------------------- steps

  predicate Consumes(p: Phase) {
    p.Consuming? || p.Select? || p.Handling? || p.Returned? || p.Settling? || p.Closing?
  }

  predicate Enabled(s: State, step: Step) {
    match step
    case Publish(m) => m !in s.broker.published
    case Deliver(i, m) =>
      && i < |s.sessions| && s.sessions[i].live && !s.sessions[i].ended && Consumes(s.sessions[i].phase)
      && m in s.broker.ready && m.queue == s.sessions[i].queue
    case CancelConsumer(i) => i < |s.sessions| && Consumes(s.sessions[i].phase)
    case LoseChannel(i) => i < |s.sessions|
    case LoseConnection(k) => k < |s.conns|
    case Dial => true
    case Open(_, _, _) => HasConnection(s)
    case CancelContext(i) => i < |s.sessions| && s.sessions[i].ctx.Caller?
    case ConsumeReturns(i, ok) =>
      i < |s.sessions| && s.sessions[i].phase.Opened? && (ok ==> s.sessions[i].live)
    case Take(i) =>
      i < |s.sessions| && s.sessions[i].phase.Select? && s.sessions[i].taken < |s.sessions[i].delivered|
    case HandlerReturns(i, _) => i < |s.sessions| && s.sessions[i].phase.Handling? && !InCleanup(s, i)
    case Exit(i) => i < |s.sessions| && s.sessions[i].phase.Select? && MayLeave(s.sessions[i], s.closes)
    case SessionMoves(i) => i < |s.sessions| && CanMove(s.sessions[i].phase)
    case CallCleanup(Outside) => true
    case CallCleanup(ByHandler(i)) => i < |s.sessions| && s.sessions[i].phase.Handling? && !InCleanup(s, i)
    case CleanupMoves(i) =>
      i < |s.cleanups| && !s.cleanups[i].Finished? && (s.cleanups[i].Signalled? ==> s.wg == 0)
  }

  /** The select may choose to leave: closeChan is closed, the context has ended, or the deliveries
      have.  They end when the channel is lost, at which the library drops what the loop has not
      received, and after the last one when the broker has cancelled the consumer. */
  predicate MayLeave(x: Session, closes: nat) {
    closes > 0 || x.ctx.Cancelled? || !x.live || (x.ended && x.taken >= |x.delivered|)
  }

  /** The handler that session i is in has called a cleanup that has not returned. */
  predicate InCleanup(s: State, i: nat) {
    exists c: nat :: c < |s.cleanups| && PendingFor(s, c, i)
  }

  predicate PendingFor(s: State, c: nat, i: nat) {
    c < |s.cleanups| && c < |s.cleaners| && s.cleaners[c] == ByHandler(i) && !s.cleanups[c].Finished?
  }

  /** The current connection is open. */
  predicate HasConnection(s: State) {
    s.current.Over? && s.current.conn < |s.conns| && s.conns[s.current.conn].live
  }

  predicate CanMove(p: Phase) {
    p.Consuming? || p.Refused? || p.Returned? || p.Settling? || p.Closing? || p.Closed?
  }

  function Next(s: State, step: Step): State
    requires Enabled(s, step)
  {
    match step
    case Publish(m) =>
      s.(broker := s.broker.(published := s.broker.published + {m}, ready := s.broker.ready + {m}))
    case Deliver(i, m) => DeliverTo(s, i, m)
    case CancelConsumer(i) => s.(sessions := s.sessions[i := s.sessions[i].(ended := true)])
    case LoseChannel(i) => CloseChannel(s, i, false)
    case LoseConnection(k) => CloseConnection(s, k, false)
    case Dial => s.(conns := s.conns + [Conn(true, false)], current := Over(|s.conns|))
    case Open(queue, autoAck, restart) =>
      s.(sessions := s.sessions + [NewSession(s.current.conn, queue, autoAck, if restart then Background else Caller)])
    case CancelContext(i) => s.(sessions := s.sessions[i := s.sessions[i].(ctx := Cancelled)])
    case ConsumeReturns(i, ok) => SetPhase(s, i, if ok then Consuming else Refused)
    case Take(i) =>
      var x := s.sessions[i];
      s.(sessions := s.sessions[i := x.(phase := Handling(x.taken), taken := x.taken + 1)])
    case HandlerReturns(i, result) =>
      var x := s.sessions[i];
      var x' := x.(phase := Returned(x.phase.tag, result.Nil?), outcomes := x.outcomes + [result.Nil?]);
      s.(sessions := s.sessions[i := x'])
    case Exit(i) => SetPhase(s, i, Closing)
    case SessionMoves(i) => MoveSession(s, i)
    case CallCleanup(cleaner) => s.(cleanups := s.cleanups + [Begun], cleaners := s.cleaners + [cleaner])
    case CleanupMoves(i) => MoveCleanup(s, i)
  }

  function NewSession(conn: nat, queue: string, autoAck: bool, ctx: Context): Session {
    Session(conn, queue, autoAck, ctx, Opened, true, false, false, [], 0, {}, [], [], [])
  }

  function SetPhase(s: State, i: nat, p: Phase): State
    requires i < |s.sessions|
  {
    s.(sessions := s.sessions[i := s.sessions[i].(phase := p)])
  }

  /** The broker sends a ready message; with autoAck it counts as settled at once. */
  function DeliverTo(s: State, i: nat, m: Message): State
    requires i < |s.sessions|
  {
    var x := s.sessions[i];
    var b := s.broker.(ready := s.broker.ready - {m});
    if x.autoAck then
      s.(broker := b.(autoSettled := b.autoSettled[m := DeliveryId(i, |x.delivered|)]),
         sessions := s.sessions[i := x.(delivered := x.delivered + [m])])
    else
      s.(broker := b,
         sessions := s.sessions[i := x.(delivered := x.delivered + [m], unsettled := x.unsettled + {|x.delivered|})])
  }

  function UnsettledMessages(x: Session): set<Message> {
    set t | t in x.unsettled && t < |x.delivered| :: x.delivered[t]
  }

  function Cut(x: Session, byClient: bool): Session {
    x.(live := false, shut := x.shut || byClient, unsettled := {})
  }

  /** The channel of a session closes: its unsettled messages are ready again. */
  function CloseChannel(s: State, i: nat, byClient: bool): State
    requires i < |s.sessions|
  {
    var x := s.sessions[i];
    s.(broker := s.broker.(ready := s.broker.ready + UnsettledMessages(x)),
       sessions := s.sessions[i := Cut(x, byClient)])
  }

  /** A connection closes, and with it the channels of its sessions. */
  function CloseConnection(s: State, k: nat, byClient: bool): State
    requires k < |s.conns|
  {
    var s' := CloseChannels(s, k, |s.sessions|, byClient);
    s'.(conns := s.conns[k := Conn(false, s.conns[k].closedByClient || byClient)])
  }

  function CloseChannels(s: State, k: nat, n: nat, byClient: bool): (s': State)
    requires n <= |s.sessions|
    ensures |s'.sessions| == |s.sessions|
  {
    if n == 0 then s
    else
      var s1 := CloseChannels(s, k, n - 1, byClient);
      if s1.sessions[n - 1].conn == k then CloseChannel(s1, n - 1, byClient) else s1
  }

  function MoveSession(s: State, i: nat): State
    requires i < |s.sessions|
  {
    var x := s.sessions[i];
    match x.phase
    case Consuming => SetPhase(s, i, Select).(wg := s.wg + 1)
    case Refused => SetPhase(CloseChannel(s, i, true), i, Failed)
    case Returned(tag, ok) => Record(s, i, tag, ok)
    case Settling(tag, ok) => Settle(s, i, tag, ok)
    case Closing => SetPhase(CloseChannel(s, i, true), i, Closed)
    case Closed => SetPhase(s, i, Gone).(wg := s.wg - 1)
    case _ => s
  }

  /** Counts a handler result; with autoAck the dispatch ends here. */
  function Record(s: State, i: nat, tag: nat, ok: bool): State
    requires i < |s.sessions|
  {
    var x := s.sessions[i];
    s.(received := if ok then s.received + 1 else s.received,
       failed := if ok then s.failed else s.failed + 1,
       sessions := s.sessions[i := x.(recorded := x.recorded + [ok],
                                      phase := if x.autoAck then Select else Settling(tag, ok))])
  }

  /** Sends Ack or Nack.  On a dead channel the call fails and nothing changes at the broker. */
  function Settle(s: State, i: nat, tag: nat, ok: bool): State
    requires i < |s.sessions|
  {
    var x := s.sessions[i];
    var x' := x.(phase := Select, attempts := x.attempts + [Attempt(tag, ok, x.live)]);
    var s' := s.(lateSettle := s.lateSettle || x.shut,
                 sessions := s.sessions[i := x']);
    if !x.live then s'
    else if tag !in x.unsettled || tag >= |x.delivered| then s'.(unknownTag := true)
    else
      s'.(broker := SettleAtBroker(s.broker, x.delivered[tag], DeliveryId(i, tag), ok),
          sessions := s.sessions[i := x'.(unsettled := x.unsettled - {tag})])
  }

  function SettleAtBroker(b: Broker, m: Message, d: DeliveryId, ok: bool): Broker {
    if ok then b.(acked := b.acked[m := d]) else b.(rejected := b.rejected[m := d])
  }

  /** cleanupWithContext: signal through closeOnce, wait for the loops, close the registered
      channels, close the connection.  Closing a connection that is lost already is an error, on
      which cleanup returns and keeps the dead connection. */
  function MoveCleanup(s: State, i: nat): State
    requires i < |s.cleanups|
  {
    match s.cleanups[i]
    case Begun =>
      s.(closes := if s.closes == 0 then 1 else s.closes, cleanups := s.cleanups[i := Signalled])
    case Signalled => s.(cleanups := s.cleanups[i := Drained])
    case Drained =>
      s.(earlyClose := s.earlyClose || s.wg != 0, cleanups := s.cleanups[i := ChannelsClosed])
    case ChannelsClosed =>
      var s' := s.(earlyClose := s.earlyClose || s.wg != 0, cleanups := s.cleanups[i := Finished]);
      if HasConnection(s) then
        CloseConnection(s', s.current.conn, true).(current := NoConnection)
      else s'
    case Finished => s
  }

  // ---------------------------------------------------------------- runs

  predicate Feasible(steps: seq<Step>)
    decreases |steps|, 0
  {
    steps == [] || (var n := |steps| - 1; Feasible(steps[..n]) && Enabled(After(steps[..n]), steps[n]))
  }

  function After(steps: seq<Step>): State
    requires Feasible(steps)
    decreases |steps|, 1
  {
    if steps == [] then INITIAL else var n := |steps| - 1; Next(After(steps[..n]), steps[n])
  }

  // ---------------------------------------------------------------- invariant of one session

  /** The delivery the loop has in hand. */
  predicate InHand(p: Phase, t: nat) {
    (p.Handling? || p.Returned? || p.Settling?) && p.tag == t
  }

  predicate MidDispatch(p: Phase) { p.Handling? || p.Returned? || p.Settling? }

  /** On a live channel with explicit acknowledgement, the broker waits for exactly the
      deliveries that are in the loop's inbox or in its hand. */
  ghost predicate HeldOk(x: Session) {
    && x.taken <= |x.delivered|
    && (MidDispatch(x.phase) ==> x.phase.tag == x.taken - 1)
    && (!x.live || x.autoAck ==> x.unsettled == {})
    && (forall t :: t in x.unsettled ==> t < |x.delivered|)
    && (x.live && !x.autoAck ==> forall t: nat :: t < |x.delivered| ==>
          (t in x.unsettled <==> x.taken <= t || InHand(x.phase, t)))
    && (x.phase.Opened? || x.phase.Refused? ==> x.delivered == [])
    && (x.phase.Closed? || x.phase.Gone? || x.phase.Failed? ==> !x.live)
    && (x.phase.Opened? || x.phase.Refused? || x.phase.Consuming? || x.phase.Failed? ==> x.taken == 0)
  }

  /** The three logs of a session: each delivery taken is handled once, counted once and, with
      explicit acknowledgement, settled once with the handler's result, in delivery order. */
  ghost predicate LogsOk(x: Session) {
    && |x.outcomes| == x.taken - (if x.phase.Handling? then 1 else 0)
    && |x.recorded| == |x.outcomes| - (if x.phase.Returned? then 1 else 0)
    && (forall t: nat :: t < |x.recorded| ==> x.recorded[t] == x.outcomes[t])
    && (x.phase.Returned? || x.phase.Settling? ==> x.phase.tag < |x.outcomes| && x.outcomes[x.phase.tag] == x.phase.ok)
    && (x.autoAck ==> x.attempts == [] && !x.phase.Settling?)
    && (!x.autoAck ==> |x.attempts| == |x.recorded| - (if x.phase.Settling? then 1 else 0))
    && (forall t: nat :: t < |x.attempts| && t < |x.recorded| ==>
          x.attempts[t].tag == t && x.attempts[t].ok == x.recorded[t])
    && (x.live ==> forall t: nat :: t < |x.attempts| ==> x.attempts[t].live)
  }

  ghost predicate SessionOk(x: Session) { HeldOk(x) && LogsOk(x) }
}
