/** The dispatch side of the client object.  Each method is one atomic step of startDispatchLoop,
    dispatchDelivery or cleanupWithContext, updating the fields in place.  The broker is the
    environment: its own steps are the Publish, Deliver and Lose steps of module Delivery. */
module Dispatching {
  import opened Delivery
  import opened DeliveryInvariant

  class RabbitMQClient {
    ghost var broker: Broker
    var conns: seq<Conn>
    var current: Current
    var sessions: seq<Session>
    var cleanups: seq<Cleanup>
    var wg: int
    var closes: nat
    var received: nat
    var failed: nat
    ghost var cleaners: seq<Cleaner>
    ghost var lateSettle: bool
    ghost var earlyClose: bool

    ghost function View(): State
      reads this
    {
      State(broker, conns, current, sessions, cleanups, cleaners, wg, closes, received, failed, false,
            lateSettle, earlyClose)
    }

    ghost predicate Valid()
      reads this
    {
      Inv(View())
    }

    constructor ()
      ensures View() == INITIAL && Valid()
    {
      broker := Broker({}, {}, map[], map[], map[]);
      conns, current, sessions, cleanups, cleaners := [], NoConnection, [], [], [];
      wg, closes, received, failed, lateSettle, earlyClose := 0, 0, 0, 0, false, false;
      new;
      RunsKeepInv([]);
    }

    /** Closing a channel: the broker takes back what is unsettled on it. */
    method ReleaseChannel(i: nat, byClient: bool)
      requires i < |sessions|
      modifies this`sessions, this`broker
      ensures View() == CloseChannel(old(View()), i, byClient)
    {
      broker := broker.(ready := broker.ready + UnsettledMessages(sessions[i]));
      sessions := sessions[i := Cut(sessions[i], byClient)];
    }

    /** Closing a connection: every channel opened on it closes. */
    method ReleaseChannels(k: nat, byClient: bool)
      modifies this`sessions, this`broker
      ensures View() == CloseChannels(old(View()), k, |old(sessions)|, byClient)
    {
      for n := 0 to |sessions|
        invariant |sessions| == |old(sessions)|
        invariant View() == CloseChannels(old(View()), k, n, byClient)
      {
        if sessions[n].conn == k {
          ReleaseChannel(n, byClient);
        }
      }
    }

    method Connect()
      requires Valid() && Enabled(View(), Dial)
      modifies this`conns, this`current
      ensures View() == Next(old(View()), Dial) && Valid()
    {
      StepInv(View(), Dial);
      current := Over(|conns|);
      conns := conns + [Conn(true, false)];
    }

    /** startDispatchLoop: the dedicated channel on the live connection. */
    method OpenChannel(queue: string, autoAck: bool, restart: bool)
      requires Valid() && Enabled(View(), Open(queue, autoAck, restart))
      modifies this`sessions
      ensures View() == Next(old(View()), Open(queue, autoAck, restart)) && Valid()
    {
      StepInv(View(), Open(queue, autoAck, restart));
      sessions := sessions + [NewSession(current.conn, queue, autoAck, if restart then Background else Caller)];
    }

    method ConsumeReturns(i: nat, ok: bool)
      requires Valid() && Enabled(View(), Step.ConsumeReturns(i, ok))
      modifies this`sessions
      ensures View() == Next(old(View()), Step.ConsumeReturns(i, ok)) && Valid()
    {
      StepInv(View(), Step.ConsumeReturns(i, ok));
      sessions := sessions[i := sessions[i].(phase := if ok then Consuming else Refused)];
    }

    method StartGoroutine(i: nat)
      requires Valid() && i < |sessions| && sessions[i].phase.Consuming?
      modifies this`sessions, this`wg
      ensures View() == Next(old(View()), SessionMoves(i)) && Valid()
    {
      StepInv(View(), SessionMoves(i));
      wg := wg + 1;
      sessions := sessions[i := sessions[i].(phase := Select)];
    }

    /** The start failed: its channel is closed before the error is returned. */
    method GiveUp(i: nat)
      requires Valid() && i < |sessions| && sessions[i].phase.Refused?
      modifies this`sessions, this`broker
      ensures View() == Next(old(View()), SessionMoves(i)) && Valid()
    {
      StepInv(View(), SessionMoves(i));
      ReleaseChannel(i, true);
      sessions := sessions[i := sessions[i].(phase := Failed)];
    }

    method Take(i: nat)
      requires Valid() && Enabled(View(), Step.Take(i))
      modifies this`sessions
      ensures View() == Next(old(View()), Step.Take(i)) && Valid()
    {
      StepInv(View(), Step.Take(i));
      var x := sessions[i];
      sessions := sessions[i := x.(phase := Handling(x.taken), taken := x.taken + 1)];
    }

    /** A panic is recovered and counts as an error. */
    method HandlerReturns(i: nat, result: Result)
      requires Valid() && Enabled(View(), Step.HandlerReturns(i, result))
      modifies this`sessions
      ensures View() == Next(old(View()), Step.HandlerReturns(i, result)) && Valid()
    {
      StepInv(View(), Step.HandlerReturns(i, result));
      var x := sessions[i];
      var handlerOk := result.Nil?;
      sessions := sessions[i := x.(phase := Returned(x.phase.tag, handlerOk), outcomes := x.outcomes + [handlerOk])];
    }

    method RecordMetrics(i: nat)
      requires Valid() && i < |sessions| && sessions[i].phase.Returned?
      modifies this`sessions, this`received, this`failed
      ensures View() == Next(old(View()), SessionMoves(i)) && Valid()
    {
      StepInv(View(), SessionMoves(i));
      var x := sessions[i];
      if x.phase.ok {
        received := received + 1;
      } else {
        failed := failed + 1;
      }
      sessions := sessions[i := x.(recorded := x.recorded + [x.phase.ok],
                                   phase := if x.autoAck then Select else Settling(x.phase.tag, x.phase.ok))];
    }

    /** Settles the delivery in hand; on a live channel the broker always expects its tag. */
    method AckOrNack(i: nat)
      requires Valid() && i < |sessions| && sessions[i].phase.Settling?
      modifies this`sessions, this`broker, this`lateSettle
      ensures View() == Next(old(View()), SessionMoves(i)) && Valid()
    {
      StepInv(View(), SessionMoves(i));
      var x := sessions[i];
      var tag, ok := x.phase.tag, x.phase.ok;
      assert SessionOk(x);
      lateSettle := lateSettle || x.shut;
      if x.live {
        broker := SettleAtBroker(broker, x.delivered[tag], DeliveryId(i, tag), ok);
      }
      sessions := sessions[i := x.(phase := Select, attempts := x.attempts + [Attempt(tag, ok, x.live)],
                                   unsettled := if x.live then x.unsettled - {tag} else x.unsettled)];
    }

    /** The select saw the context's end, the closed closeChan or the end of the deliveries. */
    method Exit(i: nat)
      requires Valid() && Enabled(View(), Step.Exit(i))
      modifies this`sessions
      ensures View() == Next(old(View()), Step.Exit(i)) && Valid()
    {
      StepInv(View(), Step.Exit(i));
      sessions := sessions[i := sessions[i].(phase := Closing)];
    }

    method CloseLoopChannel(i: nat)
      requires Valid() && i < |sessions| && sessions[i].phase.Closing?
      modifies this`sessions, this`broker
      ensures View() == Next(old(View()), SessionMoves(i)) && Valid()
    {
      StepInv(View(), SessionMoves(i));
      ReleaseChannel(i, true);
      sessions := sessions[i := sessions[i].(phase := Closed)];
    }

    method Done(i: nat)
      requires Valid() && i < |sessions| && sessions[i].phase.Closed?
      modifies this`sessions, this`wg
      ensures View() == Next(old(View()), SessionMoves(i)) && Valid()
    {
      StepInv(View(), SessionMoves(i));
      wg := wg - 1;
      sessions := sessions[i := sessions[i].(phase := Gone)];
    }

    /** A cleanup begins, called from outside or by a handler, which waits until it returns. */
    method CallCleanup(ghost cleaner: Cleaner)
      requires Valid() && Enabled(View(), Step.CallCleanup(cleaner))
      modifies this`cleanups, this`cleaners
      ensures View() == Next(old(View()), Step.CallCleanup(cleaner)) && Valid()
    {
      StepInv(View(), Step.CallCleanup(cleaner));
      cleaners := cleaners + [cleaner];
      cleanups := cleanups + [Begun];
    }

    /** Closes closeChan through closeOnce. */
    method SignalClose(c: nat)
      requires Valid() && c < |cleanups| && cleanups[c].Begun?
      modifies this`cleanups, this`closes
      ensures View() == Next(old(View()), CleanupMoves(c)) && Valid()
    {
      StepInv(View(), CleanupMoves(c));
      if closes == 0 {
        closes := 1;
      }
      cleanups := cleanups[c := Signalled];
    }

    method Drain(c: nat)
      requires Valid() && c < |cleanups| && cleanups[c].Signalled? && wg == 0
      modifies this`cleanups
      ensures View() == Next(old(View()), CleanupMoves(c)) && Valid()
    {
      StepInv(View(), CleanupMoves(c));
      cleanups := cleanups[c := Drained];
    }

    method CloseRegistered(c: nat)
      requires Valid() && c < |cleanups| && cleanups[c].Drained?
      modifies this`cleanups, this`earlyClose
      ensures View() == Next(old(View()), CleanupMoves(c)) && Valid()
    {
      StepInv(View(), CleanupMoves(c));
      earlyClose := earlyClose || wg != 0;
      cleanups := cleanups[c := ChannelsClosed];
    }

    /** Closes the current connection and with it the channels of its sessions; one that is lost
        already stays. */
    method CloseConnection(c: nat)
      requires Valid() && c < |cleanups| && cleanups[c].ChannelsClosed?
      modifies this`cleanups, this`earlyClose, this`sessions, this`broker, this`conns, this`current
      ensures View() == Next(old(View()), CleanupMoves(c)) && Valid()
    {
      StepInv(View(), CleanupMoves(c));
      CloseCurrent(c);
    }

    method CloseCurrent(c: nat)
      requires c < |cleanups| && cleanups[c].ChannelsClosed?
      modifies this`cleanups, this`earlyClose, this`sessions, this`broker, this`conns, this`current
      ensures View() == MoveCleanup(old(View()), c)
    {
      earlyClose := earlyClose || wg != 0;
      cleanups := cleanups[c := Finished];
      if current.Over? && current.conn < |conns| && conns[current.conn].live {
        var k := current.conn;
        ReleaseChannels(k, true);
        conns := conns[k := Conn(false, true)];
        current := NoConnection;
      }
    }
  }
}
