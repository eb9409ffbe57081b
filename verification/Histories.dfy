/** The dispatch loops of a subscription over the whole life of a client: any sequence of Subscribe
    and Reconnect calls, with connections dropped by the broker in between. */
module Histories {
  import opened Options
  import opened Errors
  import opened Sums
  import opened Rebuild
  import opened Names

  datatype Call = Subscribe(consumerName: string, queue: string, handler: nat) | Reconnect | Drop(conn: nat)

  /** What became of a call: a subscription recorded, its loop started on a connection or not; a call
      without effect; a fresh connection with loops for the first subscriptions, the rebuild completed
      or not; an open connection dropped. */
  datatype Event = Recorded(on: Option<nat>) | Nothing | Redialed(conn: nat, restarted: nat, ok: bool)
                 | Dropped(conn: nat)

  /** The latest dial, if there was one. */
  function LastDial(events: seq<Event>): (last: Option<Event>)
    ensures last.Some? ==> last.value.Redialed?
  {
    if events == [] then None
    else if events[|events| - 1].Redialed? then Some(events[|events| - 1])
    else LastDial(events[..|events| - 1])
  }

  /** What event k must be, given the network operations from a to b that its call made.  A Subscribe is
      recorded if and only if its queue name is usable and its consumer registered, which after a
      completed rebuild are the enabled ones; its loop starts on the latest connection if and only if
      there is one and the network holds.  A Reconnect dials if and only if the network lets it, and
      completes if and only if the network holds and all names pass. */
  ghost predicate Explained(client: RabbitMQClient, call: Call, events: seq<Event>, k: nat, a: nat, b: nat)
    requires k < |events|
  {
    var e, last := events[k], LastDial(events[..k]);
    match call
    case Subscribe(name, queue, _) =>
      && (e.Recorded? || e.Nothing?)
      && (e.Recorded? ==> UsableName(queue) && name in EnabledConsumerNames(client.consumerConfigs))
      && (last.Some? && last.value.ok ==>
            (e.Recorded? <==> UsableName(queue) && name in EnabledConsumerNames(client.consumerConfigs)))
      && (e.Recorded? ==>
            e.on == if last.Some? && client.Up(a, b) then Some(last.value.conn) else None)
    case Reconnect =>
      && (e.Redialed? || e.Nothing?)
      && (e.Redialed? <==> client.net(a))
      && (e.Redialed? ==>
            && (e.ok <==> client.Up(a, b) && NamesOk(client.producerConfigs, client.consumerConfigs))
            && (e.ok ==> e.restarted == Records(events[..k])))
    case Drop(conn) => e == if conn in Alive(events[..k]) then Dropped(conn) else Nothing
  }

  function IsRecord(e: Event): nat { if e.Recorded? then 1 else 0 }

  /** The subscriptions recorded by the events. */
  function Records(events: seq<Event>): nat { Sum(events, IsRecord) }

  /** Event k started a loop for the subscription on one of the connections: the event that recorded
      it, or a reconnect that got as far as restarting it. */
  predicate Starts(events: seq<Event>, k: nat, id: nat, conns: set<nat>)
    requires k < |events|
  {
    match events[k]
    case Recorded(on) => on.Some? && on.value in conns && id == Records(events[..k])
    case Redialed(conn, restarted, _) => conn in conns && id < restarted
    case _ => false
  }

  /** How many events did. */
  function StartCount(events: seq<Event>, id: nat, conns: set<nat>): nat {
    if events == [] then 0
    else
      var n := |events| - 1;
      StartCount(events[..n], id, conns) + if Starts(events, n, id, conns) then 1 else 0
  }

  /** The connections that were dialed and not dropped. */
  function Alive(events: seq<Event>): set<nat> {
    if events == [] then {} else AliveAfter(Alive(events[..|events| - 1]), events[|events| - 1])
  }

  function AliveAfter(alive: set<nat>, e: Event): set<nat> {
    match e
    case Redialed(conn, _, _) => alive + {conn}
    case Dropped(conn) => alive - {conn}
    case _ => alive
  }

  lemma OneMoreEvent(events: seq<Event>, e: Event)
    ensures Records(events + [e]) == Records(events) + IsRecord(e)
    ensures Alive(events + [e]) == AliveAfter(Alive(events), e)
    ensures LastDial(events + [e]) == if e.Redialed? then Some(e) else LastDial(events)
    ensures forall id: nat, conns: set<nat> :: StartsOneMore(events, e, id, conns)
  {
    SumAppend(events, e, IsRecord);
    assert (events + [e])[..|events|] == events;
  }

  ghost predicate StartsOneMore(events: seq<Event>, e: Event, id: nat, conns: set<nat>) {
    StartCount(events + [e], id, conns) ==
      StartCount(events, id, conns) + if Starts(events + [e], |events|, id, conns) then 1 else 0
  }

  /** What the events of a run look like: connections are dialed in order, a reconnect restarts
      subscriptions recorded before it and no others, a start of its own happens on a connection
      dialed before, and only open connections are dropped. */
  ghost predicate Sound(events: seq<Event>, dialed: nat) {
    forall k: nat :: k < |events| ==> SoundAt(events, k, dialed)
  }

  ghost predicate SoundAt(events: seq<Event>, k: nat, dialed: nat)
    requires k < |events|
  {
    match events[k]
    case Recorded(on) => on.Some? ==> on.value < dialed
    case Redialed(conn, restarted, _) =>
      && conn < dialed && restarted <= Records(events[..k])
      && (forall j: nat :: j < k && events[j].Redialed? ==> events[j].conn < conn)
    case Dropped(conn) => conn in Alive(events[..k])
    case Nothing => true
  }

  lemma SoundGrows(events: seq<Event>, e: Event, dialed: nat, dialed': nat)
    requires Sound(events, dialed) && dialed <= dialed'
    requires e.Recorded? && e.on.Some? ==> e.on.value < dialed'
    requires e.Redialed? ==> dialed <= e.conn < dialed' && e.restarted <= Records(events)
    requires e.Dropped? ==> e.conn in Alive(events)
    ensures Sound(events + [e], dialed')
  {
    var longer := events + [e];
    assert longer[..|events|] == events;
    forall k: nat | k < |longer| ensures SoundAt(longer, k, dialed') {
      if k < |events| {
        assert longer[..k] == events[..k];
        assert SoundAt(events, k, dialed);
      } else {
        assert forall j: nat :: j < |events| && events[j].Redialed? ==> SoundAt(events, j, dialed);
      }
    }
  }

  /** A connection is alive if and only if some reconnect dialed it and no event dropped it. */
  lemma {:induction false} AliveIff(events: seq<Event>, dialed: nat, conn: nat)
    requires Sound(events, dialed)
    ensures conn in Alive(events) <==> WasDialed(events, conn) && Dropped(conn) !in events
    ensures Dropped(conn) in events ==> WasDialed(events, conn)
  {
    if events != [] {
      var n := |events| - 1;
      SoundBefore(events, dialed);
      AliveIff(events[..n], dialed, conn);
      assert events == events[..n] + [events[n]];
      assert SoundAt(events, n, dialed);
      if k: nat :| k < n && events[..n][k].Redialed? && events[..n][k].conn == conn {
        assert events[k].Redialed? && events[k].conn == conn;
      }
    }
  }

  ghost predicate WasDialed(events: seq<Event>, conn: nat) {
    exists k: nat :: k < |events| && events[k].Redialed? && events[k].conn == conn
  }

  lemma SoundBefore(events: seq<Event>, dialed: nat)
    requires events != [] && Sound(events, dialed)
    ensures Sound(events[..|events| - 1], dialed)
  {
    var n := |events| - 1;
    forall k: nat | k < n ensures SoundAt(events[..n], k, dialed) {
      assert events[..n][..k] == events[..k];
      assert SoundAt(events, k, dialed);
    }
  }

  /** Every loop ever started for a subscription goes back to one event. */
  ghost predicate Accounted(loops: seq<Loop>, events: seq<Event>) {
    forall id: nat, conns: set<nat> :: LoopsOn(loops, id, conns) == StartCount(events, id, conns)
  }

  lemma AccountStarted(loops: seq<Loop>, l: Loop, events: seq<Event>)
    requires Accounted(loops, events) && l.id == Records(events)
    ensures Accounted(loops + [l], events + [Recorded(Some(l.conn))])
  {
    var e := Recorded(Some(l.conn));
    LoopsOnAppend(loops, l);
    OneMoreEvent(events, e);
    assert (events + [e])[..|events|] == events;
    assert forall id: nat, conns: set<nat> :: StartsOneMore(events, e, id, conns);
  }

  lemma AccountNone(loops: seq<Loop>, events: seq<Event>, e: Event)
    requires Accounted(loops, events) && (e == Recorded(None) || e.Nothing? || e.Dropped?)
    ensures Accounted(loops, events + [e])
  {
    OneMoreEvent(events, e);
    assert forall id: nat, conns: set<nat> :: StartsOneMore(events, e, id, conns);
  }

  lemma AccountRedialed(loops: seq<Loop>, loops': seq<Loop>, events: seq<Event>, conn: nat, restarted: nat, ok: bool)
    requires Accounted(loops, events) && OneMoreEach(loops, loops', restarted, conn)
    ensures Accounted(loops', events + [Redialed(conn, restarted, ok)])
  {
    OneMoreEvent(events, Redialed(conn, restarted, ok));
    assert forall id: nat, conns: set<nat> :: StartsOneMore(events, Redialed(conn, restarted, ok), id, conns);
  }

  lemma {:induction false} NoneStarted(events: seq<Event>, id: nat, conns: set<nat>)
    ensures StartCount(events, id, conns) == 0 <==> forall k: nat :: k < |events| ==> !Starts(events, k, id, conns)
  {
    if events != [] {
      var n := |events| - 1;
      NoneStarted(events[..n], id, conns);
      forall k: nat | k < n ensures Starts(events[..n], k, id, conns) == Starts(events, k, id, conns) {
        assert events[..n][..k] == events[..k];
      }
    }
  }

  /** After events that end in a reconnect: a subscription it restarted has exactly one loop on the
      connections alive if and only if every earlier connection it was started on was dropped. */
  ghost predicate OneLoopIff(loops: seq<Loop>, events: seq<Event>) {
    events != [] && events[|events| - 1].Redialed? ==>
      forall id: nat :: id < events[|events| - 1].restarted ==>
        (LoopsOn(loops, id, Alive(events)) == 1 <==> NoneElsewhere(events, id))
  }

  ghost predicate NoneElsewhere(events: seq<Event>, id: nat) {
    forall k: nat :: k + 1 < |events| ==> !Starts(events, k, id, Alive(events))
  }

  lemma ExactlyOneLoop(loops: seq<Loop>, events: seq<Event>)
    requires Accounted(loops, events)
    ensures OneLoopIff(loops, events)
  {
    if events != [] && events[|events| - 1].Redialed? {
      var n := |events| - 1;
      var alive := Alive(events);
      forall id: nat | id < events[n].restarted
        ensures LoopsOn(loops, id, alive) == 1 <==> NoneElsewhere(events, id)
      {
        assert LoopsOn(loops, id, alive) == StartCount(events, id, alive);
        NoneStarted(events[..n], id, alive);
        forall k: nat | k < n ensures Starts(events[..n], k, id, alive) == Starts(events, k, id, alive) {
          assert events[..n][..k] == events[..k];
        }
      }
    }
  }

  /** What holds between the calls of a run. */
  ghost predicate Between(client: RabbitMQClient, events: seq<Event>)
    reads client
  {
    && client.Valid() && Sound(events, client.dialed) && |client.subscriptions| == Records(events)
    && Accounted(client.loops, events)
    && (match LastDial(events)
        case None => client.connection == None && client.consumers == map[]
        case Some(last) =>
          && last.Redialed? && client.connection == Some(last.conn)
          && (last.ok ==> client.consumers.Keys == EnabledConsumerNames(client.consumerConfigs)))
  }

  /** Over any calls on a new client: every event is explained by its call and the network, and the loops
      started for a subscription, on any set of connections, are one for its own start if that succeeded
      and one for every later reconnect that got as far as restarting it.  Right after a reconnect
      exactly one of them runs on a live connection if and only if every earlier connection it had one
      on was dropped: a forced reconnect over a healthy connection leaves two. */
  method RunCalls(client: RabbitMQClient, calls: seq<Call>) returns (events: seq<Event>, ghost marks: seq<nat>)
    requires client.Valid() && client.loops == [] && client.subscriptions == [] && client.dialed == 0
    requires client.connection == None && client.consumers == map[]
    modifies client
    ensures client.Valid() && |events| == |calls| && |marks| == |calls| + 1
    ensures marks[0] == old(client.ops) && marks[|calls|] == client.ops
    ensures forall k: nat :: k < |calls| ==> marks[k] <= marks[k + 1]
    ensures forall k: nat :: k < |calls| ==> Explained(client, calls[k], events, k, marks[k], marks[k + 1])
    ensures Sound(events, client.dialed) && |client.subscriptions| == Records(events)
    ensures Accounted(client.loops, events) && OneLoopIff(client.loops, events)
  {
    events, marks := [], [client.ops];
    var alive: set<nat> := {};
    for i := 0 to |calls|
      invariant |events| == i && |marks| == i + 1 && Between(client, events) && alive == Alive(events)
      invariant marks[0] == old(client.ops) && marks[i] == client.ops
      invariant forall k: nat :: k < i ==> marks[k] <= marks[k + 1]
      invariant forall k: nat :: k < i ==> Explained(client, calls[k], events, k, marks[k], marks[k + 1])
    {
      var e;
      match calls[i] {
        case Subscribe(consumerName, queue, handler) =>
          e := RunSubscribe(client, consumerName, queue, handler, events);
        case Reconnect =>
          e := RunReconnect(client, events);
        case Drop(conn) =>
          e := RunDrop(client, conn, alive, events);
      }
      OneMoreEvent(events, e);
      alive := AliveAfter(alive, e);
      ExplainedStays(client, calls, events, e, marks, client.ops);
      marks := marks + [client.ops];
      events := events + [e];
    }
    ExactlyOneLoop(client.loops, events);
  }

  lemma ExplainedStays(client: RabbitMQClient, calls: seq<Call>, events: seq<Event>, e: Event,
                       marks: seq<nat>, mark: nat)
    requires |marks| == |events| + 1 && |events| < |calls|
    requires forall k: nat :: k < |events| ==> Explained(client, calls[k], events, k, marks[k], marks[k + 1])
    requires Explained(client, calls[|events|], events + [e], |events|, marks[|events|], mark)
    ensures var events', marks' := events + [e], marks + [mark];
      forall k: nat :: k < |events'| ==> Explained(client, calls[k], events', k, marks'[k], marks'[k + 1])
  {
    var events', marks' := events + [e], marks + [mark];
    forall k: nat | k < |events'| ensures Explained(client, calls[k], events', k, marks'[k], marks'[k + 1]) {
      if k < |events| {
        assert events'[..k] == events[..k];
        assert Explained(client, calls[k], events, k, marks[k], marks[k + 1]);
      }
    }
  }

  method RunDrop(client: RabbitMQClient, conn: nat, alive: set<nat>, ghost events: seq<Event>) returns (e: Event)
    requires Between(client, events) && alive == Alive(events)
    ensures Between(client, events + [e])
    ensures Explained(client, Drop(conn), events + [e], |events|, client.ops, client.ops)
  {
    e := if conn in alive then Dropped(conn) else Nothing;
    OneMoreEvent(events, e);
    SoundGrows(events, e, client.dialed, client.dialed);
    AccountNone(client.loops, events, e);
    assert (events + [e])[..|events|] == events;
  }

  method RunSubscribe(client: RabbitMQClient, consumerName: string, queue: string, handler: nat,
                      ghost events: seq<Event>)
    returns (e: Event)
    requires Between(client, events)
    modifies client
    ensures old(client.ops) <= client.ops && Between(client, events + [e])
    ensures Explained(client, Subscribe(consumerName, queue, handler), events + [e], |events|,
                      old(client.ops), client.ops)
  {
    var recorded := |client.subscriptions|;
    ghost var before := client.loops;
    var err := client.SubscribeWith(consumerName, queue, handler);
    e := if |client.subscriptions| == recorded then Nothing
         else if err == Nil then Recorded(client.connection) else Recorded(None);
    OneMoreEvent(events, e);
    SoundGrows(events, e, client.dialed, client.dialed);
    assert (events + [e])[..|events|] == events;
    if err == Nil {
      assert client.loops == before + [client.loops[|before|]];
      AccountStarted(before, client.loops[|before|], events);
    } else {
      AccountNone(before, events, e);
    }
  }

  method RunReconnect(client: RabbitMQClient, ghost events: seq<Event>) returns (e: Event)
    requires Between(client, events)
    modifies client
    ensures old(client.ops) <= client.ops && Between(client, events + [e])
    ensures Explained(client, Reconnect, events + [e], |events|, old(client.ops), client.ops)
  {
    var dialed := client.dialed;
    ghost var before := client.loops;
    var result, restarted := client.Reconnect();
    e := if client.dialed == dialed then Nothing else Redialed(dialed, restarted, result.Some?);
    OneMoreEvent(events, e);
    SoundGrows(events, e, dialed, client.dialed);
    assert (events + [e])[..|events|] == events;
    if e.Redialed? {
      AccountRedialed(before, client.loops, events, dialed, restarted, e.ok);
    } else {
      AccountNone(client.loops, events, e);
    }
  }
}
