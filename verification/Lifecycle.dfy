/** The readiness contract: what startup and cleanup publish through the runtime, assuming that
    registering a resource succeeds, and how it relates to the connection, which the broker may drop
    and a reconnect may replace without anything being published. */
module Lifecycle {

  /** The environment of one startup: whether the context is seen cancelled at each of the three
      checks, and whether each stage succeeds. */
  datatype Startup = Startup(
    cancelledBefore: bool, connects: bool, cancelledAfterConnect: bool, producersOk: bool,
    cancelledAfterProducers: bool, consumersOk: bool, registered: bool, healthy: bool)

  /** A startup, a cleanup, the loss of the connection, or a dial of the reconnect callback. */
  datatype Event = Start(env: Startup) | Stop(cancelledBefore: bool) | Lose | Redial

  /** The four published values: readiness and health, shared and private. */
  datatype Contract = Contract(sharedReady: bool, sharedHealthy: bool, privateReady: bool, privateHealthy: bool)

  /** The connection field: nil, an open connection, or one that is closed. */
  datatype Connection = Absent | Open | Dead

  const ALL := Contract(true, true, true, true)
  const NONE := Contract(false, false, false, false)

  /** A startup or cleanup that gets past its initial cancellation check. */
  predicate Effective(e: Event) {
    match e
    case Start(env) => !env.cancelledBefore
    case Stop(cancelled) => !cancelled
    case _ => false
  }

  /** Every stage of the startup succeeds, so it returns nil. */
  predicate ReturnsNil(env: Startup) {
    && !env.cancelledBefore && env.connects && !env.cancelledAfterConnect && env.producersOk
    && !env.cancelledAfterProducers && env.consumersOk && env.registered && env.healthy
  }

  /** Startup returns nil for exactly one environment: nothing is seen cancelled and every stage
      succeeds. */
  lemma ReturnsNilExactly(env: Startup)
    ensures ReturnsNil(env) <==> env == Startup(false, true, false, true, false, true, true, true)
  {
  }

  predicate IsCleanup(e: Event) { e.Stop? && Effective(e) }

  /** The event stores a fresh connection; a startup that fails later keeps it. */
  predicate Connects(e: Event) { e.Redial? || (e.Start? && Effective(e) && e.env.connects) }

  /** The event says whether there is an open connection. */
  predicate TouchesLink(e: Event) { Connects(e) || e.Lose? || IsCleanup(e) }

  /** The index of the latest event of a kind, or -1. */
  function Latest(events: seq<Event>, kind: Event -> bool): int {
    if events == [] then -1
    else if kind(events[|events| - 1]) then |events| - 1
    else Latest(events[..|events| - 1], kind)
  }

  lemma {:induction false} LatestIsLatest(events: seq<Event>, kind: Event -> bool)
    ensures var i := Latest(events, kind);
      && -1 <= i < |events|
      && (i >= 0 ==> kind(events[i]))
      && (forall j :: 0 <= j < |events| && j > i ==> !kind(events[j]))
  {
    if events != [] && !kind(events[|events| - 1]) {
      LatestIsLatest(events[..|events| - 1], kind);
    }
  }

  /** What should be published: the client is ready and healthy exactly when the latest effective call
      was a startup that returned nil. */
  function Promised(events: seq<Event>, initially: Contract): Contract {
    var i := Latest(events, Effective);
    if i < 0 || i >= |events| then initially
    else if events[i].Start? && ReturnsNil(events[i].env) then ALL
    else NONE
  }

  /** Whether there is an open connection: the latest event that touches it says so. */
  predicate LinkUp(events: seq<Event>, initially: bool) {
    var i := Latest(events, TouchesLink);
    if i < 0 || i >= |events| then initially else Connects(events[i])
  }

  ghost predicate CleanedUp(events: seq<Event>) {
    exists i :: 0 <= i < |events| && IsCleanup(events[i])
  }

  /** One more event changes the promise when it is effective, and the link when it touches it. */
  lemma OneMore(events: seq<Event>, e: Event, initially: Contract, up: bool)
    ensures Promised(events + [e], initially) ==
      if Effective(e) then (if e.Start? && ReturnsNil(e.env) then ALL else NONE) else Promised(events, initially)
    ensures LinkUp(events + [e], up) == if TouchesLink(e) then Connects(e) else LinkUp(events, up)
  {
    assert (events + [e])[..|events|] == events;
    LatestIsLatest(events, Effective);
    LatestIsLatest(events, TouchesLink);
  }

  lemma CleanedUpGrows(events: seq<Event>, e: Event)
    ensures CleanedUp(events + [e]) <==> CleanedUp(events) || IsCleanup(e)
  {
    var longer := events + [e];
    if i :| 0 <= i < |events| && IsCleanup(events[i]) {
      assert IsCleanup(longer[i]);
    }
    if IsCleanup(e) {
      assert longer[|events|] == e;
    }
  }

  /** The connection was dropped after the latest event that stored one. */
  ghost predicate LostSince(events: seq<Event>) {
    exists j :: 0 <= j < |events| && Latest(events, Connects) < j && events[j].Lose?
  }

  /** For a client that is ready without a cleanup so far, the connection is up exactly when it was not
      dropped since the latest connect. */
  lemma UpUnlessLost(events: seq<Event>)
    requires Promised(events, NONE) == ALL && !CleanedUp(events)
    ensures LinkUp(events, false) <==> !LostSince(events)
  {
    LatestIsLatest(events, Effective);
    LatestIsLatest(events, TouchesLink);
    LatestIsLatest(events, Connects);
    var start, connect, touch := Latest(events, Effective), Latest(events, Connects), Latest(events, TouchesLink);
    assert Connects(events[start]);
    assert TouchesLink(events[connect]);
    assert forall j :: 0 <= j < |events| && IsCleanup(events[j]) ==> CleanedUp(events);
    if connect < touch {
      assert events[touch].Lose?;
    }
    assert forall j :: connect < j < |events| && events[j].Lose? ==> TouchesLink(events[j]);
  }

  class RabbitMQClient {
    const runtime: bool        // a runtime was given to InitializeResources
    var published: Contract
    var connection: Connection
    var closed: bool           // the closed flag, set by cleanup and never cleared
    var closeChanClosed: bool
    var stopChanClosed: bool   // the connection manager's stopChan

    /** What cleanup closes, it closes together. */
    ghost predicate Valid()
      reads this
    {
      closeChanClosed == closed && stopChanClosed == closed
    }

    predicate IsConnected()
      reads this
    {
      !closed && connection.Open?
    }

    constructor (runtime: bool)
      ensures published == NONE && !closed && connection.Absent? && Valid() && this.runtime == runtime
    {
      this.runtime := runtime;
      published, connection := NONE, Absent;
      closed, closeChanClosed, stopChanClosed := false, false, false;
    }

    /** Without a runtime nothing is published. */
    method PublishRuntimeContract(ready: bool, healthy: bool)
      modifies this`published
      ensures published == if runtime then Contract(ready, healthy, ready, healthy) else old(published)
    {
      if !runtime {
        return;
      }
      published := published.(sharedReady := ready);
      published := published.(sharedHealthy := healthy);
      published := published.(privateReady := ready);
      published := published.(privateHealthy := healthy);
    }

    /** Every exit after the initial check leaves a verdict; a rejected call changes nothing.  No
        startup opens closeChan or stopChan again or clears the closed flag, and none closes the
        connection it has stored. */
    method StartupWithContext(env: Startup) returns (ok: bool)
      requires Valid()
      modifies this`published, this`connection
      ensures Valid() && ok == ReturnsNil(env)
      ensures published == if env.cancelledBefore || !runtime then old(published) else if ok then ALL else NONE
      ensures connection == if Connects(Start(env)) then Open else old(connection)
    {
      if env.cancelledBefore {
        return false;
      }
      PublishRuntimeContract(false, false);
      if env.connects {
        connection := Open;
      }
      if !env.connects || env.cancelledAfterConnect {
        PublishRuntimeContract(false, false);
        return false;
      }
      if !env.producersOk || env.cancelledAfterProducers {
        PublishRuntimeContract(false, false);
        return false;
      }
      if !env.consumersOk {
        PublishRuntimeContract(false, false);
        return false;
      }
      if !env.registered {
        PublishRuntimeContract(false, false);
        return false;
      }
      if !env.healthy {
        PublishRuntimeContract(false, false);
        return false;
      }
      PublishRuntimeContract(true, true);
      return true;
    }

    /** Returns nil unless it is rejected or the connection is dead already, which it then keeps. */
    method CleanupWithContext(cancelledBefore: bool) returns (ok: bool)
      requires Valid()
      modifies this
      ensures Valid() && published == (if cancelledBefore || !runtime then old(published) else NONE)
      ensures closed == (old(closed) || !cancelledBefore)
      ensures connection == if cancelledBefore || old(connection).Dead? then old(connection) else Absent
      ensures ok == (!cancelledBefore && !old(connection).Dead?)
    {
      if cancelledBefore {
        return false;
      }
      PublishRuntimeContract(false, false);
      closed := true;
      closeChanClosed := true;
      stopChanClosed := true;
      if connection.Dead? {
        return false;
      }
      connection := Absent;
      return true;
    }

    /** The broker drops the connection: nothing is published. */
    method LoseConnection()
      modifies this`connection
      ensures connection == if old(connection).Open? then Dead else old(connection)
    {
      if connection.Open? {
        connection := Dead;
      }
    }

    /** The reconnect callback stores a fresh connection: nothing is published. */
    method StoreConnection()
      modifies this`connection
      ensures connection.Open?
    {
      connection := Open;
    }

    /** Over any sequence of startups, cleanups, losses and reconnects the four values agree and are as
        promised, and the client reports that it is connected exactly when it was never cleaned up and
        the latest event that touches the connection stored one. */
    method Run(events: seq<Event>)
      requires Valid()
      modifies this
      ensures Valid() && published == (if runtime then Promised(events, old(published)) else old(published))
      ensures closed == (old(closed) || CleanedUp(events))
      ensures connection.Open? == LinkUp(events, old(connection).Open?)
      ensures IsConnected() <==> !old(closed) && !CleanedUp(events) && LinkUp(events, old(connection).Open?)
    {
      for i := 0 to |events|
        invariant Valid() && published == (if runtime then Promised(events[..i], old(published)) else old(published))
        invariant closed == (old(closed) || CleanedUp(events[..i]))
        invariant connection.Open? == LinkUp(events[..i], old(connection).Open?)
      {
        assert events[..i + 1] == events[..i] + [events[i]];
        OneMore(events[..i], events[i], old(published), old(connection).Open?);
        CleanedUpGrows(events[..i], events[i]);
        Handle(events[i]);
      }
      assert events[..|events|] == events;
    }

    method Handle(e: Event)
      requires Valid()
      modifies this
      ensures Valid() && closed == (old(closed) || IsCleanup(e))
      ensures published == if !Effective(e) || !runtime then old(published)
                           else if e.Start? && ReturnsNil(e.env) then ALL else NONE
      ensures connection.Open? == if TouchesLink(e) then Connects(e) else old(connection).Open?
    {
      match e {
        case Start(env) => var ok := StartupWithContext(env);
        case Stop(cancelled) => var ok := CleanupWithContext(cancelled);
        case Lose => LoseConnection();
        case Redial => StoreConnection();
      }
    }
  }

  /** The life of a new client: when it is published as ready, it is connected if and only if there was
      no cleanup and the connection was not dropped since the latest connect.  closeChan and stopChan
      stay closed after a cleanup. */
  method Life(events: seq<Event>) returns (client: RabbitMQClient)
    ensures fresh(client) && client.published == Promised(events, NONE)
    ensures client.published == ALL ==> (client.IsConnected() <==> !CleanedUp(events) && !LostSince(events))
    ensures client.closed == client.closeChanClosed == client.stopChanClosed == CleanedUp(events)
  {
    client := new RabbitMQClient(true);
    client.Run(events);
    if client.published == ALL && !CleanedUp(events) {
      UpUnlessLost(events);
    }
  }

  /** Started, cleaned up and started again: ready and not connected. */
  method ReadyAfterCleanup(env: Startup) returns (client: RabbitMQClient)
    requires ReturnsNil(env)
    ensures client.published == ALL && !client.IsConnected() && client.closeChanClosed && client.stopChanClosed
  {
    var events := [Start(env), Stop(false), Start(env)];
    assert IsCleanup(events[1]);
    assert Latest(events, Effective) == 2;
    client := Life(events);
  }

  /** Started, then dropped by the broker: ready and not connected. */
  method ReadyAfterLoss(env: Startup) returns (client: RabbitMQClient)
    requires ReturnsNil(env)
    ensures client.published == ALL && !client.IsConnected() && !client.closed
  {
    var events := [Start(env), Lose];
    assert events[..1] == [Start(env)];
    assert Latest(events, Effective) == 0 && Latest(events, Connects) == 0;
    assert events[1].Lose?;
    client := Life(events);
  }
}
