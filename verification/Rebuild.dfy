/** Channels, subscriptions and dispatch loops of the client, and their rebuild on a fresh
    connection after a reconnect.

    The network is an oracle: the k-th network operation of the client succeeds when net(k).
    Loops are recorded when they start; module Delivery says what becomes of them. */
module Rebuild {
  import opened Errors
  import opened Options
  import opened Config
  import opened Names

  /** What is run on a channel before it is used. */
  datatype Operation =
    | DeclareExchange(exchange: string, exchangeType: string, durable: bool, autoDelete: bool)
    | Confirm
    | Qos(prefetch: int)
    | DeclareQueue(queue: string, durable: bool, autoDelete: bool, exclusive: bool,
                   deadLetterExchange: string, deadLetterKey: string)
    | Consume(queue: string, tag: string, autoAck: bool)

  /** A channel with the operations that succeeded on it, in order. */
  datatype Channel = Channel(conn: nat, open: bool, ran: seq<Operation>)
  datatype Subscription = Subscription(consumerName: string, queue: string, handler: nat)
  /** A loop works for the subscription recorded at position `id`. */
  datatype Loop = Loop(conn: nat, channel: nat, autoAck: bool, sub: Subscription, id: nat)

  ghost function EnabledProducerNames(ps: seq<ProducerFields>): set<string> {
    set p | p in ps && p.enabled :: p.name
  }

  ghost function EnabledConsumerNames(cs: seq<ConsumerFields>): set<string> {
    set c | c in cs && c.enabled :: c.name
  }

  /** The subscriptions of the loops started on a connection, in order. */
  function BoundTo(loops: seq<Loop>, conn: nat): seq<Subscription> {
    if loops == [] then []
    else
      var n := |loops| - 1;
      BoundTo(loops[..n], conn) + if loops[n].conn == conn then [loops[n].sub] else []
  }

  lemma {:induction false} BoundToNone(loops: seq<Loop>, conn: nat)
    requires forall i :: 0 <= i < |loops| ==> loops[i].conn < conn
    ensures BoundTo(loops, conn) == []
  {
    if loops != [] {
      BoundToNone(loops[..|loops| - 1], conn);
    }
  }

  lemma BoundToAppend(loops: seq<Loop>, l: Loop, conn: nat)
    ensures BoundTo(loops + [l], conn) == BoundTo(loops, conn) + if l.conn == conn then [l.sub] else []
  {
    assert (loops + [l])[..|loops|] == loops;
  }

  /** How many loops of a subscription were started on the given connections. */
  function LoopsOn(loops: seq<Loop>, id: nat, conns: set<nat>): nat {
    if loops == [] then 0
    else
      var n := |loops| - 1;
      LoopsOn(loops[..n], id, conns) + if loops[n].id == id && loops[n].conn in conns then 1 else 0
  }

  lemma LoopsOnAppend(loops: seq<Loop>, l: Loop)
    ensures forall id: nat, conns: set<nat> ::
      LoopsOn(loops + [l], id, conns) == LoopsOn(loops, id, conns) + if l.id == id && l.conn in conns then 1 else 0
  {
    assert (loops + [l])[..|loops|] == loops;
  }

  /** The first n subscriptions, and no others, got one more loop each, on the connection. */
  ghost predicate OneMoreEach(before: seq<Loop>, now: seq<Loop>, n: nat, conn: nat) {
    forall id: nat, conns: set<nat> ::
      LoopsOn(now, id, conns) == LoopsOn(before, id, conns) + if id < n && conn in conns then 1 else 0
  }

  lemma OneMoreNext(before: seq<Loop>, now: seq<Loop>, l: Loop, conn: nat)
    requires OneMoreEach(before, now, l.id, conn) && l.conn == conn
    ensures OneMoreEach(before, now + [l], l.id + 1, conn)
  {
    LoopsOnAppend(now, l);
  }

  ghost predicate Registered(subs: seq<Subscription>, names: set<string>) {
    forall i :: 0 <= i < |subs| ==> subs[i].consumerName in names
  }

  /** The name is registered with an open channel of the connection. */
  ghost predicate OpenOn(m: map<string, nat>, name: string, channels: seq<Channel>, conn: nat) {
    name in m && m[name] < |channels| && channels[m[name]].conn == conn && channels[m[name]].open
  }

  ghost predicate AllOn(m: map<string, nat>, channels: seq<Channel>, conn: nat) {
    forall name :: name in m ==> OpenOn(m, name, channels, conn)
  }

  /** No channel opened since there were n of them is still open. */
  ghost predicate NoneLeft(channels: seq<Channel>, n: nat) {
    forall i :: n <= i < |channels| ==> !channels[i].open
  }

  /** The map gained nothing but open channels of the connection under the given names. */
  ghost predicate Extended(m: map<string, nat>, m': map<string, nat>, names: set<string>,
                           channels: seq<Channel>, conn: nat)
  {
    && m.Keys <= m'.Keys <= m.Keys + names
    && (forall name :: name in m' ==>
          || (name in m && m'[name] == m[name])
          || (name in names && OpenOn(m', name, channels, conn)))
  }

  /** The subscriptions whose consumer is registered. */
  function Restartable(subs: seq<Subscription>, names: set<string>): seq<Subscription> {
    if subs == [] then []
    else
      var n := |subs| - 1;
      Restartable(subs[..n], names) + if subs[n].consumerName in names then [subs[n]] else []
  }

  lemma {:induction false} AllRestartable(subs: seq<Subscription>, names: set<string>)
    requires forall i :: 0 <= i < |subs| ==> subs[i].consumerName in names
    ensures Restartable(subs, names) == subs
  {
    if subs != [] {
      AllRestartable(subs[..|subs| - 1], names);
    }
  }

  /** The loops were restarted for the first i subscriptions whose consumer is registered. */
  ghost predicate RestartedTo(before: seq<Loop>, now: seq<Loop>, subs: seq<Subscription>, names: set<string>,
                              i: nat, conn: nat)
    requires i <= |subs|
  {
    && BoundTo(now, conn) == BoundTo(before, conn) + Restartable(subs[..i], names)
    && (Registered(subs, names) ==> OneMoreEach(before, now, i, conn))
  }

  lemma RestartsOne(before: seq<Loop>, now: seq<Loop>, subs: seq<Subscription>, names: set<string>, l: Loop, conn: nat)
    requires l.id < |subs| && RestartedTo(before, now, subs, names, l.id, conn)
    requires l.conn == conn && l.sub == subs[l.id] && l.sub.consumerName in names
    ensures RestartedTo(before, now + [l], subs, names, l.id + 1, conn)
  {
    assert subs[..l.id + 1][..l.id] == subs[..l.id];
    BoundToAppend(now, l, conn);
    if Registered(subs, names) {
      OneMoreNext(before, now, l, conn);
    }
  }

  lemma SkipsOne(before: seq<Loop>, now: seq<Loop>, subs: seq<Subscription>, names: set<string>, i: nat, conn: nat)
    requires i < |subs| && RestartedTo(before, now, subs, names, i, conn) && subs[i].consumerName !in names
    ensures RestartedTo(before, now, subs, names, i + 1, conn)
  {
    assert subs[..i + 1][..i] == subs[..i];
  }

  /** The loops were restarted for a prefix of the recorded subscriptions. */
  ghost predicate PartlyRestarted(before: seq<Subscription>, now: seq<Subscription>, subs: seq<Subscription>,
                                  names: set<string>)
  {
    exists n :: 0 <= n <= |subs| && now == before + Restartable(subs[..n], names)
  }

  lemma NothingRestarted(before: seq<Subscription>, subs: seq<Subscription>)
    ensures forall names :: PartlyRestarted(before, before, subs, names)
  {
    forall names ensures PartlyRestarted(before, before, subs, names) {
      assert before == before + Restartable(subs[..0], names);
    }
  }

  lemma FromEmpty(m: map<string, nat>, names: set<string>, channels: seq<Channel>, conn: nat)
    requires Extended(map[], m, names, channels, conn)
    ensures AllOn(m, channels, conn) && m.Keys <= names
  {
  }

  predicate ProducerNamesOk(p: ProducerFields) {
    p.exchange != "" ==> UsableName(p.exchange) && KnownExchangeType(p.exchangeType)
  }

  predicate ConsumerNamesOk(c: ConsumerFields) {
    (c.queue != "" ==> UsableName(c.queue)) && (c.exchange != "" ==> UsableName(c.exchange))
  }

  ghost predicate ProducersNamed(ps: seq<ProducerFields>) { forall p :: p in ps && p.enabled ==> ProducerNamesOk(p) }

  ghost predicate ConsumersNamed(cs: seq<ConsumerFields>) { forall c :: c in cs && c.enabled ==> ConsumerNamesOk(c) }

  /** The names of every enabled producer and consumer pass the checks. */
  ghost predicate NamesOk(ps: seq<ProducerFields>, cs: seq<ConsumerFields>) {
    ProducersNamed(ps) && ConsumersNamed(cs)
  }

  /** Whether the broker acknowledges for the named consumer, and its prefetch count. */
  function SettingsOf(cs: seq<ConsumerFields>, name: string): (bool, int) {
    if cs == [] then (false, 0)
    else if cs[0].name == name then (cs[0].autoAck, cs[0].prefetchCount)
    else SettingsOf(cs[1..], name)
  }

  /** The settings are those of the first entry with the name, and the zero values without one. */
  lemma {:induction false} SettingsOfFirst(cs: seq<ConsumerFields>, name: string)
    ensures
      || (&& (forall i: nat :: i < |cs| ==> cs[i].name != name) && SettingsOf(cs, name) == (false, 0))
      || (exists i: nat :: FirstNamed(cs, name, i) && SettingsOf(cs, name) == (cs[i].autoAck, cs[i].prefetchCount))
  {
    if cs != [] {
      if cs[0].name == name {
        assert FirstNamed(cs, name, 0);
      } else {
        SettingsOfFirst(cs[1..], name);
        var rest := cs[1..];
        if i: nat :| FirstNamed(rest, name, i) && SettingsOf(rest, name) == (rest[i].autoAck, rest[i].prefetchCount) {
          FirstNamedLater(cs, name, i);
        } else {
          forall i: nat | i < |cs| ensures cs[i].name != name {
            assert i > 0 ==> cs[i] == cs[1..][i - 1];
          }
        }
      }
    }
  }

  ghost predicate FirstNamed(cs: seq<ConsumerFields>, name: string, i: nat) {
    i < |cs| && cs[i].name == name && forall j: nat :: j < i ==> cs[j].name != name
  }

  lemma FirstNamedLater(cs: seq<ConsumerFields>, name: string, i: nat)
    requires cs != [] && cs[0].name != name && FirstNamed(cs[1..], name, i)
    ensures FirstNamed(cs, name, i + 1) && cs[i + 1] == cs[1..][i]
  {
    forall j: nat | j < i + 1 ensures cs[j].name != name {
      assert j > 0 ==> cs[j] == cs[1..][j - 1];
    }
  }

  /** The enabled entries, in order. */
  function EnabledProducers(ps: seq<ProducerFields>): (enabled: seq<ProducerFields>)
    ensures forall p :: p in enabled <==> p in ps && p.enabled
  {
    if ps == [] then []
    else
      var n := |ps| - 1;
      assert ps == ps[..n] + [ps[n]];
      EnabledProducers(ps[..n]) + if ps[n].enabled then [ps[n]] else []
  }

  method GetEnabledProducers(ps: seq<ProducerFields>) returns (enabled: seq<ProducerFields>)
    ensures enabled == EnabledProducers(ps)
  {
    enabled := [];
    for i := 0 to |ps|
      invariant enabled == EnabledProducers(ps[..i])
    {
      assert ps[..i + 1][..i] == ps[..i];
      if ps[i].enabled {
        enabled := enabled + [ps[i]];
      }
    }
    assert ps[..|ps|] == ps;
  }

  /** The enabled entries, in order. */
  function EnabledConsumers(cs: seq<ConsumerFields>): (enabled: seq<ConsumerFields>)
    ensures forall c :: c in enabled <==> c in cs && c.enabled
  {
    if cs == [] then []
    else
      var n := |cs| - 1;
      assert cs == cs[..n] + [cs[n]];
      EnabledConsumers(cs[..n]) + if cs[n].enabled then [cs[n]] else []
  }

  method GetEnabledConsumers(cs: seq<ConsumerFields>) returns (enabled: seq<ConsumerFields>)
    ensures enabled == EnabledConsumers(cs)
  {
    enabled := [];
    for i := 0 to |cs|
      invariant enabled == EnabledConsumers(cs[..i])
    {
      assert cs[..i + 1][..i] == cs[..i];
      if cs[i].enabled {
        enabled := enabled + [cs[i]];
      }
    }
    assert cs[..|cs|] == cs;
  }

  class RabbitMQClient {
    const producerConfigs: seq<ProducerFields>
    const consumerConfigs: seq<ConsumerFields>
    const net: nat -> bool
    var ops: nat
    var connection: Option<nat>
    var dialed: nat
    var channels: seq<Channel>
    var producers: map<string, nat>
    var consumers: map<string, nat>
    var subscriptions: seq<Subscription>
    var loops: seq<Loop>

    /** Channels and loops belong to connections dialed so far; only enabled consumers are
        registered, so every recorded subscription names one. */
    ghost predicate Valid()
      reads this
    {
      && (connection.Some? ==> connection.value < dialed)
      && (forall i :: 0 <= i < |loops| ==> loops[i].conn < dialed)
      && consumers.Keys <= EnabledConsumerNames(consumerConfigs)
      && (forall i :: 0 <= i < |subscriptions| ==>
            subscriptions[i].consumerName in EnabledConsumerNames(consumerConfigs))
    }

    constructor (producerConfigs: seq<ProducerFields>, consumerConfigs: seq<ConsumerFields>, net: nat -> bool)
      ensures Valid() && loops == [] && subscriptions == [] && connection == None && dialed == 0
      ensures producers == map[] && consumers == map[] && channels == []
      ensures this.producerConfigs == producerConfigs && this.consumerConfigs == consumerConfigs && this.net == net
    {
      this.producerConfigs, this.consumerConfigs, this.net := producerConfigs, consumerConfigs, net;
      ops, dialed, connection := 0, 0, None;
      channels, producers, consumers, subscriptions, loops := [], map[], map[], [], [];
    }

    /** All network operations from a to b succeed. */
    ghost predicate Up(a: nat, b: nat)
    {
      forall k: nat :: a <= k < b ==> net(k)
    }

    method NetworkOperation() returns (ok: bool)
      modifies this`ops
      ensures ops == old(ops) + 1 && ok == net(old(ops))
    {
      ok := net(ops);
      ops := ops + 1;
    }

    /** Opens a channel on the connection and runs the given operations on it in order; if one fails
        the channel is closed again. */
    method OpenChannel(conn: nat, operations: seq<Operation>) returns (made: Option<nat>)
      modifies this`ops, this`channels
      ensures ops > old(ops) && old(channels) <= channels
      ensures made.Some? <==> Up(old(ops), ops)
      ensures made.None? ==> NoneLeft(channels, |old(channels)|)
      ensures made.Some? ==>
        && made.value == |old(channels)| && channels == old(channels) + [Channel(conn, true, operations)]
        && ops == old(ops) + 1 + |operations|
    {
      var ok := NetworkOperation();
      if !ok {
        assert !net(old(ops));
        return None;
      }
      channels := channels + [Channel(conn, true, [])];
      for i := 0 to |operations|
        invariant ops == old(ops) + 1 + i && Up(old(ops), ops)
        invariant channels == old(channels) + [Channel(conn, true, operations[..i])]
      {
        ok := NetworkOperation();
        if !ok {
          assert !net(ops - 1);
          channels := channels[|channels| - 1 := Channel(conn, false, operations[..i])];
          return None;
        }
        channels := channels[|channels| - 1 := Channel(conn, true, operations[..i + 1])];
      }
      assert operations[..|operations|] == operations;
      return Some(|channels| - 1);
    }

    method CreateProducer(p: ProducerFields) returns (err: Error)
      requires connection.Some?
      modifies this`ops, this`channels, this`producers
      ensures old(channels) <= channels && old(ops) <= ops
      ensures err == Nil <==> ProducerNamesOk(p) && Up(old(ops), ops)
      ensures err == Nil ==>
        && producers == old(producers)[p.name := |old(channels)|]
        && channels == old(channels) + [Channel(connection.value, true,
             if p.exchange == "" then []
             else [DeclareExchange(p.exchange, p.exchangeType, p.durable, p.autoDelete), Confirm])]
      ensures err != Nil ==> producers == old(producers) && NoneLeft(channels, |old(channels)|)
    {
      if p.exchange != "" {
        err := ValidateExchange(p.exchange);
        if err != Nil {
          return WrapError(err, "producer " + p.name);
        }
        err := ValidateExchangeType(p.exchangeType);
        if err != Nil {
          return WrapError(err, "producer " + p.name);
        }
      }
      var operations := [];
      if p.exchange != "" {
        operations := [DeclareExchange(p.exchange, p.exchangeType, p.durable, p.autoDelete), Confirm];
      }
      var made := OpenChannel(connection.value, operations);
      if made.None? {
        return Foreign(0);
      }
      producers := producers[p.name := made.value];
      return Nil;
    }

    method CreateConsumer(c: ConsumerFields) returns (err: Error)
      requires connection.Some?
      modifies this`ops, this`channels, this`consumers
      ensures old(channels) <= channels && old(ops) <= ops
      ensures err == Nil <==> ConsumerNamesOk(c) && Up(old(ops), ops)
      ensures err == Nil ==>
        && consumers == old(consumers)[c.name := |old(channels)|]
        && channels == old(channels) + [Channel(connection.value, true,
             (if c.prefetchCount > 0 then [Qos(c.prefetchCount)] else []) +
             (if c.queue == "" then []
              else [DeclareQueue(c.queue, c.durable, c.autoDelete, c.exclusive, c.exchange,
                                 if c.exchange == "" then "" else c.routingKey)]))]
      ensures err != Nil ==> consumers == old(consumers) && NoneLeft(channels, |old(channels)|)
    {
      if c.queue != "" {
        err := ValidateQueue(c.queue);
        if err != Nil {
          return WrapError(err, "consumer " + c.name);
        }
      }
      if c.exchange != "" {
        err := ValidateExchange(c.exchange);
        if err != Nil {
          return WrapError(err, "consumer " + c.name);
        }
      }
      var operations := [];
      if c.prefetchCount > 0 {
        operations := operations + [Qos(c.prefetchCount)];
      }
      if c.queue != "" {
        var key := if c.exchange == "" then "" else c.routingKey;
        operations := operations + [DeclareQueue(c.queue, c.durable, c.autoDelete, c.exclusive, c.exchange, key)];
      }
      assert operations ==
        (if c.prefetchCount > 0 then [Qos(c.prefetchCount)] else []) +
        (if c.queue == "" then []
         else [DeclareQueue(c.queue, c.durable, c.autoDelete, c.exclusive, c.exchange,
                            if c.exchange == "" then "" else c.routingKey)]);
      var made := OpenChannel(connection.value, operations);
      if made.None? {
        return Foreign(0);
      }
      consumers := consumers[c.name := made.value];
      return Nil;
    }

    /** Registers one channel per enabled producer, in order; stops at the first failure. */
    method InitializeProducers() returns (err: Error)
      requires connection.Some?
      modifies this`ops, this`channels, this`producers
      ensures old(channels) <= channels && old(ops) <= ops
      ensures Extended(old(producers), producers, EnabledProducerNames(producerConfigs), channels, connection.value)
      ensures err == Nil ==>
        forall name :: name in EnabledProducerNames(producerConfigs) ==>
          OpenOn(producers, name, channels, connection.value)
      ensures err == Nil <==> Up(old(ops), ops) && ProducersNamed(producerConfigs)
    {
      var enabled := GetEnabledProducers(producerConfigs);
      err := CreateProducers(enabled, EnabledProducerNames(producerConfigs));
    }

    method CreateProducers(enabled: seq<ProducerFields>, ghost names: set<string>) returns (err: Error)
      requires connection.Some? && forall p :: p in enabled ==> p.name in names
      modifies this`ops, this`channels, this`producers
      ensures old(channels) <= channels && old(ops) <= ops
      ensures Extended(old(producers), producers, names, channels, connection.value)
      ensures err == Nil ==> forall p :: p in enabled ==> OpenOn(producers, p.name, channels, connection.value)
      ensures err == Nil <==> Up(old(ops), ops) && forall p :: p in enabled ==> ProducerNamesOk(p)
    {
      for i := 0 to |enabled|
        invariant old(channels) <= channels && old(ops) <= ops && Up(old(ops), ops)
        invariant Extended(old(producers), producers, names, channels, connection.value)
        invariant forall j :: 0 <= j < i ==> OpenOn(producers, enabled[j].name, channels, connection.value)
        invariant forall j :: 0 <= j < i ==> ProducerNamesOk(enabled[j])
      {
        ghost var before := ops;
        var e := CreateProducer(enabled[i]);
        if e != Nil {
          assert ProducerNamesOk(enabled[i]) ==> !Up(before, ops);
          return WrapError(e, "failed to create producer " + enabled[i].name);
        }
      }
      return Nil;
    }

    method InitializeConsumers() returns (err: Error)
      requires connection.Some?
      modifies this`ops, this`channels, this`consumers
      ensures old(channels) <= channels && old(ops) <= ops
      ensures Extended(old(consumers), consumers, EnabledConsumerNames(consumerConfigs), channels, connection.value)
      ensures err == Nil ==>
        forall name :: name in EnabledConsumerNames(consumerConfigs) ==>
          OpenOn(consumers, name, channels, connection.value)
      ensures err == Nil <==> Up(old(ops), ops) && ConsumersNamed(consumerConfigs)
    {
      var enabled := GetEnabledConsumers(consumerConfigs);
      err := CreateConsumers(enabled, EnabledConsumerNames(consumerConfigs));
    }

    method CreateConsumers(enabled: seq<ConsumerFields>, ghost names: set<string>) returns (err: Error)
      requires connection.Some? && forall c :: c in enabled ==> c.name in names
      modifies this`ops, this`channels, this`consumers
      ensures old(channels) <= channels && old(ops) <= ops
      ensures Extended(old(consumers), consumers, names, channels, connection.value)
      ensures err == Nil ==> forall c :: c in enabled ==> OpenOn(consumers, c.name, channels, connection.value)
      ensures err == Nil <==> Up(old(ops), ops) && forall c :: c in enabled ==> ConsumerNamesOk(c)
    {
      for i := 0 to |enabled|
        invariant old(channels) <= channels && old(ops) <= ops && Up(old(ops), ops)
        invariant Extended(old(consumers), consumers, names, channels, connection.value)
        invariant forall j :: 0 <= j < i ==> OpenOn(consumers, enabled[j].name, channels, connection.value)
        invariant forall j :: 0 <= j < i ==> ConsumerNamesOk(enabled[j])
      {
        ghost var before := ops;
        var e := CreateConsumer(enabled[i]);
        if e != Nil {
          assert ConsumerNamesOk(enabled[i]) ==> !Up(before, ops);
          return WrapError(e, "failed to create consumer " + enabled[i].name);
        }
      }
      return Nil;
    }

    /** The settings of the first consumer with the name, enabled or not. */
    method FindConsumer(name: string) returns (autoAck: bool, prefetchCount: int)
      ensures (autoAck, prefetchCount) == SettingsOf(consumerConfigs, name)
    {
      for i := 0 to |consumerConfigs|
        invariant SettingsOf(consumerConfigs, name) == SettingsOf(consumerConfigs[i..], name)
      {
        if consumerConfigs[i].name == name {
          return consumerConfigs[i].autoAck, consumerConfigs[i].prefetchCount;
        }
      }
      return false, 0;
    }

    /** Starts a loop on a channel of its own over the current connection, or changes nothing but
        the channels it closed again. */
    method StartDispatchLoop(sub: Subscription, id: nat) returns (err: Error)
      modifies this`ops, this`channels, this`loops
      ensures old(channels) <= channels && old(ops) <= ops
      ensures err == Nil <==> connection.Some? && Up(old(ops), ops)
      ensures err == Nil ==>
        && var settings := SettingsOf(consumerConfigs, sub.consumerName);
        && channels == old(channels) + [Channel(connection.value, true,
             (if settings.1 > 0 then [Qos(settings.1)] else []) +
             [Consume(sub.queue, sub.consumerName, settings.0)])]
        && |loops| == |old(loops)| + 1 && loops[..|old(loops)|] == old(loops)
        && var l := loops[|old(loops)|];
           l.conn == connection.value && l.channel == |old(channels)| && l.sub == sub && l.id == id &&
           l.autoAck == SettingsOf(consumerConfigs, sub.consumerName).0
      ensures err != Nil ==> loops == old(loops) && NoneLeft(channels, |old(channels)|)
    {
      var autoAck, prefetchCount := FindConsumer(sub.consumerName);
      if connection.None? {
        return CONSUMER_NOT_READY;
      }
      var ok := NetworkOperation();
      if !ok {
        assert !net(old(ops));
        return CONSUMER_NOT_READY;
      }
      var operations := [Consume(sub.queue, sub.consumerName, autoAck)];
      if prefetchCount > 0 {
        operations := [Qos(prefetchCount)] + operations;
      }
      assert operations == (if prefetchCount > 0 then [Qos(prefetchCount)] else []) +
                           [Consume(sub.queue, sub.consumerName, autoAck)];
      var made := OpenChannel(connection.value, operations);
      if made.None? {
        return WrapError(SUBSCRIBE_FAILED, "channel");
      }
      loops := loops + [Loop(connection.value, made.value, autoAck, sub, id)];
      return Nil;
    }

    /** Records the subscription, then starts its loop; the record stays when the start fails. */
    method SubscribeWithChannel(sub: Subscription) returns (err: Error)
      requires Valid() && sub.consumerName in consumers
      modifies this`ops, this`channels, this`loops, this`subscriptions
      ensures Valid() && old(ops) <= ops
      ensures subscriptions == old(subscriptions) + [sub]
      ensures err == Nil <==> connection.Some? && Up(old(ops), ops)
      ensures err == Nil ==>
        && connection.Some? && |loops| == |old(loops)| + 1 && loops[..|old(loops)|] == old(loops)
        && var l := loops[|old(loops)|]; l.sub == sub && l.id == |old(subscriptions)| && l.conn == connection.value
      ensures err != Nil ==> loops == old(loops)
    {
      subscriptions := subscriptions + [sub];
      err := StartDispatchLoop(sub, |subscriptions| - 1);
    }

    method SubscribeWith(consumerName: string, queue: string, handler: nat) returns (err: Error)
      requires Valid()
      modifies this`ops, this`channels, this`loops, this`subscriptions
      ensures Valid() && old(ops) <= ops
      ensures err == Nil <==> UsableName(queue) && consumerName in consumers && connection.Some? && Up(old(ops), ops)
      ensures queue == "" ==> Is(err, EMPTY_QUEUE)
      ensures queue != "" && !UsableName(queue) ==> Is(err, INVALID_QUEUE)
      ensures UsableName(queue) && consumerName !in consumers ==> Is(err, CONSUMER_NOT_FOUND)
      ensures subscriptions == if UsableName(queue) && consumerName in consumers
                               then old(subscriptions) + [Subscription(consumerName, queue, handler)]
                               else old(subscriptions)
      ensures !UsableName(queue) || consumerName !in consumers ==> err != Nil && loops == old(loops)
      ensures err == Nil ==>
        && connection.Some? && |loops| == |old(loops)| + 1 && loops[..|old(loops)|] == old(loops)
        && var l := loops[|old(loops)|];
           && l.sub == Subscription(consumerName, queue, handler)
           && l.id == |old(subscriptions)| && l.conn == connection.value
      ensures err != Nil ==> loops == old(loops)
    {
      err := ValidateQueue(queue);
      if err != Nil {
        return;
      }
      if consumerName !in consumers {
        return WrapError(CONSUMER_NOT_FOUND, "consumer: " + consumerName);
      }
      err := SubscribeWithChannel(Subscription(consumerName, queue, handler));
    }

    /** Restarts a loop for every recorded subscription whose consumer is registered. */
    method RestartSubscriptions() returns (err: Error, restarted: nat)
      requires Valid() && connection.Some?
      modifies this`ops, this`channels, this`loops
      ensures Valid() && old(channels) <= channels && old(ops) <= ops && old(loops) <= loops
      ensures err == Nil <==> Up(old(ops), ops)
      ensures err == Nil ==>
        BoundTo(loops, connection.value) ==
          old(BoundTo(loops, connection.value)) + Restartable(subscriptions, consumers.Keys)
      ensures err != Nil ==>
        PartlyRestarted(old(BoundTo(loops, connection.value)), BoundTo(loops, connection.value),
                        subscriptions, consumers.Keys)
      ensures restarted <= |subscriptions| && (err == Nil ==> restarted == |subscriptions|)
      ensures Registered(subscriptions, consumers.Keys) ==> OneMoreEach(old(loops), loops, restarted, connection.value)
    {
      for i := 0 to |subscriptions|
        invariant Valid() && old(channels) <= channels && old(ops) <= ops && old(loops) <= loops && Up(old(ops), ops)
        invariant RestartedTo(old(loops), loops, subscriptions, consumers.Keys, i, connection.value)
      {
        var sub := subscriptions[i];
        if sub.consumerName in consumers {
          ghost var before := loops;
          var e := StartDispatchLoop(sub, i);
          if e != Nil {
            return WrapError(e, "reconnect: failed to restart subscription " + sub.consumerName), i;
          }
          assert loops == before + [loops[|before|]];
          RestartsOne(old(loops), before, subscriptions, consumers.Keys, loops[|before|], connection.value);
        } else {
          SkipsOne(old(loops), loops, subscriptions, consumers.Keys, i, connection.value);
        }
      }
      assert subscriptions[..|subscriptions|] == subscriptions;
      return Nil, |subscriptions|;
    }

    /** Replaces both maps by channels of the current connection. */
    method RebuildChannels() returns (err: Error)
      requires connection.Some?
      modifies this`ops, this`channels, this`producers, this`consumers
      ensures old(channels) <= channels && old(ops) <= ops
      ensures err == Nil <==> Up(old(ops), ops) && NamesOk(producerConfigs, consumerConfigs)
      ensures AllOn(producers, channels, connection.value) && producers.Keys <= EnabledProducerNames(producerConfigs)
      ensures AllOn(consumers, channels, connection.value) && consumers.Keys <= EnabledConsumerNames(consumerConfigs)
      ensures err == Nil ==>
        && producers.Keys == EnabledProducerNames(producerConfigs)
        && consumers.Keys == EnabledConsumerNames(consumerConfigs)
    {
      producers := map[];
      consumers := map[];
      var e := InitializeProducers();
      FromEmpty(producers, EnabledProducerNames(producerConfigs), channels, connection.value);
      if e != Nil {
        return WrapError(e, "reconnect: failed to rebuild producers");
      }
      e := InitializeConsumers();
      FromEmpty(consumers, EnabledConsumerNames(consumerConfigs), channels, connection.value);
      if e != Nil {
        return WrapError(e, "reconnect: failed to rebuild consumers");
      }
      return Nil;
    }

    method RebuildAfterReconnect() returns (err: Error, restarted: nat)
      requires Valid() && connection.Some?
      modifies this`ops, this`channels, this`producers, this`consumers, this`loops
      ensures Valid() && old(channels) <= channels && old(ops) <= ops && old(loops) <= loops
      ensures err == Nil <==> Up(old(ops), ops) && NamesOk(producerConfigs, consumerConfigs)
      ensures AllOn(producers, channels, connection.value) && AllOn(consumers, channels, connection.value)
      ensures err == Nil ==>
        && producers.Keys == EnabledProducerNames(producerConfigs)
        && consumers.Keys == EnabledConsumerNames(consumerConfigs)
        && BoundTo(loops, connection.value) == old(BoundTo(loops, connection.value)) + subscriptions
      ensures err != Nil ==>
        PartlyRestarted(old(BoundTo(loops, connection.value)), BoundTo(loops, connection.value),
                        subscriptions, consumers.Keys)
      ensures restarted <= |subscriptions| && (err == Nil ==> restarted == |subscriptions|)
      ensures OneMoreEach(old(loops), loops, restarted, connection.value)
    {
      restarted := 0;
      NothingRestarted(BoundTo(loops, connection.value), subscriptions);
      err := RebuildChannels();
      if err != Nil {
        return;
      }
      AllRestartable(subscriptions, consumers.Keys);
      err, restarted := RestartSubscriptions();
    }

    /** The reconnect callback.  Whatever earlier rebuilds left behind, on success the maps hold
        exactly the enabled names with open channels of the new connection, and exactly one loop
        per recorded subscription is bound to it.  On failure the loops started so far stay. */
    method Reconnect() returns (result: Option<nat>, restarted: nat)
      requires Valid()
      modifies this`ops, this`connection, this`dialed, this`channels, this`producers, this`consumers, this`loops
      ensures Valid() && old(loops) <= loops && old(ops) < ops
      ensures result.Some? <==> Up(old(ops), ops) && NamesOk(producerConfigs, consumerConfigs)
      ensures result.Some? ==>
        && connection == result && result.value == old(dialed)
        && producers.Keys == EnabledProducerNames(producerConfigs) && AllOn(producers, channels, result.value)
        && consumers.Keys == EnabledConsumerNames(consumerConfigs) && AllOn(consumers, channels, result.value)
        && BoundTo(loops, result.value) == subscriptions
      ensures result.None? && connection != old(connection) ==>
        PartlyRestarted([], BoundTo(loops, old(dialed)), subscriptions, consumers.Keys)
      ensures connection == (if dialed == old(dialed) then old(connection) else Some(old(dialed)))
      ensures dialed == old(dialed) || dialed == old(dialed) + 1
      ensures restarted <= |subscriptions| && (result.Some? ==> restarted == |subscriptions|)
      ensures dialed == old(dialed) + 1 <==> net(old(ops))
      ensures dialed == old(dialed) ==>
        restarted == 0 && loops == old(loops) && consumers == old(consumers) && producers == old(producers)
      ensures OneMoreEach(old(loops), loops, restarted, old(dialed))
    {
      restarted := 0;
      var ok := NetworkOperation();
      if !ok {
        assert !net(old(ops));
        return None, 0;
      }
      var conn := dialed;
      dialed := dialed + 1;
      connection := Some(conn);
      BoundToNone(loops, conn);
      var err;
      err, restarted := RebuildAfterReconnect();
      result := if err == Nil then Some(conn) else None;
    }

    /** The reconnect loop of the watcher: however many attempts failed, and wherever they stopped,
        the first success leaves the same picture. */
    method ReconnectRepeatedly(attempts: nat) returns (result: Option<nat>)
      requires Valid()
      modifies this`ops, this`connection, this`dialed, this`channels, this`producers, this`consumers, this`loops
      ensures Valid() && old(loops) <= loops
      ensures result.Some? ==>
        && connection == result
        && producers.Keys == EnabledProducerNames(producerConfigs) && AllOn(producers, channels, result.value)
        && consumers.Keys == EnabledConsumerNames(consumerConfigs) && AllOn(consumers, channels, result.value)
        && BoundTo(loops, result.value) == subscriptions
    {
      result := None;
      for i := 0 to attempts
        invariant Valid() && old(loops) <= loops && result.None?
      {
        var restarted;
        result, restarted := Reconnect();
        if result.Some? {
          return;
        }
      }
    }
  }
}
