/** Configuration records and their normalisation in place.  The lists hold references that may
    be nil and may repeat, so one record can be visited several times. */
module Config {
  import opened Options
  import opened Backoff

  /** A protobuf duration: possibly absent, otherwise in nanoseconds. */
  type Duration = Option<int>

  const DEFAULT_URL := "amqp://localhost:5672/"
  const DEFAULT_VIRTUAL_HOST := "/"
  const DEFAULT_EXCHANGE := "lynx.exchange"
  const DEFAULT_QUEUE := "lynx.queue"
  const DEFAULT_CONSUMER := "lynx.consumer"
  const DEFAULT_POOL_SIZE := 10
  const DEFAULT_MAX_RETRIES := 3
  const DEFAULT_MAX_CONCURRENCY := 1
  const DEFAULT_PREFETCH_COUNT := 1

  const DIRECT := "direct"
  const FANOUT := "fanout"
  const TOPIC := "topic"
  const HEADERS := "headers"

  predicate KnownExchangeType(t: string) {
    t == DIRECT || t == FANOUT || t == TOPIC || t == HEADERS
  }

  /** The fields of a record. */
  datatype ProducerFields = ProducerFields(
    enabled: bool, exchange: string, exchangeType: string, routingKey: string, maxRetries: int,
    retryBackoff: Duration, publishTimeout: Duration, name: string, durable: bool, autoDelete: bool, persistent: bool)

  datatype ConsumerFields = ConsumerFields(
    enabled: bool, queue: string, exchange: string, routingKey: string, consumerTag: string,
    maxConcurrency: int, prefetchCount: int, name: string, durable: bool, autoDelete: bool, exclusive: bool,
    autoAck: bool)

  datatype CommonFields = CommonFields(
    urls: seq<string>, username: string, password: string, virtualHost: string,
    dialTimeout: Duration, heartbeat: Duration, channelPoolSize: int)

  /** A whole configuration; an entry of a list is absent when the reference is nil. */
  datatype ConfigValue = ConfigValue(
    common: CommonFields, producers: seq<Option<ProducerFields>>, consumers: seq<Option<ConsumerFields>>)

  datatype ConfigError =
    | NilConfig
    | EmptyUrl(index: nat)
    | NilProducer(index: nat)
    | UnnamedProducer(index: nat)
    | BadExchangeType(index: nat, exchangeType: string)
    | NegativeRetries(index: nat)
    | NilConsumer(index: nat)
    | UnnamedConsumer(index: nat)

  // ---------------------------------------------------------------- specification on values

  predicate Unset(d: Duration) { d.None? || d.value <= 0 }

  function FillDuration(d: Duration, default: int): Duration { if Unset(d) then Some(default) else d }

  function FillString(s: string, default: string): string { if s == "" then default else s }

  function FillPositive(n: int, default: int): int { if n <= 0 then default else n }

  function NormalProducer(p: ProducerFields): ProducerFields {
    p.(exchange := FillString(p.exchange, DEFAULT_EXCHANGE),
       exchangeType := FillString(p.exchangeType, DIRECT),
       publishTimeout := FillDuration(p.publishTimeout, 3 * SECOND),
       maxRetries := if p.maxRetries == 0 then DEFAULT_MAX_RETRIES else p.maxRetries,
       retryBackoff := FillDuration(p.retryBackoff, 100 * MILLISECOND))
  }

  function NormalConsumer(c: ConsumerFields): ConsumerFields {
    c.(queue := FillString(c.queue, DEFAULT_QUEUE),
       consumerTag := FillString(c.consumerTag, DEFAULT_CONSUMER),
       maxConcurrency := FillPositive(c.maxConcurrency, DEFAULT_MAX_CONCURRENCY),
       prefetchCount := FillPositive(c.prefetchCount, DEFAULT_PREFETCH_COUNT))
  }

  function NormalProducers(ps: seq<Option<ProducerFields>>): seq<Option<ProducerFields>> {
    seq(|ps|, i requires 0 <= i < |ps| => if ps[i].None? then None else Some(NormalProducer(ps[i].value)))
  }

  function NormalConsumers(cs: seq<Option<ConsumerFields>>): seq<Option<ConsumerFields>> {
    seq(|cs|, i requires 0 <= i < |cs| => if cs[i].None? then None else Some(NormalConsumer(cs[i].value)))
  }

  function NormalUrls(urls: seq<string>): seq<string> { if urls == [] then [DEFAULT_URL] else urls }

  function NormalCommon(c: CommonFields): CommonFields {
    c.(urls := NormalUrls(c.urls),
       virtualHost := FillString(c.virtualHost, DEFAULT_VIRTUAL_HOST),
       dialTimeout := FillDuration(c.dialTimeout, 3 * SECOND),
       heartbeat := FillDuration(c.heartbeat, 30 * SECOND),
       channelPoolSize := FillPositive(c.channelPoolSize, DEFAULT_POOL_SIZE))
  }

  function Normal(v: ConfigValue): ConfigValue {
    ConfigValue(NormalCommon(v.common), NormalProducers(v.producers), NormalConsumers(v.consumers))
  }

  function ProducerError(p: Option<ProducerFields>, i: nat): Option<ConfigError> {
    if p.None? then Some(NilProducer(i))
    else if p.value.enabled && p.value.name == "" then Some(UnnamedProducer(i))
    else if p.value.exchangeType != "" && !KnownExchangeType(p.value.exchangeType) then
      Some(BadExchangeType(i, p.value.exchangeType))
    else if p.value.maxRetries < 0 then Some(NegativeRetries(i))
    else None
  }

  function ConsumerError(c: Option<ConsumerFields>, i: nat): Option<ConfigError> {
    if c.None? then Some(NilConsumer(i))
    else if c.value.enabled && c.value.name == "" then Some(UnnamedConsumer(i))
    else None
  }

  /** The first offending entry at index i or later. */
  function ProducersError(ps: seq<Option<ProducerFields>>, i: nat): Option<ConfigError>
    requires i <= |ps|
    decreases |ps| - i
  {
    if i == |ps| then None
    else if ProducerError(ps[i], i).Some? then ProducerError(ps[i], i)
    else ProducersError(ps, i + 1)
  }

  function ConsumersError(cs: seq<Option<ConsumerFields>>, i: nat): Option<ConfigError>
    requires i <= |cs|
    decreases |cs| - i
  {
    if i == |cs| then None
    else if ConsumerError(cs[i], i).Some? then ConsumerError(cs[i], i)
    else ConsumersError(cs, i + 1)
  }

  function UrlsError(urls: seq<string>, i: nat): Option<ConfigError>
    requires i <= |urls|
    decreases |urls| - i
  {
    if i == |urls| then None else if urls[i] == "" then Some(EmptyUrl(i)) else UrlsError(urls, i + 1)
  }

  /** The error of the whole configuration: the first offence in the order URLs, producers,
      consumers. */
  function Check(v: ConfigValue): Option<ConfigError> {
    if UrlsError(v.common.urls, 0).Some? then UrlsError(v.common.urls, 0)
    else if ProducersError(v.producers, 0).Some? then ProducersError(v.producers, 0)
    else ConsumersError(v.consumers, 0)
  }

  // ---------------------------------------------------------------- the defaults

  /** Every common field that is absent, empty or not positive gets its default, and no other changes:
      one local URL, the root virtual host, 3s to dial, 30s between heartbeats, ten channels. */
  lemma CommonDefaults(c: CommonFields)
    ensures var n := NormalCommon(c);
      && n.username == c.username && n.password == c.password
      && n.urls == (if c.urls == [] then ["amqp://localhost:5672/"] else c.urls)
      && n.virtualHost == (if c.virtualHost == "" then "/" else c.virtualHost)
      && n.dialTimeout ==
           (if c.dialTimeout.Some? && c.dialTimeout.value > 0 then c.dialTimeout else Some(3_000_000_000))
      && n.heartbeat == (if c.heartbeat.Some? && c.heartbeat.value > 0 then c.heartbeat else Some(30_000_000_000))
      && n.channelPoolSize == (if c.channelPoolSize > 0 then c.channelPoolSize else 10)
  {
  }

  /** The same for a producer: the default exchange of type direct, 3s to publish, three retries, 100ms
      of back-off. */
  lemma ProducerDefaults(p: ProducerFields)
    ensures var n := NormalProducer(p);
      && n.enabled == p.enabled && n.routingKey == p.routingKey && n.name == p.name
      && n.durable == p.durable && n.autoDelete == p.autoDelete && n.persistent == p.persistent
      && n.exchange == (if p.exchange == "" then "lynx.exchange" else p.exchange)
      && n.exchangeType == (if p.exchangeType == "" then "direct" else p.exchangeType)
      && n.publishTimeout ==
           (if p.publishTimeout.Some? && p.publishTimeout.value > 0 then p.publishTimeout else Some(3_000_000_000))
      && n.maxRetries == (if p.maxRetries == 0 then 3 else p.maxRetries)
      && n.retryBackoff ==
           (if p.retryBackoff.Some? && p.retryBackoff.value > 0 then p.retryBackoff else Some(100_000_000))
  {
  }

  /** And for a consumer: the default queue and tag, one message at a time. */
  lemma ConsumerDefaults(c: ConsumerFields)
    ensures var n := NormalConsumer(c);
      && n.enabled == c.enabled && n.exchange == c.exchange && n.routingKey == c.routingKey && n.name == c.name
      && n.durable == c.durable && n.autoDelete == c.autoDelete && n.exclusive == c.exclusive && n.autoAck == c.autoAck
      && n.queue == (if c.queue == "" then "lynx.queue" else c.queue)
      && n.consumerTag == (if c.consumerTag == "" then "lynx.consumer" else c.consumerTag)
      && n.maxConcurrency == (if c.maxConcurrency > 0 then c.maxConcurrency else 1)
      && n.prefetchCount == (if c.prefetchCount > 0 then c.prefetchCount else 1)
  {
  }

  /** A configuration is normalised field by field and entry by entry, enabled or not; nil stays nil. */
  lemma NormalEntries(v: ConfigValue)
    ensures Normal(v).common == NormalCommon(v.common)
    ensures |Normal(v).producers| == |v.producers| && |Normal(v).consumers| == |v.consumers|
    ensures forall i :: 0 <= i < |v.producers| ==>
      if v.producers[i].None? then Normal(v).producers[i].None?
      else Normal(v).producers[i] == Some(NormalProducer(v.producers[i].value))
    ensures forall i :: 0 <= i < |v.consumers| ==>
      if v.consumers[i].None? then Normal(v).consumers[i].None?
      else Normal(v).consumers[i] == Some(NormalConsumer(v.consumers[i].value))
  {
  }

  // ---------------------------------------------------------------- the first offence

  predicate BadType(p: ProducerFields) {
    p.exchangeType !in {"", "direct", "fanout", "topic", "headers"}
  }

  /** What is wrong with a producer entry, the first of four offences: nil, enabled without a name, an
      unknown exchange type, negative retries. */
  lemma ProducerOffence(p: Option<ProducerFields>, i: nat)
    ensures ProducerError(p, i) == Some(NilProducer(i)) <==> p.None?
    ensures ProducerError(p, i) == Some(UnnamedProducer(i)) <==> p.Some? && p.value.enabled && p.value.name == ""
    ensures p.Some? && !(p.value.enabled && p.value.name == "") ==>
      && (BadType(p.value) <==> ProducerError(p, i) == Some(BadExchangeType(i, p.value.exchangeType)))
      && (!BadType(p.value) && p.value.maxRetries < 0 <==> ProducerError(p, i) == Some(NegativeRetries(i)))
      && (!BadType(p.value) && p.value.maxRetries >= 0 <==> ProducerError(p, i).None?)
  {
  }

  lemma ConsumerOffence(c: Option<ConsumerFields>, i: nat)
    ensures ConsumerError(c, i) == Some(NilConsumer(i)) <==> c.None?
    ensures ConsumerError(c, i) == Some(UnnamedConsumer(i)) <==> c.Some? && c.value.enabled && c.value.name == ""
    ensures ConsumerError(c, i).None? <==> c.Some? && (c.value.enabled ==> c.value.name != "")
  {
  }

  /** The configuration is refused for its first empty URL; without one, for its first offending
      producer; without that too, for its first offending consumer; and accepted otherwise. */
  lemma FirstOffence(v: ConfigValue)
    ensures
      || (exists i: nat :: FirstUrl(v, i) && Check(v) == Some(EmptyUrl(i)))
      || (NoEmptyUrl(v) && exists i: nat :: FirstProducer(v, i) && Check(v) == ProducerError(v.producers[i], i))
      || (NoEmptyUrl(v) && NoBadProducer(v) &&
            exists i: nat :: FirstConsumer(v, i) && Check(v) == ConsumerError(v.consumers[i], i))
      || (NoEmptyUrl(v) && NoBadProducer(v) && NoBadConsumer(v) && Check(v) == None)
  {
    var u := FindUrl(v.common.urls, 0);
    if u == |v.common.urls| {
      var p := FindProducer(v.producers, 0);
      if p == |v.producers| {
        var c := FindConsumer(v.consumers, 0);
        assert c < |v.consumers| ==> FirstConsumer(v, c);
      } else {
        assert FirstProducer(v, p);
      }
    } else {
      assert FirstUrl(v, u);
    }
  }

  ghost predicate NoEmptyUrl(v: ConfigValue) { forall j: nat :: j < |v.common.urls| ==> v.common.urls[j] != "" }

  ghost predicate FirstUrl(v: ConfigValue, i: nat) {
    i < |v.common.urls| && v.common.urls[i] == "" && forall j: nat :: j < i ==> v.common.urls[j] != ""
  }

  ghost predicate NoBadProducer(v: ConfigValue) {
    forall j: nat :: j < |v.producers| ==> ProducerError(v.producers[j], j).None?
  }

  ghost predicate FirstProducer(v: ConfigValue, i: nat) {
    && i < |v.producers| && ProducerError(v.producers[i], i).Some?
    && forall j: nat :: j < i ==> ProducerError(v.producers[j], j).None?
  }

  ghost predicate NoBadConsumer(v: ConfigValue) {
    forall j: nat :: j < |v.consumers| ==> ConsumerError(v.consumers[j], j).None?
  }

  ghost predicate FirstConsumer(v: ConfigValue, i: nat) {
    && i < |v.consumers| && ConsumerError(v.consumers[i], i).Some?
    && forall j: nat :: j < i ==> ConsumerError(v.consumers[j], j).None?
  }

  lemma {:induction false} FindUrl(urls: seq<string>, from: nat) returns (i: nat)
    requires from <= |urls|
    ensures from <= i <= |urls| && forall j: nat :: from <= j < i ==> urls[j] != ""
    ensures UrlsError(urls, from) == if i < |urls| then Some(EmptyUrl(i)) else None
    ensures i < |urls| ==> urls[i] == ""
    decreases |urls| - from
  {
    if from == |urls| || urls[from] == "" {
      i := from;
    } else {
      i := FindUrl(urls, from + 1);
    }
  }

  lemma {:induction false} FindProducer(ps: seq<Option<ProducerFields>>, from: nat) returns (i: nat)
    requires from <= |ps|
    ensures from <= i <= |ps| && forall j: nat :: from <= j < i ==> ProducerError(ps[j], j).None?
    ensures ProducersError(ps, from) == if i < |ps| then ProducerError(ps[i], i) else None
    ensures i < |ps| ==> ProducerError(ps[i], i).Some?
    decreases |ps| - from
  {
    if from == |ps| || ProducerError(ps[from], from).Some? {
      i := from;
    } else {
      i := FindProducer(ps, from + 1);
    }
  }

  lemma {:induction false} FindConsumer(cs: seq<Option<ConsumerFields>>, from: nat) returns (i: nat)
    requires from <= |cs|
    ensures from <= i <= |cs| && forall j: nat :: from <= j < i ==> ConsumerError(cs[j], j).None?
    ensures ConsumersError(cs, from) == if i < |cs| then ConsumerError(cs[i], i) else None
    ensures i < |cs| ==> ConsumerError(cs[i], i).Some?
    decreases |cs| - from
  {
    if from == |cs| || ConsumerError(cs[from], from).Some? {
      i := from;
    } else {
      i := FindConsumer(cs, from + 1);
    }
  }

  // ---------------------------------------------------------------- properties

  predicate AcceptableProducer(p: Option<ProducerFields>) {
    && p.Some?
    && (p.value.enabled ==> p.value.name != "")
    && (p.value.exchangeType == "" || KnownExchangeType(p.value.exchangeType))
    && p.value.maxRetries >= 0
  }

  predicate AcceptableConsumer(c: Option<ConsumerFields>) {
    c.Some? && (c.value.enabled ==> c.value.name != "")
  }

  /** The input conditions for success. */
  predicate Acceptable(v: ConfigValue) {
    && (forall i :: 0 <= i < |v.common.urls| ==> v.common.urls[i] != "")
    && (forall i :: 0 <= i < |v.producers| ==> AcceptableProducer(v.producers[i]))
    && (forall i :: 0 <= i < |v.consumers| ==> AcceptableConsumer(v.consumers[i]))
  }

  lemma {:induction false} UrlsErrorIff(urls: seq<string>, i: nat)
    requires i <= |urls|
    ensures UrlsError(urls, i).None? <==> forall j :: i <= j < |urls| ==> urls[j] != ""
    decreases |urls| - i
  {
    if i < |urls| {
      UrlsErrorIff(urls, i + 1);
    }
  }

  lemma {:induction false} ProducersErrorIff(ps: seq<Option<ProducerFields>>, i: nat)
    requires i <= |ps|
    ensures ProducersError(ps, i).None? <==> forall j :: i <= j < |ps| ==> AcceptableProducer(ps[j])
    decreases |ps| - i
  {
    if i < |ps| {
      ProducersErrorIff(ps, i + 1);
    }
  }

  lemma {:induction false} ConsumersErrorIff(cs: seq<Option<ConsumerFields>>, i: nat)
    requires i <= |cs|
    ensures ConsumersError(cs, i).None? <==> forall j :: i <= j < |cs| ==> AcceptableConsumer(cs[j])
    decreases |cs| - i
  {
    if i < |cs| {
      ConsumersErrorIff(cs, i + 1);
    }
  }

  /** Normalisation succeeds exactly on the acceptable configurations. */
  lemma SucceedsIff(v: ConfigValue)
    ensures Check(v).None? <==> Acceptable(v)
  {
    UrlsErrorIff(v.common.urls, 0);
    ProducersErrorIff(v.producers, 0);
    ConsumersErrorIff(v.consumers, 0);
  }

  /** A second call succeeds and changes nothing. */
  lemma FixedPoint(v: ConfigValue)
    requires Check(v).None?
    ensures Check(Normal(v)).None?
    ensures Normal(Normal(v)) == Normal(v)
  {
    SucceedsIff(v);
    SucceedsIff(Normal(v));
    assert NormalProducers(NormalProducers(v.producers)) == NormalProducers(v.producers);
    assert NormalConsumers(NormalConsumers(v.consumers)) == NormalConsumers(v.consumers);
  }

  predicate KeepsOrFills<T(==)>(before: T, after: T, absent: bool) { after == before || absent }

  /** Each field is as before, or was absent or out of range. */
  predicate ProducerFilled(p: ProducerFields, q: ProducerFields) {
    && q == p.(exchange := q.exchange, exchangeType := q.exchangeType, publishTimeout := q.publishTimeout,
               maxRetries := q.maxRetries, retryBackoff := q.retryBackoff)
    && KeepsOrFills(p.exchange, q.exchange, p.exchange == "")
    && KeepsOrFills(p.exchangeType, q.exchangeType, p.exchangeType == "")
    && KeepsOrFills(p.publishTimeout, q.publishTimeout, Unset(p.publishTimeout))
    && KeepsOrFills(p.maxRetries, q.maxRetries, p.maxRetries == 0)
    && KeepsOrFills(p.retryBackoff, q.retryBackoff, Unset(p.retryBackoff))
  }

  predicate ConsumerFilled(c: ConsumerFields, d: ConsumerFields) {
    && d == c.(queue := d.queue, consumerTag := d.consumerTag, maxConcurrency := d.maxConcurrency,
               prefetchCount := d.prefetchCount)
    && KeepsOrFills(c.queue, d.queue, c.queue == "")
    && KeepsOrFills(c.consumerTag, d.consumerTag, c.consumerTag == "")
    && KeepsOrFills(c.maxConcurrency, d.maxConcurrency, c.maxConcurrency <= 0)
    && KeepsOrFills(c.prefetchCount, d.prefetchCount, c.prefetchCount <= 0)
  }

  predicate CommonFilled(c: CommonFields, d: CommonFields) {
    && d == c.(urls := d.urls, virtualHost := d.virtualHost, dialTimeout := d.dialTimeout,
               heartbeat := d.heartbeat, channelPoolSize := d.channelPoolSize)
    && KeepsOrFills(c.urls, d.urls, c.urls == [])
    && KeepsOrFills(c.virtualHost, d.virtualHost, c.virtualHost == "")
    && KeepsOrFills(c.dialTimeout, d.dialTimeout, Unset(c.dialTimeout))
    && KeepsOrFills(c.heartbeat, d.heartbeat, Unset(c.heartbeat))
    && KeepsOrFills(c.channelPoolSize, d.channelPoolSize, c.channelPoolSize <= 0)
  }

  /** One record: normalising it again changes nothing, and neither does the verdict. */
  lemma ProducerFacts(p: ProducerFields, i: nat)
    ensures ProducerFilled(p, NormalProducer(p))
    ensures NormalProducer(NormalProducer(p)) == NormalProducer(p)
    ensures ProducerError(Some(p), i).None? <==> AcceptableProducer(Some(p))
    ensures ProducerError(Some(NormalProducer(p)), i).None? <==> ProducerError(Some(p), i).None?
    ensures KnownExchangeType(FillString(p.exchangeType, DIRECT)) <==>
              p.exchangeType == "" || KnownExchangeType(p.exchangeType)
  {
  }

  lemma ConsumerFacts(c: ConsumerFields, i: nat)
    ensures ConsumerFilled(c, NormalConsumer(c))
    ensures NormalConsumer(NormalConsumer(c)) == NormalConsumer(c)
    ensures ConsumerError(Some(c), i).None? <==> AcceptableConsumer(Some(c))
    ensures ConsumerError(Some(NormalConsumer(c)), i).None? <==> ConsumerError(Some(c), i).None?
  {
  }

  /** What later code relies on: createProducer's type check passes, DoWithRetry sees at least one
      retry and a positive back-off, names and limits are usable. */
  lemma Sufficient(v: ConfigValue, i: nat)
    requires Check(v).None?
    ensures Normal(v).common.urls != [] && Normal(v).common.virtualHost != ""
    ensures i < |v.producers| ==>
      var p := Normal(v).producers[i];
      && p.Some? && p.value.exchange != "" && KnownExchangeType(p.value.exchangeType)
      && p.value.maxRetries >= 1 && p.value.retryBackoff.Some? && p.value.retryBackoff.value > 0
      && (p.value.enabled ==> p.value.name != "")
    ensures i < |v.consumers| ==>
      var c := Normal(v).consumers[i];
      c.Some? && c.value.queue != "" && c.value.prefetchCount >= 1 && (c.value.enabled ==> c.value.name != "")
  {
    SucceedsIff(v);
  }

  /** What a visit makes of a record. */
  ghost predicate VisitedProducer(before: ProducerFields, after: ProducerFields) {
    AcceptableProducer(Some(before)) && after == NormalProducer(before) && ProducerFilled(before, after)
  }

  ghost predicate VisitedConsumer(before: ConsumerFields, after: ConsumerFields) {
    AcceptableConsumer(Some(before)) && after == NormalConsumer(before) && ConsumerFilled(before, after)
  }

  // ---------------------------------------------------------------- records

  class Producer {
    var fields: ProducerFields

    /** The body of the producer loop for one record.  On an error the fields before the offending
        one may already be filled. */
    method Normalize(i: nat) returns (err: Option<ConfigError>)
      modifies this
      ensures err == ProducerError(Some(old(fields)), i)
      ensures err.None? ==> fields == NormalProducer(old(fields))
      ensures ProducerFilled(old(fields), fields)
    {
      ProducerFacts(fields, i);
      if fields.enabled && fields.name == "" {
        return Some(UnnamedProducer(i));
      }
      FillExchange();
      if !KnownExchangeType(fields.exchangeType) {
        return Some(BadExchangeType(i, fields.exchangeType));
      }
      err := FillLimits(i);
    }

    method FillExchange()
      modifies this
      ensures fields == old(fields).(exchange := FillString(old(fields).exchange, DEFAULT_EXCHANGE),
                                     exchangeType := FillString(old(fields).exchangeType, DIRECT))
    {
      if fields.exchange == "" {
        fields := fields.(exchange := DEFAULT_EXCHANGE);
      }
      if fields.exchangeType == "" {
        fields := fields.(exchangeType := DIRECT);
      }
    }

    method FillLimits(i: nat) returns (err: Option<ConfigError>)
      modifies this
      ensures err == if old(fields).maxRetries < 0 then Some(NegativeRetries(i)) else None
      ensures var p := old(fields).(publishTimeout := FillDuration(old(fields).publishTimeout, 3 * SECOND));
        fields ==
        if err.Some? then p
        else p.(maxRetries := if p.maxRetries == 0 then DEFAULT_MAX_RETRIES else p.maxRetries,
                retryBackoff := FillDuration(p.retryBackoff, 100 * MILLISECOND))
    {
      if Unset(fields.publishTimeout) {
        fields := fields.(publishTimeout := Some(3 * SECOND));
      }
      if fields.maxRetries < 0 {
        return Some(NegativeRetries(i));
      }
      if fields.maxRetries == 0 {
        fields := fields.(maxRetries := DEFAULT_MAX_RETRIES);
      }
      if Unset(fields.retryBackoff) {
        fields := fields.(retryBackoff := Some(100 * MILLISECOND));
      }
      return None;
    }

    /** A visit during a pass over the list: the record is as it was before the pass, or was
        normalised by an earlier visit. */
    method Visit(i: nat, ghost before: ProducerFields, ghost again: bool) returns (err: Option<ConfigError>)
      requires if again then VisitedProducer(before, fields) else fields == before
      modifies this
      ensures err == ProducerError(Some(before), i)
      ensures err.None? ==> VisitedProducer(before, fields)
      ensures ProducerFilled(before, fields)
    {
      ProducerFacts(before, i);
      err := Normalize(i);
    }
  }

  class Consumer {
    var fields: ConsumerFields

    method Normalize(i: nat) returns (err: Option<ConfigError>)
      modifies this
      ensures err == ConsumerError(Some(old(fields)), i)
      ensures err.None? ==> fields == NormalConsumer(old(fields))
      ensures ConsumerFilled(old(fields), fields)
    {
      if fields.enabled && fields.name == "" {
        return Some(UnnamedConsumer(i));
      }
      FillNames();
      FillLimits();
      return None;
    }

    method FillNames()
      modifies this
      ensures fields == old(fields).(queue := FillString(old(fields).queue, DEFAULT_QUEUE),
                                     consumerTag := FillString(old(fields).consumerTag, DEFAULT_CONSUMER))
    {
      if fields.queue == "" {
        fields := fields.(queue := DEFAULT_QUEUE);
      }
      if fields.consumerTag == "" {
        fields := fields.(consumerTag := DEFAULT_CONSUMER);
      }
    }

    method FillLimits()
      modifies this
      ensures fields == old(fields).(
        maxConcurrency := FillPositive(old(fields).maxConcurrency, DEFAULT_MAX_CONCURRENCY),
        prefetchCount := FillPositive(old(fields).prefetchCount, DEFAULT_PREFETCH_COUNT))
    {
      if fields.maxConcurrency <= 0 {
        fields := fields.(maxConcurrency := DEFAULT_MAX_CONCURRENCY);
      }
      if fields.prefetchCount <= 0 {
        fields := fields.(prefetchCount := DEFAULT_PREFETCH_COUNT);
      }
    }

    /** A visit during a pass over the list: the record is as it was before the pass, or was
        normalised by an earlier visit. */
    method Visit(i: nat, ghost before: ConsumerFields, ghost again: bool) returns (err: Option<ConfigError>)
      requires if again then VisitedConsumer(before, fields) else fields == before
      modifies this
      ensures err == ConsumerError(Some(before), i)
      ensures err.None? ==> VisitedConsumer(before, fields)
      ensures ConsumerFilled(before, fields)
    {
      ConsumerFacts(before, i);
      err := Normalize(i);
    }
  }

  /** The list of references shows these fields. */
  ghost predicate ShowProducers(ps: seq<Producer?>, vs: seq<Option<ProducerFields>>)
    reads set p | p in ps
  {
    |vs| == |ps| && forall i: nat :: i < |ps| ==> vs[i] == if ps[i] == null then None else Some(ps[i].fields)
  }

  ghost predicate ShowConsumers(cs: seq<Consumer?>, vs: seq<Option<ConsumerFields>>)
    reads set c | c in cs
  {
    |vs| == |cs| && forall i: nat :: i < |cs| ==> vs[i] == if cs[i] == null then None else Some(cs[i].fields)
  }

  // ---------------------------------------------------------------- lists of records

  /** Normalises the records in list order.  A record met again has been normalised already. */
  method NormalizeProducers(ps: seq<Producer?>, ghost vs: seq<Option<ProducerFields>>)
    returns (err: Option<ConfigError>)
    requires ShowProducers(ps, vs)
    modifies set p | p in ps
    ensures err == ProducersError(vs, 0)
    ensures err.None? ==> ShowProducers(ps, NormalProducers(vs))
    ensures forall p :: p in ps && p != null ==> ProducerFilled(old(p.fields), p.fields)
  {
    ghost var done: set<Producer> := {};
    for i := 0 to |ps|
      invariant ProducersError(vs, 0) == ProducersError(vs, i)
      invariant forall j :: 0 <= j < i ==> ps[j] != null && ps[j] in done
      invariant forall p :: p in done ==> p in ps && VisitedProducer(old(p.fields), p.fields)
      invariant forall p :: p in ps && p != null && p !in done ==> p.fields == old(p.fields)
    {
      var p := ps[i];
      if p == null {
        return Some(NilProducer(i));
      }
      err := p.Visit(i, old(p.fields), p in done);
      if err.Some? {
        return;
      }
      done := done + {p};
    }
    err := None;
  }

  method NormalizeConsumers(cs: seq<Consumer?>, ghost vs: seq<Option<ConsumerFields>>)
    returns (err: Option<ConfigError>)
    requires ShowConsumers(cs, vs)
    modifies set c | c in cs
    ensures err == ConsumersError(vs, 0)
    ensures err.None? ==> ShowConsumers(cs, NormalConsumers(vs))
    ensures forall c :: c in cs && c != null ==> ConsumerFilled(old(c.fields), c.fields)
  {
    ghost var done: set<Consumer> := {};
    for i := 0 to |cs|
      invariant ConsumersError(vs, 0) == ConsumersError(vs, i)
      invariant forall j :: 0 <= j < i ==> cs[j] != null && cs[j] in done
      invariant forall c :: c in done ==> c in cs && VisitedConsumer(old(c.fields), c.fields)
      invariant forall c :: c in cs && c != null && c !in done ==> c.fields == old(c.fields)
    {
      var c := cs[i];
      if c == null {
        return Some(NilConsumer(i));
      }
      err := c.Visit(i, old(c.fields), c in done);
      if err.Some? {
        return;
      }
      done := done + {c};
    }
    err := None;
  }

  // ---------------------------------------------------------------- the configuration

  class RabbitMQ {
    var common: CommonFields
    var producers: seq<Producer?>
    var consumers: seq<Consumer?>

    ghost predicate Shows(v: ConfigValue)
      reads this, set p | p in producers, set c | c in consumers
    {
      common == v.common && ShowProducers(producers, v.producers) && ShowConsumers(consumers, v.consumers)
    }

    /** Normalisation of a configuration that is not nil; v are its values at the call. */
    method Normalize(ghost v: ConfigValue) returns (err: Option<ConfigError>)
      requires Shows(v)
      modifies this`common, set p | p in producers, set c | c in consumers
      ensures err == Check(v)
      ensures err.None? ==> Shows(Normal(v))
      ensures CommonFilled(v.common, common)
      ensures forall p :: p in producers && p != null ==> ProducerFilled(old(p.fields), p.fields)
      ensures forall c :: c in consumers && c != null ==> ConsumerFilled(old(c.fields), c.fields)
    {
      err := CheckUrls();
      if err.Some? {
        return;
      }
      FillCommon();
      err := NormalizeProducers(producers, v.producers);
      if err.Some? {
        return;
      }
      err := NormalizeConsumers(consumers, v.consumers);
    }

    method CheckUrls() returns (err: Option<ConfigError>)
      modifies this`common
      ensures common == old(common).(urls := NormalUrls(old(common).urls))
      ensures err == UrlsError(old(common).urls, 0)
    {
      if common.urls == [] {
        common := common.(urls := [DEFAULT_URL]);
        return None;
      }
      for i := 0 to |common.urls|
        invariant UrlsError(common.urls, 0) == UrlsError(common.urls, i)
      {
        if common.urls[i] == "" {
          return Some(EmptyUrl(i));
        }
      }
      return None;
    }

    method FillCommon()
      modifies this`common
      ensures common == NormalCommon(old(common)).(urls := old(common).urls)
    {
      if common.virtualHost == "" {
        common := common.(virtualHost := DEFAULT_VIRTUAL_HOST);
      }
      if Unset(common.dialTimeout) {
        common := common.(dialTimeout := Some(3 * SECOND));
      }
      if Unset(common.heartbeat) {
        common := common.(heartbeat := Some(30 * SECOND));
      }
      if common.channelPoolSize <= 0 {
        common := common.(channelPoolSize := DEFAULT_POOL_SIZE);
      }
    }
  }

  /** normalizeRabbitMQConfig: a nil configuration is an error of its own. */
  method NormalizeConfig(cfg: RabbitMQ?, ghost v: ConfigValue) returns (err: Option<ConfigError>)
    requires cfg != null ==> cfg.Shows(v)
    modifies if cfg == null then {} else {cfg},
             if cfg == null then {} else (set p | p in cfg.producers),
             if cfg == null then {} else (set c | c in cfg.consumers)
    ensures err == if cfg == null then Some(NilConfig) else Check(v)
    ensures err.None? ==> cfg.Shows(Normal(v))
    ensures cfg != null ==>
      && cfg.producers == old(cfg.producers) && cfg.consumers == old(cfg.consumers)
      && CommonFilled(v.common, cfg.common)
      && (forall p :: p in cfg.producers && p != null ==> ProducerFilled(old(p.fields), p.fields))
      && (forall c :: c in cfg.consumers && c != null ==> ConsumerFilled(old(c.fields), c.fields))
  {
    if cfg == null {
      return Some(NilConfig);
    }
    err := cfg.Normalize(v);
  }

  /** Calling it again on its own result reports no error and leaves every field as it is. */
  method NormalizeTwice(cfg: RabbitMQ, ghost v: ConfigValue)
    returns (first: Option<ConfigError>, second: Option<ConfigError>)
    requires cfg.Shows(v)
    modifies cfg, set p | p in cfg.producers, set c | c in cfg.consumers
    ensures first == Check(v)
    ensures first.None? ==> second.None? && cfg.Shows(Normal(v))
  {
    first := cfg.Normalize(v);
    second := first;
    if first.None? {
      FixedPoint(v);
      second := cfg.Normalize(Normal(v));
    }
  }
}
