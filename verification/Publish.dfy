/** Publishing and its accounting. */
module Publish {
  import opened Errors
  import opened Options
  import opened Names
  import opened Sums

  /** One publish call.  PublishMessage uses whichever registered producer the map iteration
      yields first; PublishMessageWith names one.  `accepted` is the channel's answer. */
  datatype Request = Request(
    named: bool, producer: string, exchange: string, routingKey: string, body: seq<bv8>, accepted: bool)

  datatype Message = Message(channel: nat, exchange: string, routingKey: string, body: seq<bv8>)

  /** The producer map (a channel may be nil), the two counters, and what reached a channel. */
  datatype State = State(producers: map<string, Option<nat>>, sent: nat, failed: nat, handed: seq<Message>)

  /** The lookup and the checks before the network; Nil when they pass. */
  function Refusal(s: State, r: Request): Error {
    if !r.named && s.producers == map[] then PRODUCER_NOT_READY
    else if r.producer !in s.producers then WrapError(PRODUCER_NOT_FOUND, "producer: " + r.producer)
    else if s.producers[r.producer].None? then
      if r.named then WrapError(PRODUCER_NOT_READY, "producer: " + r.producer) else PRODUCER_NOT_READY
    else if r.exchange != "" && ValidateExchange(r.exchange) != Nil then ValidateExchange(r.exchange)
    else if r.body == [] then EMPTY_MESSAGE
    else Nil
  }

  function Result(s: State, r: Request): Error {
    if Refusal(s, r) != Nil then Refusal(s, r)
    else if r.accepted then Nil
    else WrapError(PUBLISH_FAILED, "publish")
  }

  function Next(s: State, r: Request): State {
    if Refusal(s, r) != Nil then s
    else
      var s' := s.(handed := s.handed + [Message(s.producers[r.producer].value, r.exchange, r.routingKey, r.body)]);
      if r.accepted then s'.(sent := s.sent + 1) else s'.(failed := s.failed + 1)
  }

  function After(s: State, rs: seq<Request>): State {
    if rs == [] then s else Next(After(s, rs[..|rs| - 1]), rs[|rs| - 1])
  }

  function Results(s: State, rs: seq<Request>): seq<Error> {
    if rs == [] then []
    else var n := |rs| - 1; Results(s, rs[..n]) + [Result(After(s, rs[..n]), rs[n])]
  }

  function IsSent(e: Error): nat { if e == Nil then 1 else 0 }
  function IsFailed(e: Error): nat { if Is(e, PUBLISH_FAILED) then 1 else 0 }

  /** A refusal is never taken for a failed publish. */
  lemma RefusalIsNotFailure(s: State, r: Request)
    ensures !Is(Refusal(s, r), PUBLISH_FAILED)
  {
    assert forall e, ctx :: Is(WrapError(e, ctx), PUBLISH_FAILED) <==> Is(e, PUBLISH_FAILED);
    assert PRODUCER_NOT_READY.name[2] != PUBLISH_FAILED.name[2];
    assert PRODUCER_NOT_FOUND.name[2] != PUBLISH_FAILED.name[2];
    assert EMPTY_MESSAGE.name[2] != PUBLISH_FAILED.name[2];
  }

  /** The request reaches the network: its producer is there with a channel, its exchange is empty or
      usable, and it has a body. */
  predicate Reaches(producers: map<string, Option<nat>>, r: Request) {
    && r.producer in producers && producers[r.producer].Some?
    && (r.exchange == "" || UsableName(r.exchange)) && r.body != []
  }

  /** Every refusal has its condition and its error. */
  lemma RefusalExactly(s: State, r: Request)
    ensures Refusal(s, r) == Nil <==> Reaches(s.producers, r)
    ensures !r.named && s.producers == map[] ==> Refusal(s, r) == PRODUCER_NOT_READY
    ensures r.named && r.producer !in s.producers ==> Is(Refusal(s, r), PRODUCER_NOT_FOUND)
    ensures r.producer in s.producers && s.producers[r.producer].None? ==> Is(Refusal(s, r), PRODUCER_NOT_READY)
    ensures r.producer in s.producers && s.producers[r.producer].Some? ==>
      && (r.exchange != "" && !UsableName(r.exchange) ==> Is(Refusal(s, r), INVALID_EXCHANGE))
      && ((r.exchange == "" || UsableName(r.exchange)) && r.body == [] ==> Refusal(s, r) == EMPTY_MESSAGE)
  {
  }

  /** A request that reaches the network hands exactly its exchange, routing key and body, in these roles,
      to the channel of its producer, and returns nil if the channel accepted it, else a publish
      failure; any other hands over nothing. */
  lemma HandsOver(s: State, r: Request)
    ensures Next(s, r).handed ==
      if Reaches(s.producers, r)
      then s.handed + [Message(channel := s.producers[r.producer].value, exchange := r.exchange,
                               routingKey := r.routingKey, body := r.body)]
      else s.handed
    ensures Result(s, r) == Nil <==> Reaches(s.producers, r) && r.accepted
    ensures Is(Result(s, r), PUBLISH_FAILED) <==> Reaches(s.producers, r) && !r.accepted
  {
    RefusalExactly(s, r);
    RefusalIsNotFailure(s, r);
  }

  /** What the channels should see of a sequence of requests: those that reach the network, in order. */
  function Reaching(producers: map<string, Option<nat>>, rs: seq<Request>): seq<Message> {
    if rs == [] then []
    else
      var r := rs[|rs| - 1];
      Reaching(producers, rs[..|rs| - 1]) +
      if Reaches(producers, r) then [Message(producers[r.producer].value, r.exchange, r.routingKey, r.body)] else []
  }

  lemma {:induction false} HandedInOrder(s: State, rs: seq<Request>)
    ensures After(s, rs).handed == s.handed + Reaching(s.producers, rs) && After(s, rs).producers == s.producers
  {
    if rs != [] {
      var n := |rs| - 1;
      HandedInOrder(s, rs[..n]);
      HandsOver(After(s, rs[..n]), rs[n]);
    }
  }

  /** Over any sequence of calls, the sent counter grows by the number of nil results, the failed
      counter by the number of results that match ErrPublishMessageFailed, and the channels see one
      message for each of the two; every other result leaves counters and broker untouched. */
  lemma {:induction false} Accounting(s: State, rs: seq<Request>)
    ensures var s', es := After(s, rs), Results(s, rs);
      && s'.sent == s.sent + Sum(es, IsSent)
      && s'.failed == s.failed + Sum(es, IsFailed)
      && |s'.handed| == |s.handed| + Sum(es, IsSent) + Sum(es, IsFailed)
      && s'.producers == s.producers
      && |es| == |rs|
  {
    if rs != [] {
      var n := |rs| - 1;
      Accounting(s, rs[..n]);
      OneCall(After(s, rs[..n]), rs[n]);
    }
  }

  /** One call: it changes something exactly when it returns nil or a publish failure. */
  lemma OneCall(s: State, r: Request)
    ensures var e, s' := Result(s, r), Next(s, r);
      && !(e == Nil && Is(e, PUBLISH_FAILED))
      && s'.sent == s.sent + (if e == Nil then 1 else 0)
      && s'.failed == s.failed + (if Is(e, PUBLISH_FAILED) then 1 else 0)
      && |s'.handed| == |s.handed| + (if e == Nil || Is(e, PUBLISH_FAILED) then 1 else 0)
      && (e != Nil && !Is(e, PUBLISH_FAILED) ==> s' == s)
      && s'.producers == s.producers
  {
    RefusalIsNotFailure(s, r);
  }

  class RabbitMQClient {
    var producers: map<string, Option<nat>>
    var sent: nat
    var failed: nat
    ghost var handed: seq<Message>

    ghost function View(): State
      reads this
    {
      State(producers, sent, failed, handed)
    }

    method PublishToChannel(ch: nat, r: Request) returns (err: Error)
      requires r.producer in producers && producers[r.producer] == Some(ch)
      modifies this`sent, this`failed, this`handed
      ensures View() == Next(old(View()), r) && err == Result(old(View()), r)
    {
      if r.exchange != "" {
        err := ValidateExchange(r.exchange);
        if err != Nil {
          return;
        }
      }
      if |r.body| == 0 {
        return EMPTY_MESSAGE;
      }
      handed := handed + [Message(ch, r.exchange, r.routingKey, r.body)];
      if r.accepted {
        sent := sent + 1;
        return Nil;
      }
      failed := failed + 1;
      return WrapError(PUBLISH_FAILED, "publish");
    }

    /** The request names the entry that the iteration over a non-empty map yields. */
    method PublishMessage(r: Request) returns (err: Error)
      requires !r.named && (producers != map[] ==> r.producer in producers)
      modifies this`sent, this`failed, this`handed
      ensures View() == Next(old(View()), r) && err == Result(old(View()), r)
    {
      if producers == map[] || producers[r.producer].None? {
        return PRODUCER_NOT_READY;
      }
      err := PublishToChannel(producers[r.producer].value, r);
    }

    method PublishMessageWith(r: Request) returns (err: Error)
      requires r.named
      modifies this`sent, this`failed, this`handed
      ensures View() == Next(old(View()), r) && err == Result(old(View()), r)
    {
      if r.producer !in producers {
        return WrapError(PRODUCER_NOT_FOUND, "producer: " + r.producer);
      }
      if producers[r.producer].None? {
        return WrapError(PRODUCER_NOT_READY, "producer: " + r.producer);
      }
      err := PublishToChannel(producers[r.producer].value, r);
    }
  }
}
