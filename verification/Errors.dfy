/** Error values: nil, the sentinels of the package, foreign errors, and errors wrapped with
    context. */
module Errors {

  datatype Error =
    | Nil
    | Sentinel(name: string)
    | Foreign(id: nat)
    | WithContext(err: Error, context: string)

  function WrapError(err: Error, context: string): Error { WithContext(err, context) }

  function Unwrap(err: Error): Error { if err.WithContext? then err.err else Nil }

  /** errors.Is: the chain of wrapped errors contains the target. */
  predicate Is(err: Error, target: Error) {
    err == target || (err.WithContext? && Is(err.err, target))
  }

  const PUBLISH_FAILED := Sentinel("failed to publish message")
  const PRODUCER_NOT_READY := Sentinel("producer is not ready")
  const PRODUCER_NOT_FOUND := Sentinel("producer not found")
  const CONSUMER_NOT_READY := Sentinel("consumer is not ready")
  const CONSUMER_NOT_FOUND := Sentinel("consumer not found")
  const SUBSCRIBE_FAILED := Sentinel("failed to subscribe to queue")
  const INVALID_EXCHANGE := Sentinel("invalid exchange")
  const INVALID_EXCHANGE_TYPE := Sentinel("invalid exchange type")
  const INVALID_QUEUE := Sentinel("invalid queue")
  const EMPTY_EXCHANGE := Sentinel("exchange cannot be empty")
  const EMPTY_QUEUE := Sentinel("queue cannot be empty")
  const EMPTY_MESSAGE := Sentinel("message cannot be empty")
}
