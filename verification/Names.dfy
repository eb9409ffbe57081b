/** The name checks made before any network call. */
module Names {
  import opened Errors
  import opened Config

  /** Short strings hold at most 255 octets, section 4.2.5.3 of the AMQP 0-9-1 specification. */
  const MAX_NAME := 255

  predicate BannedInName(c: char) {
    c == '%' || c == '&' || c == '*' || c == '+' || c == '/' || c == '\\' || c == ':' || c == '|' ||
    c == '<' || c == '>' || c == '?' || c == ' '
  }

  /** The octets of a character in UTF-8, and of a string. */
  function Octets(c: char): nat {
    if c as int < 0x80 then 1 else if c as int < 0x800 then 2 else if c as int < 0x10000 then 3 else 4
  }

  function Length(s: string): nat {
    if s == "" then 0 else Length(s[..|s| - 1]) + Octets(s[|s| - 1])
  }

  predicate UsableName(s: string) {
    s != "" && Length(s) <= MAX_NAME && forall i :: 0 <= i < |s| ==> !BannedInName(s[i])
  }

  /** The banned characters, spelled out. */
  lemma BannedExactly(c: char)
    ensures BannedInName(c) <==> c in "%&*+/\\:|<>? "
  {
  }

  /** Usable names, spelled out. */
  lemma UsableExactly(s: string)
    ensures UsableName(s) <==>
      && s != "" && Length(s) <= 255
      && forall i :: 0 <= i < |s| ==> s[i] !in "%&*+/\\:|<>? "
  {
    forall i | 0 <= i < |s| ensures BannedInName(s[i]) <==> s[i] in "%&*+/\\:|<>? " {
      BannedExactly(s[i]);
    }
  }

  /** UTF-8: one octet for ASCII, two below 0x800, three below 0x10000, else four. */
  lemma OctetsExactly(c: char)
    ensures Octets(c) == 1 <==> c as int <= 0x7f
    ensures Octets(c) == 2 <==> 0x80 <= c as int <= 0x7ff
    ensures Octets(c) == 3 <==> 0x800 <= c as int <= 0xffff
    ensures Octets(c) == 4 <==> 0x10000 <= c as int
  {
  }

  function ValidateExchange(exchange: string): (err: Error)
    ensures err == Nil <==> UsableName(exchange)
    ensures Is(err, EMPTY_EXCHANGE) <==> exchange == ""
    ensures Is(err, INVALID_EXCHANGE) <==> exchange != "" && !UsableName(exchange)
    ensures !Is(err, PUBLISH_FAILED)
  {
    if exchange == "" then EMPTY_EXCHANGE
    else if UsableName(exchange) then Nil
    else WrapError(INVALID_EXCHANGE, if Length(exchange) > MAX_NAME then "exchange name too long"
                                     else "exchange contains invalid character")
  }

  function ValidateQueue(queue: string): (err: Error)
    ensures err == Nil <==> UsableName(queue)
    ensures Is(err, EMPTY_QUEUE) <==> queue == ""
    ensures Is(err, INVALID_QUEUE) <==> queue != "" && !UsableName(queue)
  {
    if queue == "" then EMPTY_QUEUE
    else if UsableName(queue) then Nil
    else WrapError(INVALID_QUEUE, if Length(queue) > MAX_NAME then "queue name too long"
                                  else "queue contains invalid character")
  }

  function ValidateExchangeType(t: string): (err: Error)
    ensures err == Nil <==> KnownExchangeType(t)
  {
    if KnownExchangeType(t) then Nil else WrapError(INVALID_EXCHANGE_TYPE, "invalid exchange type: " + t)
  }
}
