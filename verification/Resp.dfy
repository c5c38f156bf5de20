/** The Redis serialization protocol (RESP2): values and the bytes that carry them. */
module Resp {
  import opened Bytes

  const CR: Byte := 13
  const LF: Byte := 10
  const DOLLAR: Byte := 36
  const STAR: Byte := 42
  const PLUS: Byte := 43
  const MINUS: Byte := 45
  const COLON: Byte := 58
  const ZERO: Byte := 48

  const CRLF: Text := [CR, LF]

  /** A message as it is written, with the decimal text of its lengths. */
  datatype Message =
    | Integer(negative: bool, digits: Text)
    | Simple(text: Text)
    | Error(text: Text)
    | Bulk(length: Text, body: Text)
    | Nil(ofArray: bool)
    | Array(length: Text, items: seq<Message>)

  predicate Digits(d: Text) {
    d != [] && forall i :: 0 <= i < |d| ==> ZERO <= d[i] < ZERO + 10
  }

  /** The number a decimal text stands for, read after `acc`. */
  function ValueFrom(acc: int, d: Text): int
    decreases |d|
  {
    if d == [] then acc else ValueFrom(acc * 10 + (d[0] as int - ZERO as int), d[1..])
  }

  function Value(d: Text): int {
    ValueFrom(0, d)
  }

  predicate WellFormed(m: Message) {
    match m
    case Integer(_, digits) => Digits(digits)
    case Simple(text) => CR !in text
    case Error(text) => CR !in text
    case Bulk(length, body) => Digits(length) && Value(length) == |body|
    case Nil(_) => true
    case Array(length, items) =>
      Digits(length) && Value(length) == |items| && forall i :: 0 <= i < |items| ==> WellFormed(items[i])
  }

  predicate AllWellFormed(ms: seq<Message>) {
    forall i :: 0 <= i < |ms| ==> WellFormed(ms[i])
  }

  function Encode(m: Message): (r: Text)
    ensures |r| >= 3
    decreases m, 0
  {
    match m
    case Integer(negative, digits) => [COLON] + (if negative then [MINUS] else []) + (digits + CRLF)
    case Simple(text) => [PLUS] + (text + CRLF)
    case Error(text) => [MINUS] + (text + CRLF)
    case Bulk(length, body) => [DOLLAR] + (length + CRLF) + (body + CRLF)
    case Nil(ofArray) => [if ofArray then STAR else DOLLAR, MINUS] + ([ZERO + 1] + CRLF)
    case Array(length, items) => [STAR] + (length + CRLF) + EncodeItems(items)
  }

  function EncodeItems(items: seq<Message>): (r: Text)
    ensures items != [] ==> r != []
    decreases items, 1
  {
    if items == [] then [] else Encode(items[0]) + EncodeItems(items[1..])
  }

  lemma DigitsNoCr(d: Text)
    requires Digits(d)
    ensures CR !in d && d[0] != MINUS
  {
  }
}
