/** The splitter as a function of the bytes: a recursive descent that reports to a stack of open
    arrays. */
module SplitterModel {
  import opened Bytes
  import opened Resp

  /** What the consumer is told. */
  datatype Notice =
    | Str(begin: nat, end: nat)
    | Err(begin: nat, end: nat)
    | Arr(size: int)
    | Split(next: nat)

  /** `MessageSplitterBase`: the split points, the counts of elements the open arrays still lack
      (innermost last), and everything reported so far. */
  datatype Sink = Sink(points: seq<nat>, stack: seq<int>, notices: seq<Notice>)

  function Report(k: Sink, n: Notice): Sink {
    k.(notices := k.notices + [n])
  }

  function OnElement(k: Sink, next: nat): Sink
    decreases |k.stack|
  {
    if k.stack == [] then k.(points := k.points + [next], notices := k.notices + [Split(next)])
    else
      var n := |k.stack| - 1;
      if k.stack[n] - 1 == 0 then OnElement(k.(stack := k.stack[..n]), next)
      else k.(stack := k.stack[..n] + [k.stack[n] - 1])
  }

  function OnArray(k: Sink, size: int, next: nat): Sink {
    var k1 := Report(k, Arr(size));
    if size == 0 then OnElement(k1, next) else k1.(stack := k1.stack + [size])
  }

  datatype Number = Read(value: int, next: nat) | Cut

  /** `btou`: any byte but CR counts as a digit, and one byte after CR is skipped. */
  function Btou(buf: Text, pos: nat, acc: int): (r: Number)
    ensures r.Read? ==> pos < r.next <= |buf|
    decreases |buf| - pos
  {
    if pos >= |buf| then Cut
    else if buf[pos] == CR then if pos + 1 >= |buf| then Cut else Read(acc, pos + 2)
    else Btou(buf, pos + 1, acc * 10 + (buf[pos] as int - ZERO as int))
  }

  /** `btoi`, interrupted when there is no byte to read */
  function Btoi(buf: Text, pos: nat): (r: Number)
    ensures r.Read? ==> pos < r.next <= |buf|
  {
    if pos < |buf| && buf[pos] == MINUS then
      match Btou(buf, pos + 1, 0)
      case Read(v, next) => Read(-v, next)
      case Cut => Cut
    else Btou(buf, pos, 0)
  }

  datatype Line = Ends(next: nat) | Open

  /** `parse_simple_str` */
  function SimpleEnd(buf: Text, pos: nat): (r: Line)
    ensures r.Ends? ==> pos + 2 <= r.next <= |buf|
    decreases |buf| - pos
  {
    if pos >= |buf| then Open
    else if buf[pos] == CR then if pos + 1 >= |buf| then Open else Ends(pos + 2)
    else SimpleEnd(buf, pos + 1)
  }

  /** What one call of `parse` leads to.  `Undefined` is a negative length, which moves the source's
      iterator backwards. */
  datatype Parsed =
    | Next(pos: nat, sink: Sink)
    | Interrupted(sink: Sink)
    | Bad(sink: Sink)
    | Undefined

  function PassNil(buf: Text, pos: nat, k: Sink): Parsed {
    if |buf| < pos + 3 then Interrupted(k) else Next(pos + 3, OnElement(k, pos + 3))
  }

  function Parse(buf: Text, pos: nat, k: Sink): (r: Parsed)
    requires pos <= |buf|
    ensures r.Next? ==> pos <= r.pos <= |buf| && (pos < |buf| ==> pos < r.pos)
    decreases |buf| - pos, 1
  {
    if pos == |buf| then Next(pos, k)
    else
      var p := pos + 1;
      if buf[pos] == COLON then
        match Btoi(buf, p)
        case Cut => Interrupted(k)
        case Read(_, next) => Next(next, OnElement(k, next))
      else if buf[pos] == PLUS then
        match SimpleEnd(buf, p)
        case Open => Interrupted(k)
        case Ends(next) => Next(next, OnElement(Report(k, Str(p, next - 2)), next))
      else if buf[pos] == DOLLAR then
        if p < |buf| && buf[p] == MINUS then PassNil(buf, p + 1, k)
        else
          match Btou(buf, p, 0)
          case Cut => Interrupted(k)
          case Read(size, begin) =>
            if size < 0 then Undefined
            else if |buf| < begin + size + 2 then Interrupted(k)
            else Next(begin + size + 2, OnElement(Report(k, Str(begin, begin + size)), begin + size + 2))
      else if buf[pos] == STAR then
        if p < |buf| && buf[p] == MINUS then PassNil(buf, p + 1, k)
        else
          match Btou(buf, p, 0)
          case Cut => Interrupted(k)
          case Read(size, next) => ParseItems(buf, next, size, OnArray(k, size, next))
      else if buf[pos] == MINUS then
        match SimpleEnd(buf, p)
        case Open => Interrupted(k)
        case Ends(next) => Next(next, OnElement(Report(k, Err(p, next - 2)), next))
      else Bad(k)
  }

  /** The loop over the elements of an array */
  function ParseItems(buf: Text, pos: nat, left: int, k: Sink): (r: Parsed)
    requires pos <= |buf|
    ensures r.Next? ==> pos <= r.pos <= |buf|
    decreases |buf| - pos, 2
  {
    if left <= 0 || pos == |buf| then Next(pos, k)
    else
      match Parse(buf, pos, k)
      case Next(p, k1) => ParseItems(buf, p, left - 1, k1)
      case Interrupted(k1) => Interrupted(k1)
      case Bad(k1) => Bad(k1)
      case Undefined => Undefined
  }

  /** `split_by` */
  function SplitFrom(buf: Text, pos: nat, k: Sink): Parsed
    requires pos <= |buf|
    decreases |buf| - pos
  {
    if pos == |buf| then Next(pos, k)
    else
      match Parse(buf, pos, k)
      case Next(p, k1) => SplitFrom(buf, p, k1)
      case Interrupted(k1) => Interrupted(k1)
      case Bad(k1) => Bad(k1)
      case Undefined => Undefined
  }

  function Start(): Sink {
    Sink([0], [], [])
  }

  function SplitAll(buf: Text): Parsed {
    SplitFrom(buf, 0, Start())
  }

  /** `finished` of the splitter that `split_by` returns */
  predicate Finished(r: Parsed) {
    r.Next? && r.sink.stack == []
  }

  /** What stays in the buffer: nothing when finished, else everything from the last split point on. */
  function Kept(buf: Text, r: Parsed): Text
    requires r.Next? || r.Interrupted?
  {
    if Finished(r) then []
    else Slice(buf, if r.sink.points == [] then 0 else r.sink.points[|r.sink.points| - 1], |buf|)
  }
}
