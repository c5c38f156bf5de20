/** The splitter as it runs: loops over the bytes, and fields updated while `parse` recurses. */
module Splitter {
  import opened Bytes
  import opened Resp
  import opened SplitterModel
  import Model = SplitterModel

  /** How `parse` returns, or what it throws. */
  datatype Outcome = Moved(next: nat) | Interruption | BadMessage | OutOfRange

  function Meaning(o: Outcome, k: Sink): Parsed {
    match o
    case Moved(next) => Next(next, k)
    case Interruption => Interrupted(k)
    case BadMessage => Bad(k)
    case OutOfRange => Undefined
  }

  /** `btou` */
  method ReadUnsigned(buf: Text, begin: nat) returns (r: Number)
    requires begin <= |buf|
    ensures r == Model.Btou(buf, begin, 0)
  {
    var i, pos := 0, begin;
    while pos != |buf|
      invariant begin <= pos <= |buf| && Model.Btou(buf, pos, i) == Model.Btou(buf, begin, 0)
      decreases |buf| - pos
    {
      var b := buf[pos];
      pos := pos + 1;
      if b == CR {
        if pos == |buf| {
          return Cut;
        }
        return Read(i, pos + 1);
      }
      i := i * 10 + (b as int - ZERO as int);
    }
    return Cut;
  }

  /** `btoi` */
  method ReadInteger(buf: Text, begin: nat) returns (r: Number)
    requires begin <= |buf|
    ensures r == Model.Btoi(buf, begin)
  {
    if begin < |buf| && buf[begin] == MINUS {
      r := ReadUnsigned(buf, begin + 1);
      if r.Read? {
        r := Read(-r.value, r.next);
      }
    } else {
      r := ReadUnsigned(buf, begin);
    }
  }

  /** `parse_simple_str` */
  method ParseSimple(buf: Text, begin: nat) returns (r: Line)
    requires begin <= |buf|
    ensures r == SimpleEnd(buf, begin)
  {
    var pos := begin;
    while pos != |buf|
      invariant begin <= pos <= |buf| && SimpleEnd(buf, pos) == SimpleEnd(buf, begin)
      decreases |buf| - pos
    {
      var b := buf[pos];
      pos := pos + 1;
      if b == CR {
        if pos == |buf| {
          return Open;
        }
        return Ends(pos + 1);
      }
    }
    return Open;
  }

  /** `pass_nil` */
  method PassThree(buf: Text, begin: nat) returns (r: Line)
    requires begin <= |buf|
    ensures r == if |buf| < begin + 3 then Open else Ends(begin + 3)
  {
    var size, pos := 3, begin;
    while 0 < size && pos != |buf|
      invariant 0 <= size <= 3 && pos + size == begin + 3 && pos <= |buf|
    {
      size, pos := size - 1, pos + 1;
    }
    return if size != 0 then Open else Ends(pos);
  }

  class MessageSplitter {
    var interrupted: bool
    var splitPoints: seq<nat>
    var nested: seq<int>
    /** What the consumer has been told, in order. */
    var notices: seq<Notice>

    ghost function View(): Sink
      reads this
    {
      Sink(splitPoints, nested, notices)
    }

    constructor (begin: nat)
      ensures View() == Sink([begin], [], []) && !interrupted
    {
      interrupted, splitPoints, nested, notices := false, [begin], [], [];
    }

    method OnElement(next: nat)
      modifies `splitPoints, `nested, `notices
      ensures View() == Model.OnElement(old(View()), next)
      decreases |nested|
    {
      if |nested| == 0 {
        notices := notices + [Split(next)];
        splitPoints := splitPoints + [next];
        return;
      }
      var n := |nested| - 1;
      nested := nested[..n] + [nested[n] - 1];
      if nested[n] == 0 {
        nested := nested[..n];
        assert nested == old(nested)[..n];
        OnElement(next);
      }
    }

    method Tell(n: Notice)
      modifies `notices
      ensures View() == Report(old(View()), n)
    {
      notices := notices + [n];
    }

    /** `on_arr` */
    method OnArray(size: int, next: nat)
      modifies `splitPoints, `nested, `notices
      ensures View() == Model.OnArray(old(View()), size, next)
    {
      Tell(Arr(size));
      if size == 0 {
        OnElement(next);
      } else {
        nested := nested + [size];
      }
    }

    /** `on_sstr` and `on_err` */
    method OnLine(buf: Text, begin: nat, error: bool) returns (o: Outcome)
      requires begin <= |buf|
      modifies `splitPoints, `nested, `notices
      ensures Meaning(o, View()) ==
                match SimpleEnd(buf, begin)
                case Open => Interrupted(old(View()))
                case Ends(next) =>
                  Next(next, Model.OnElement(Report(old(View()), if error then Err(begin, next - 2) else Str(begin, next - 2)), next))
    {
      var r := ParseSimple(buf, begin);
      if r.Open? {
        return Interruption;
      }
      Tell(if error then Err(begin, r.next - 2) else Str(begin, r.next - 2));
      OnElement(r.next);
      return Moved(r.next);
    }

    /** `on_nil` of what `pass_nil` returns */
    method OnNil(buf: Text, begin: nat) returns (o: Outcome)
      requires begin <= |buf|
      modifies `splitPoints, `nested, `notices
      ensures Meaning(o, View()) == PassNil(buf, begin, old(View()))
    {
      var r := PassThree(buf, begin);
      if r.Open? {
        return Interruption;
      }
      OnElement(r.next);
      return Moved(r.next);
    }

    /** `on_lstr` */
    method OnBulk(buf: Text, size: int, begin: nat) returns (o: Outcome)
      requires begin <= |buf|
      modifies `splitPoints, `nested, `notices
      ensures Meaning(o, View()) ==
                if size < 0 then Undefined
                else if |buf| < begin + size + 2 then Interrupted(old(View()))
                else Next(begin + size + 2, Model.OnElement(Report(old(View()), Str(begin, begin + size)), begin + size + 2))
    {
      if size < 0 {
        return OutOfRange;
      }
      var last := begin + size + 2;
      if |buf| < last {
        return Interruption;
      }
      Tell(Str(begin, last - 2));
      OnElement(last);
      return Moved(last);
    }

    /** `parse` */
    method Parse(buf: Text, begin: nat) returns (o: Outcome)
      requires begin <= |buf|
      modifies `splitPoints, `nested, `notices
      ensures Meaning(o, View()) == Model.Parse(buf, begin, old(View()))
      decreases |buf| - begin, 1
    {
      hide Model.OnElement, Model.OnArray, ParseItems;
      if begin == |buf| {
        return Moved(begin);
      }
      var b, pos := buf[begin], begin + 1;
      if b == COLON {
        var r := ReadInteger(buf, pos);
        if r.Cut? {
          return Interruption;
        }
        OnElement(r.next);
        return Moved(r.next);
      } else if b == PLUS || b == MINUS {
        o := OnLine(buf, pos, b == MINUS);
      } else if b == DOLLAR || b == STAR {
        if pos != |buf| && buf[pos] == MINUS {
          o := OnNil(buf, pos + 1);
          return;
        }
        var r := ReadUnsigned(buf, pos);
        if r.Cut? {
          return Interruption;
        }
        if b == DOLLAR {
          o := OnBulk(buf, r.value, r.next);
          return;
        }
        OnArray(r.value, r.next);
        o := ParseElements(buf, r.next, r.value);
      } else {
        return BadMessage;
      }
    }

    /** The loop of `parse` over the elements of an array */
    method ParseElements(buf: Text, begin: nat, size: int) returns (o: Outcome)
      requires begin <= |buf|
      modifies `splitPoints, `nested, `notices
      ensures Meaning(o, View()) == ParseItems(buf, begin, size, old(View()))
      decreases |buf| - begin, 2
    {
      hide Model.Parse;
      var i, pos := 0, begin;
      while i < size && pos != |buf|
        invariant begin <= pos <= |buf| && 0 <= i && (i <= size || i == 0)
        invariant ParseItems(buf, pos, size - i, View()) == ParseItems(buf, begin, size, old(View()))
        decreases |buf| - pos
      {
        var r := Parse(buf, pos);
        if !r.Moved? {
          return r;
        }
        i, pos := i + 1, r.next;
      }
      return Moved(pos);
    }

    /** `finished`, then `clear` or `truncate_from_begin(interrupt_point())` on the buffer */
    method Rest(buf: Text, ghost o: Outcome) returns (rest: Text)
      requires o.Moved? || o.Interruption?
      requires interrupted <==> o == Interruption
      ensures rest == Kept(buf, Meaning(o, View()))
    {
      if nested == [] && !interrupted {
        return [];
      }
      var last := if splitPoints == [] then 0 else splitPoints[|splitPoints| - 1];
      return Slice(buf, last, |buf|);
    }
  }

  /** `split_by` with a fresh splitter */
  method SplitBy(buf: Text) returns (s: MessageSplitter, o: Outcome)
    ensures fresh(s) && Meaning(o, s.View()) == SplitAll(buf)
    ensures s.interrupted <==> o == Interruption
    ensures o.Moved? || o.Interruption? ==> ((s.nested == [] && !s.interrupted) <==> Finished(SplitAll(buf)))
  {
    hide Model.Parse;
    s := new MessageSplitter(0);
    var pos := 0;
    while pos != |buf|
      invariant pos <= |buf| && !s.interrupted
      invariant SplitFrom(buf, pos, s.View()) == SplitAll(buf)
      invariant fresh(s)
      decreases |buf| - pos
    {
      o := s.Parse(buf, pos);
      if !o.Moved? {
        if o.Interruption? {
          s.interrupted := true;
        }
        return;
      }
      pos := o.next;
    }
    o := Moved(pos);
  }
}
