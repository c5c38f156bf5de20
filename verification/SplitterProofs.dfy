/** What the splitter does on whole messages and on messages cut short. */
module SplitterProofs {
  import opened Bytes
  import opened Resp
  import opened SplitterModel

  // ----- texts inside a buffer -----

  /** The buffer holds `text` at `pos`. */
  predicate At(buf: Text, pos: nat, text: Text) {
    pos + |text| <= |buf| && buf[pos..pos + |text|] == text
  }

  /** The buffer ends inside `text`, which starts at `pos`. */
  predicate Short(buf: Text, pos: nat, text: Text) {
    pos <= |buf| < pos + |text| && buf[pos..] == text[..|buf| - pos]
  }

  lemma AtFirst(buf: Text, pos: nat, a: Text, b: Text)
    requires At(buf, pos, a + b)
    ensures At(buf, pos, a) && At(buf, pos + |a|, b)
  {
    var text := a + b;
    assert a == text[..|a|] && b == text[|a|..];
  }

  lemma SliceAt(buf: Text, pos: nat, text: Text)
    requires At(buf, pos, text)
    ensures Slice(buf, pos, pos + |text|) == text
  {
  }

  lemma ShortFirst(buf: Text, pos: nat, a: Text, b: Text)
    requires Short(buf, pos, a + b)
    ensures |buf| < pos + |a| ==> Short(buf, pos, a)
    ensures |buf| >= pos + |a| ==> At(buf, pos, a) && Short(buf, pos + |a|, b)
  {
    var n := |buf| - pos;
    if n < |a| {
      assert (a + b)[..n] == a[..n];
    } else {
      assert (a + b)[..n] == a + b[..n - |a|];
      assert buf[pos..pos + |a|] == a;
      assert buf[pos + |a|..] == b[..n - |a|];
    }
  }

  // ----- numbers and lines -----

  lemma {:induction false} BtouWhole(buf: Text, pos: nat, d: Text, acc: int)
    requires CR !in d && At(buf, pos, d + CRLF)
    ensures Btou(buf, pos, acc) == Read(ValueFrom(acc, d), pos + |d| + 2)
    decreases |d|
  {
    if d == [] {
      assert buf[pos..pos + 2] == CRLF;
      assert buf[pos] == buf[pos..pos + 2][0];
    } else {
      AtFirst(buf, pos, [d[0]], d[1..] + CRLF) by { assert [d[0]] + (d[1..] + CRLF) == d + CRLF; }
      assert buf[pos] == buf[pos..pos + 1][0];
      BtouWhole(buf, pos + 1, d[1..], acc * 10 + (d[0] as int - ZERO as int));
    }
  }

  lemma {:induction false} BtouShort(buf: Text, pos: nat, d: Text, acc: int)
    requires CR !in d && Short(buf, pos, d + CRLF)
    ensures Btou(buf, pos, acc) == Cut
    decreases |d|
  {
    if pos < |buf| {
      assert buf[pos] == buf[pos..][0] == (d + CRLF)[0];
      if d != [] {
        assert d + CRLF == [d[0]] + (d[1..] + CRLF);
        ShortFirst(buf, pos, [d[0]], d[1..] + CRLF);
        BtouShort(buf, pos + 1, d[1..], acc * 10 + (d[0] as int - ZERO as int));
      }
    }
  }

  lemma {:induction false} LineWhole(buf: Text, pos: nat, text: Text)
    requires CR !in text && At(buf, pos, text + CRLF)
    ensures SimpleEnd(buf, pos) == Ends(pos + |text| + 2)
    decreases |text|
  {
    if text == [] {
      assert buf[pos..pos + 2] == CRLF;
      assert buf[pos] == buf[pos..pos + 2][0];
    } else {
      assert text + CRLF == [text[0]] + (text[1..] + CRLF);
      AtFirst(buf, pos, [text[0]], text[1..] + CRLF);
      assert buf[pos] == buf[pos..pos + 1][0];
      LineWhole(buf, pos + 1, text[1..]);
    }
  }

  lemma {:induction false} LineShort(buf: Text, pos: nat, text: Text)
    requires CR !in text && Short(buf, pos, text + CRLF)
    ensures SimpleEnd(buf, pos) == Open
    decreases |text|
  {
    if pos < |buf| {
      assert buf[pos] == buf[pos..][0] == (text + CRLF)[0];
      if text != [] {
        assert text + CRLF == [text[0]] + (text[1..] + CRLF);
        ShortFirst(buf, pos, [text[0]], text[1..] + CRLF);
        LineShort(buf, pos + 1, text[1..]);
      }
    }
  }

  // ----- what a message reports -----

  function NoticesOf(m: Message, pos: nat): seq<Notice>
    decreases m, 0
  {
    match m
    case Integer(_, _) => []
    case Simple(text) => [Str(pos + 1, pos + 1 + |text|)]
    case Error(text) => [Err(pos + 1, pos + 1 + |text|)]
    case Bulk(length, body) => [Str(pos + |length| + 3, pos + |length| + 3 + |body|)]
    case Nil(_) => []
    case Array(length, items) => [Arr(|items|)] + NoticesOfItems(items, pos + |length| + 3)
  }

  function NoticesOfItems(items: seq<Message>, pos: nat): seq<Notice>
    decreases items, 1
  {
    if items == [] then [] else NoticesOf(items[0], pos) + NoticesOfItems(items[1..], pos + |Encode(items[0])|)
  }

  function Told(k: Sink, ns: seq<Notice>): Sink {
    k.(notices := k.notices + ns)
  }

  /** A message ends at `pos`: everything it reports, then one element of whatever is open. */
  function Completed(k: Sink, ns: seq<Notice>, pos: nat): Sink {
    OnElement(Told(k, ns), pos)
  }

  lemma ToldTwice(k: Sink, a: seq<Notice>, b: seq<Notice>)
    ensures Told(Told(k, a), b) == Told(k, a + b)
  {
    assert k.notices + a + b == k.notices + (a + b);
  }

  function Opened(k: Sink, size: int): Sink {
    k.(stack := k.stack + [size])
  }

  /** Completing an element of an array that lacks `left` of them. */
  lemma CompleteItem(k: Sink, left: int, ns: seq<Notice>, pos: nat)
    requires left > 0
    ensures Completed(Opened(k, left), ns, pos) ==
              if left == 1 then Completed(k, ns, pos) else Opened(Told(k, ns), left - 1)
  {
    var k1 := Told(Opened(k, left), ns);
    assert k1.stack[..|k.stack|] == k.stack;
    assert k1.(stack := k.stack) == Told(k, ns);
  }

  // ----- whole messages -----

  lemma FirstByte(buf: Text, pos: nat, b: Byte, rest: Text)
    requires At(buf, pos, [b] + rest)
    ensures pos < |buf| && buf[pos] == b && At(buf, pos + 1, rest)
  {
    AtFirst(buf, pos, [b], rest);
    assert buf[pos] == buf[pos..pos + 1][0];
  }

  lemma BtoiWhole(buf: Text, pos: nat, negative: bool, digits: Text)
    requires Digits(digits) && At(buf, pos, (if negative then [MINUS] else []) + (digits + CRLF))
    ensures var r := Btoi(buf, pos); r.Read? && r.next == pos + (if negative then 1 else 0) + |digits| + 2
  {
    DigitsNoCr(digits);
    if negative {
      FirstByte(buf, pos, MINUS, digits + CRLF);
      BtouWhole(buf, pos + 1, digits, 0);
    } else {
      assert [] + (digits + CRLF) == [digits[0]] + (digits[1..] + CRLF) == digits + CRLF;
      FirstByte(buf, pos, digits[0], digits[1..] + CRLF);
      BtouWhole(buf, pos, digits, 0);
    }
  }

  lemma IntegerWhole(buf: Text, pos: nat, m: Message, k: Sink)
    requires m.Integer? && WellFormed(m) && At(buf, pos, Encode(m))
    ensures var next := pos + |Encode(m)|; Parse(buf, pos, k) == Next(next, OnElement(k, next))
  {
    hide At, Btoi, OnElement;
    var sign := if m.negative then [MINUS] else [];
    assert Encode(m) == [COLON] + (sign + (m.digits + CRLF));
    FirstByte(buf, pos, COLON, sign + (m.digits + CRLF));
    BtoiWhole(buf, pos + 1, m.negative, m.digits);
  }

  lemma LineMessageWhole(buf: Text, pos: nat, m: Message, k: Sink)
    requires (m.Simple? || m.Error?) && WellFormed(m) && At(buf, pos, Encode(m))
    ensures var next := pos + |Encode(m)|; Parse(buf, pos, k) == Next(next, Completed(k, NoticesOf(m, pos), next))
  {
    FirstByte(buf, pos, if m.Simple? then PLUS else MINUS, m.text + CRLF);
    LineWhole(buf, pos + 1, m.text);
  }

  /** The length that starts a bulk string or an array */
  lemma LengthWhole(buf: Text, pos: nat, b: Byte, length: Text, rest: Text)
    requires Digits(length) && At(buf, pos, [b] + (length + CRLF) + rest)
    ensures pos + 1 < |buf| && buf[pos] == b && buf[pos + 1] != MINUS
    ensures Btou(buf, pos + 1, 0) == Read(Value(length), pos + |length| + 3) && At(buf, pos + |length| + 3, rest)
  {
    DigitsNoCr(length);
    AtFirst(buf, pos, [b] + (length + CRLF), rest);
    FirstByte(buf, pos, b, length + CRLF);
    assert length + CRLF == [length[0]] + (length[1..] + CRLF);
    FirstByte(buf, pos + 1, length[0], length[1..] + CRLF);
    BtouWhole(buf, pos + 1, length, 0);
  }

  lemma BulkWhole(buf: Text, pos: nat, m: Message, k: Sink)
    requires m.Bulk? && WellFormed(m) && At(buf, pos, Encode(m))
    ensures var next := pos + |Encode(m)|; Parse(buf, pos, k) == Next(next, Completed(k, NoticesOf(m, pos), next))
  {
    LengthWhole(buf, pos, DOLLAR, m.length, m.body + CRLF);
  }

  lemma NilWhole(buf: Text, pos: nat, m: Message, k: Sink)
    requires m.Nil? && At(buf, pos, Encode(m))
    ensures var next := pos + |Encode(m)|; Parse(buf, pos, k) == Next(next, OnElement(k, next))
  {
    var b := if m.ofArray then STAR else DOLLAR;
    assert Encode(m) == [b] + ([MINUS] + ([ZERO + 1] + CRLF));
    FirstByte(buf, pos, b, [MINUS] + ([ZERO + 1] + CRLF));
    FirstByte(buf, pos + 1, MINUS, [ZERO + 1] + CRLF);
  }

  lemma ToldNothing(k: Sink)
    ensures Told(k, []) == k
  {
    assert k.notices + [] == k.notices;
  }

  /** The head of an array */
  lemma ArrayHead(buf: Text, pos: nat, m: Message, k: Sink)
    requires m.Array? && WellFormed(m) && At(buf, pos, Encode(m))
    ensures var q, size := pos + |m.length| + 3, |m.items|;
            && q <= |buf| && At(buf, q, EncodeItems(m.items))
            && pos + |Encode(m)| == q + |EncodeItems(m.items)|
            && NoticesOf(m, pos) == [Arr(size)] + NoticesOfItems(m.items, q)
            && Parse(buf, pos, k) == ParseItems(buf, q, size, OnArray(k, size, q))
  {
    hide At, ParseItems, OnArray, EncodeItems;
    LengthWhole(buf, pos, STAR, m.length, EncodeItems(m.items));
  }

  lemma OpenArray(k: Sink, size: int, next: nat)
    requires size != 0
    ensures OnArray(k, size, next) == Opened(Told(k, [Arr(size)]), size)
  {
  }

  lemma EmptyArray(buf: Text, pos: nat, k: Sink)
    requires pos <= |buf|
    ensures ParseItems(buf, pos, 0, OnArray(k, 0, pos)) == Next(pos, Completed(k, [Arr(0)], pos))
  {
  }

  lemma ToldThen(k: Sink, a: seq<Notice>, b: seq<Notice>, pos: nat)
    ensures Completed(Told(k, a), b, pos) == Completed(k, a + b, pos)
  {
    ToldTwice(k, a, b);
  }

  lemma NoItems(pos: nat)
    ensures EncodeItems([]) == [] && NoticesOfItems([], pos) == []
  {
  }

  /** Parsing a whole message: it is consumed, it reports what it holds, and one element is done. */
  lemma {:induction false} ParseWhole(buf: Text, pos: nat, m: Message, k: Sink)
    requires WellFormed(m) && At(buf, pos, Encode(m))
    ensures var next := pos + |Encode(m)|; Parse(buf, pos, k) == Next(next, Completed(k, NoticesOf(m, pos), next))
    decreases m, 0
  {
    match m
    case Integer(_, _) => IntegerWhole(buf, pos, m, k); NothingTold(m, pos, k);
    case Simple(_) => LineMessageWhole(buf, pos, m, k);
    case Error(_) => LineMessageWhole(buf, pos, m, k);
    case Bulk(_, _) => BulkWhole(buf, pos, m, k);
    case Nil(_) => NilWhole(buf, pos, m, k); NothingTold(m, pos, k);
    case Array(length, items) => ArrayWhole(buf, pos, m, k);
  }

  lemma NothingTold(m: Message, pos: nat, k: Sink)
    requires m.Integer? || m.Nil?
    ensures forall next: nat :: Completed(k, NoticesOf(m, pos), next) == OnElement(k, next)
  {
    ToldNothing(k);
  }

  lemma {:induction false} ArrayWhole(buf: Text, pos: nat, m: Message, k: Sink)
    requires m.Array? && WellFormed(m) && At(buf, pos, Encode(m))
    ensures var next := pos + |Encode(m)|; Parse(buf, pos, k) == Next(next, Completed(k, NoticesOf(m, pos), next))
    decreases m.items, 2
  {
    hide Parse, ParseItems, At, Encode, EncodeItems, NoticesOf, NoticesOfItems, Completed, OnArray, Opened;
    var q, size := pos + |m.length| + 3, |m.items|;
    ArrayHead(buf, pos, m, k);
    if size == 0 {
      EmptyArray(buf, q, k);
      NoItems(q);
      assert m.items == [] && [Arr(0)] + [] == [Arr(0)];
    } else {
      var k1 := Told(k, [Arr(size)]);
      OpenArray(k, size, q);
      ParseItemsWhole(buf, q, m.items, k1);
      ToldThen(k, [Arr(size)], NoticesOfItems(m.items, q), q + |EncodeItems(m.items)|);
    }
  }

  lemma ItemsStep(buf: Text, pos: nat, left: int, k: Sink, q: nat, k1: Sink)
    requires pos < |buf| && left > 0 && Parse(buf, pos, k) == Next(q, k1)
    ensures q <= |buf| && ParseItems(buf, pos, left, k) == ParseItems(buf, q, left - 1, k1)
  {
    hide Parse;
  }

  lemma ItemsEnd(buf: Text, pos: nat, k: Sink)
    requires pos <= |buf|
    ensures ParseItems(buf, pos, 0, k) == Next(pos, k)
  {
  }

  lemma ItemsParts(items: seq<Message>, pos: nat)
    requires items != []
    ensures EncodeItems(items) == Encode(items[0]) + EncodeItems(items[1..])
    ensures NoticesOfItems(items, pos) == NoticesOf(items[0], pos) + NoticesOfItems(items[1..], pos + |Encode(items[0])|)
  {
  }

  lemma {:induction false} ParseItemsWhole(buf: Text, pos: nat, items: seq<Message>, k: Sink)
    requires AllWellFormed(items) && items != [] && At(buf, pos, EncodeItems(items))
    ensures pos + |EncodeItems(items)| <= |buf|
    ensures var next := pos + |EncodeItems(items)|;
            ParseItems(buf, pos, |items|, Opened(k, |items|)) == Next(next, Completed(k, NoticesOfItems(items, pos), next))
    decreases items, 1
  {
    hide Parse, ParseItems, Encode, EncodeItems, NoticesOf, NoticesOfItems, Completed, Opened, WellFormed;
    var m, rest := items[0], items[1..];
    ItemsParts(items, pos);
    AtFirst(buf, pos, Encode(m), EncodeItems(rest));
    ParseWhole(buf, pos, m, Opened(k, |items|));
    var q, ns := pos + |Encode(m)|, NoticesOf(m, pos);
    CompleteItem(k, |items|, ns, q);
    ItemsStep(buf, pos, |items|, Opened(k, |items|), q, Completed(Opened(k, |items|), ns, q));
    if rest != [] {
      ParseItemsWhole(buf, q, rest, Told(k, ns));
      ToldThen(k, ns, NoticesOfItems(rest, q), q + |EncodeItems(rest)|);
    } else {
      NoItems(q);
      ItemsEnd(buf, q, Completed(k, ns, q));
      assert ns + [] == ns;
    }
  }

  // ----- messages cut short -----

  predicate NoSplit(ns: seq<Notice>) {
    forall i :: 0 <= i < |ns| ==> !ns[i].Split?
  }

  /** The later sink has been told more, but of no split point. */
  predicate Further(k: Sink, k1: Sink) {
    k1.points == k.points && k.notices <= k1.notices && NoSplit(k1.notices[|k.notices|..])
  }

  /** The bytes gave out inside a message: either parsing was interrupted, or it stopped between two
      elements and leaves an array open. */
  predicate Unfinished(buf: Text, k: Sink, r: Parsed) {
    && (r.Interrupted? || (r.Next? && r.pos == |buf| && |r.sink.stack| > |k.stack|))
    && Further(k, r.sink)
  }

  lemma FurtherTrans(k: Sink, k1: Sink, k2: Sink)
    requires Further(k, k1) && Further(k1, k2)
    ensures Further(k, k2)
  {
    var a, b := k1.notices[|k.notices|..], k2.notices[|k1.notices|..];
    assert k2.notices[|k.notices|..] == a + b;
  }

  lemma FurtherTold(k: Sink, ns: seq<Notice>, stack: seq<int>)
    requires NoSplit(ns)
    ensures Further(k, Told(k, ns).(stack := stack))
  {
    assert (k.notices + ns)[|k.notices|..] == ns;
  }

  lemma ShortByte(buf: Text, pos: nat, b: Byte, rest: Text)
    requires Short(buf, pos, [b] + rest) && pos < |buf|
    ensures buf[pos] == b && Short(buf, pos + 1, rest)
  {
    ShortFirst(buf, pos, [b], rest);
    assert buf[pos] == buf[pos..pos + 1][0];
  }

  lemma BtoiShort(buf: Text, pos: nat, negative: bool, digits: Text)
    requires Digits(digits) && Short(buf, pos, (if negative then [MINUS] else []) + (digits + CRLF))
    ensures Btoi(buf, pos) == Cut
  {
    DigitsNoCr(digits);
    if pos < |buf| {
      if negative {
        ShortByte(buf, pos, MINUS, digits + CRLF);
        BtouShort(buf, pos + 1, digits, 0);
      } else {
        assert [] + (digits + CRLF) == [digits[0]] + (digits[1..] + CRLF) == digits + CRLF;
        ShortByte(buf, pos, digits[0], digits[1..] + CRLF);
        BtouShort(buf, pos, digits, 0);
      }
    }
  }

  lemma IntegerShort(buf: Text, pos: nat, m: Message, k: Sink)
    requires m.Integer? && WellFormed(m) && Short(buf, pos, Encode(m)) && pos < |buf|
    ensures Parse(buf, pos, k) == Interrupted(k)
  {
    hide Short, Btoi, OnElement;
    var sign := if m.negative then [MINUS] else [];
    assert Encode(m) == [COLON] + (sign + (m.digits + CRLF));
    ShortByte(buf, pos, COLON, sign + (m.digits + CRLF));
    BtoiShort(buf, pos + 1, m.negative, m.digits);
  }

  lemma LineMessageShort(buf: Text, pos: nat, m: Message, k: Sink)
    requires (m.Simple? || m.Error?) && WellFormed(m) && Short(buf, pos, Encode(m)) && pos < |buf|
    ensures Parse(buf, pos, k) == Interrupted(k)
  {
    ShortByte(buf, pos, if m.Simple? then PLUS else MINUS, m.text + CRLF);
    LineShort(buf, pos + 1, m.text);
  }

  lemma NilShort(buf: Text, pos: nat, m: Message, k: Sink)
    requires m.Nil? && Short(buf, pos, Encode(m)) && pos < |buf|
    ensures Parse(buf, pos, k) == Interrupted(k)
  {
    var b := if m.ofArray then STAR else DOLLAR;
    assert Encode(m) == [b] + ([MINUS] + ([ZERO + 1] + CRLF));
    ShortByte(buf, pos, b, [MINUS] + ([ZERO + 1] + CRLF));
    if pos + 1 < |buf| {
      ShortByte(buf, pos + 1, MINUS, [ZERO + 1] + CRLF);
    }
  }

  /** A bulk string or an array cut in its length */
  lemma LengthShort(buf: Text, pos: nat, b: Byte, length: Text)
    requires Digits(length) && Short(buf, pos, [b] + (length + CRLF)) && pos < |buf|
    ensures buf[pos] == b && Btou(buf, pos + 1, 0) == Cut && (pos + 1 < |buf| ==> buf[pos + 1] != MINUS)
  {
    DigitsNoCr(length);
    ShortByte(buf, pos, b, length + CRLF);
    BtouShort(buf, pos + 1, length, 0);
    if pos + 1 < |buf| {
      assert length + CRLF == [length[0]] + (length[1..] + CRLF);
      ShortByte(buf, pos + 1, length[0], length[1..] + CRLF);
    }
  }

  lemma BulkShort(buf: Text, pos: nat, m: Message, k: Sink)
    requires m.Bulk? && WellFormed(m) && Short(buf, pos, Encode(m)) && pos < |buf|
    ensures Parse(buf, pos, k) == Interrupted(k)
  {
    var head := [DOLLAR] + (m.length + CRLF);
    ShortFirst(buf, pos, head, m.body + CRLF);
    if |buf| < pos + |head| {
      LengthShort(buf, pos, DOLLAR, m.length);
    } else {
      assert head + [] == head;
      LengthWhole(buf, pos, DOLLAR, m.length, []);
    }
  }

  /** An array cut in its length, or among its elements */
  lemma ArrayHeadShort(buf: Text, pos: nat, m: Message, k: Sink)
    requires m.Array? && WellFormed(m) && Short(buf, pos, Encode(m)) && pos < |buf|
    ensures var q := pos + |m.length| + 3;
            if |buf| < q then Parse(buf, pos, k) == Interrupted(k)
            else
              && m.items != [] && Short(buf, q, EncodeItems(m.items))
              && Parse(buf, pos, k) == ParseItems(buf, q, |m.items|, OnArray(k, |m.items|, q))
  {
    hide ParseItems, OnArray;
    var head := [STAR] + (m.length + CRLF);
    ShortFirst(buf, pos, head, EncodeItems(m.items));
    if |buf| < pos + |head| {
      LengthShort(buf, pos, STAR, m.length);
    } else {
      assert head + [] == head;
      LengthWhole(buf, pos, STAR, m.length, []);
    }
  }

  lemma InterruptedHere(buf: Text, k: Sink)
    ensures Unfinished(buf, k, Interrupted(k))
  {
  }

  /** Parsing a message cut short adds no split point and does not look finished. */
  lemma {:induction false} ParseShort(buf: Text, pos: nat, m: Message, k: Sink)
    requires WellFormed(m) && Short(buf, pos, Encode(m)) && pos < |buf|
    ensures Unfinished(buf, k, Parse(buf, pos, k))
    decreases m, 0
  {
    hide Unfinished, Parse, Short, Encode, WellFormed;
    InterruptedHere(buf, k);
    match m
    case Integer(_, _) => IntegerShort(buf, pos, m, k);
    case Simple(_) => LineMessageShort(buf, pos, m, k);
    case Error(_) => LineMessageShort(buf, pos, m, k);
    case Bulk(_, _) => BulkShort(buf, pos, m, k);
    case Nil(_) => NilShort(buf, pos, m, k);
    case Array(_, _) => ArrayShort(buf, pos, m, k);
  }

  lemma {:induction false} ArrayShort(buf: Text, pos: nat, m: Message, k: Sink)
    requires m.Array? && WellFormed(m) && Short(buf, pos, Encode(m)) && pos < |buf|
    ensures Unfinished(buf, k, Parse(buf, pos, k))
    decreases m.items, 2
  {
    hide Parse, ParseItems, Short, Encode, EncodeItems, OnArray, Opened, Further;
    var q, size := pos + |m.length| + 3, |m.items|;
    ArrayHeadShort(buf, pos, m, k);
    InterruptedHere(buf, k);
    if |buf| >= q {
      OpenArray(k, size, q);
      var k1 := Told(k, [Arr(size)]);
      ParseItemsShort(buf, q, m.items, k1);
      FurtherTold(k, [Arr(size)], k.stack);
      FurtherTrans(k, k1, ParseItems(buf, q, size, Opened(k1, size)).sink);
    }
  }

  /** Parsing stops inside an item: the loop over the items stops too. */
  lemma ItemsStop(buf: Text, pos: nat, left: int, k: Sink)
    requires pos < |buf| && left > 0 && Unfinished(buf, k, Parse(buf, pos, k))
    ensures ParseItems(buf, pos, left, k) == Parse(buf, pos, k)
  {
    hide Parse, Further;
    if Parse(buf, pos, k).Next? {
      assert ParseItems(buf, |buf|, left - 1, Parse(buf, pos, k).sink) == Parse(buf, pos, k);
    }
  }

  lemma ItemsEmpty(buf: Text, left: int, k: Sink)
    requires left > 0
    ensures Unfinished(buf, k, ParseItems(buf, |buf|, left, Opened(k, left)))
  {
  }

  lemma OpenedFurther(buf: Text, k: Sink, left: int, r: Parsed)
    requires Unfinished(buf, Opened(k, left), r)
    ensures Unfinished(buf, k, r)
  {
  }

  lemma {:induction false} NoticesNoSplit(m: Message, pos: nat)
    ensures NoSplit(NoticesOf(m, pos))
    decreases m, 0
  {
    if m.Array? {
      ItemsNoSplit(m.items, pos + |m.length| + 3);
    }
  }

  lemma {:induction false} ItemsNoSplit(items: seq<Message>, pos: nat)
    ensures NoSplit(NoticesOfItems(items, pos))
    decreases items, 1
  {
    if items != [] {
      NoticesNoSplit(items[0], pos);
      ItemsNoSplit(items[1..], pos + |Encode(items[0])|);
    }
  }

  lemma {:induction false} ParseItemsShort(buf: Text, pos: nat, items: seq<Message>, k: Sink)
    requires AllWellFormed(items) && items != [] && Short(buf, pos, EncodeItems(items))
    ensures Unfinished(buf, k, ParseItems(buf, pos, |items|, Opened(k, |items|)))
    decreases items, 1
  {
    hide Parse, ParseItems, Encode, EncodeItems, NoticesOf, NoticesOfItems, Completed, Opened, WellFormed, Unfinished, NoSplit, Further;
    var m, rest, left := items[0], items[1..], |items|;
    if pos == |buf| {
      ItemsEmpty(buf, left, k);
      return;
    }
    ItemsParts(items, pos);
    ShortFirst(buf, pos, Encode(m), EncodeItems(rest));
    if |buf| < pos + |Encode(m)| {
      ParseShort(buf, pos, m, Opened(k, left));
      ItemsStop(buf, pos, left, Opened(k, left));
      OpenedFurther(buf, k, left, Parse(buf, pos, Opened(k, left)));
    } else {
      var q, ns := pos + |Encode(m)|, NoticesOf(m, pos);
      ParseWhole(buf, pos, m, Opened(k, left));
      CompleteItem(k, left, ns, q);
      ItemsStep(buf, pos, left, Opened(k, left), q, Completed(Opened(k, left), ns, q));
      NoItems(q);
      ParseItemsShort(buf, q, rest, Told(k, ns));
      NoticesNoSplit(m, pos);
      FurtherTold(k, ns, k.stack);
      UnfinishedAfter(buf, k, Told(k, ns), ParseItems(buf, q, |rest|, Opened(Told(k, ns), |rest|)));
    }
  }

  lemma UnfinishedAfter(buf: Text, k: Sink, k1: Sink, r: Parsed)
    requires Further(k, k1) && k1.stack == k.stack && Unfinished(buf, k1, r)
    ensures Unfinished(buf, k, r)
  {
    FurtherTrans(k, k1, r.sink);
  }
}
