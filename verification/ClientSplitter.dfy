/** The client side of the splitter: strings are handed to the parser of the command under way, and
    every split point makes one request. */
module ClientSplitter {
  import opened Bytes
  import opened Resp
  import opened SlotCalc
  import opened SplitterModel
  import opened SplitterProofs
  import opened Streams
  import opened Commands
  import opened ClientRequests

  // ----- the parsers of the commands that span slots -----

  datatype Parser =
    | EachKey(kind: Kind, points: seq<nat>, slots: seq<bv16>)
    | Pairs(points: seq<nat>, slots: seq<bv16>, currentIsKey: bool)
    | Renaming(begin: nat, points: seq<nat>, keys: seq<Text>, bad: bool)

  /** `on_str` */
  function OnStr(buf: Text, p: Parser, begin: nat, end: nat): Parser {
    var key := Slice(buf, begin, end);
    match p
    case EachKey(kind, points, slots) => EachKey(kind, points + [end + 2], slots + [Slot(key)])
    case Pairs(points, slots, currentIsKey) =>
      Pairs(points + [end + 2], if currentIsKey then slots + [Slot(key)] else slots, !currentIsKey)
    case Renaming(from, points, keys, bad) =>
      if |keys| == 2 then p.(bad := true) else Renaming(from, points + [end + 2], keys + [key], bad)
  }

  /** "*2\r\n$3\r\n", the name and "\r\n" */
  function Header(count: Byte, name: Text): Text
    requires count < 10
  {
    [STAR] + ([ZERO + count] + CRLF) + ([DOLLAR] + ([ZERO + 3] + CRLF) + (name + CRLF))
  }

  /** Between two of the points the parser kept */
  function Span(buf: Text, points: seq<nat>, i: nat, j: nat): Text {
    if i < |points| && j < |points| then Slice(buf, points[i], points[j]) else []
  }

  function KeySubs(buf: Text, name: Text, points: seq<nat>, slots: seq<bv16>): seq<Sub> {
    seq(|slots|, i requires 0 <= i < |slots| => Sub(Header(2, name) + Span(buf, points, i, i + 1), slots[i]))
  }

  function PairedSubs(buf: Text, points: seq<nat>, slots: seq<bv16>): seq<Sub> {
    seq(|slots|, i requires 0 <= i < |slots| => Sub(Header(3, SET) + Span(buf, points, 2 * i, 2 * i + 2), slots[i]))
  }

  /** `spawn_commands` */
  function Spawn(buf: Text, p: Parser): Request {
    match p
    case EachKey(kind, points, slots) =>
      if slots == [] then Answer(WrongArguments(kind))
      else
        Fan(kind, KeySubs(buf, if kind == MGet then GET else DEL, points, slots))
    case Pairs(points, slots, currentIsKey) =>
      if slots == [] || !currentIsKey then Answer(WrongArguments(MSet))
      else
        Fan(MSet, PairedSubs(buf, points, slots))
    case Renaming(begin, points, keys, bad) =>
      if |keys| != 2 || bad then Answer(WrongArguments(Rename))
      else if Slot(keys[0]) == Slot(keys[1]) then Single(Slice(buf, begin, if |points| == 3 then points[2] else 0), Slot(keys[0]))
      else TwoSlots(Span(buf, points, 0, 1), Span(buf, points, 1, 2), Slot(keys[0]), Slot(keys[1]))
  }

  // ----- the consumer -----

  datatype Mode = Head | Key | Nop | Special(parser: Parser)

  /** `ClientCommandSplitter`; `key` are the bytes fed to its slot calculator. */
  datatype Consumer = Consumer(mode: Mode, begin: nat, key: Text, bad: bool, requests: seq<Request>)

  function Fresh(begin: nat, requests: seq<Request>): Consumer {
    Consumer(Head, begin, [], false, requests)
  }

  /** `select_command_parser` */
  function Select(table: Text -> Kind, buf: Text, c: Consumer, begin: nat, end: nat): Consumer {
    match table(UpperText(Slice(buf, begin, end)))
    case Standard => c.(bad := true, mode := Key)
    case MGet => c.(mode := Special(EachKey(MGet, [end + 2], [])))
    case Del => c.(mode := Special(EachKey(Del, [end + 2], [])))
    case MSet => c.(mode := Special(Pairs([end + 2], [], true)))
    case Rename => c.(mode := Special(Renaming(c.begin, [end + 2], [], false)))
    case _ => c.(bad := true, mode := Nop)
  }

  function OnString(table: Text -> Kind, buf: Text, c: Consumer, begin: nat, end: nat): Consumer {
    match c.mode
    case Head => Select(table, buf, c, begin, end)
    case Key => c.(bad := false, mode := Nop, key := c.key + Slice(buf, begin, end))
    case Nop => c
    case Special(p) => c.(mode := Special(OnStr(buf, p, begin, end)))
  }

  function OnSplit(buf: Text, c: Consumer, next: nat): Consumer {
    var request :=
      if c.bad then Answer(UnknownCommand())
      else if c.mode.Special? then Spawn(buf, c.mode.parser)
      else Single(Slice(buf, c.begin, next), Slot(c.key));
    Fresh(next, c.requests + [request])
  }

  function Consume(table: Text -> Kind, buf: Text, c: Consumer, n: Notice): Consumer {
    match n
    case Str(begin, end) => OnString(table, buf, c, begin, end)
    case Split(next) => OnSplit(buf, c, next)
    case _ => c
  }

  function ConsumeAll(table: Text -> Kind, buf: Text, c: Consumer, ns: seq<Notice>): Consumer
    decreases |ns|
  {
    if ns == [] then c else ConsumeAll(table, buf, Consume(table, buf, c, ns[0]), ns[1..])
  }

  /** `split_client_command`: the requests, and what stays in the buffer.  The requests before a bad byte
      have been pushed by the time it is met. */
  function SplitClient(table: Text -> Kind, buf: Text): (seq<Request>, Text) {
    match SplitAll(buf)
    case Bad(k) => (ConsumeAll(table, buf, Fresh(0, []), k.notices).requests, buf)
    case Undefined => ([], buf)
    case r =>
      (ConsumeAll(table, buf, Fresh(0, []), r.sink.notices).requests,
       Kept(buf, r))
  }

  lemma {:induction false} ConsumeConcat(table: Text -> Kind, buf: Text, c: Consumer, a: seq<Notice>, b: seq<Notice>)
    ensures ConsumeAll(table, buf, c, a + b) == ConsumeAll(table, buf, ConsumeAll(table, buf, c, a), b)
    decreases |a|
  {
    hide Consume;
    if a == [] {
      assert a + b == b;
    } else {
      assert (a + b)[1..] == a[1..] + b;
      ConsumeConcat(table, buf, Consume(table, buf, c, a[0]), a[1..], b);
    }
  }

  lemma ConsumeOne(table: Text -> Kind, buf: Text, c: Consumer, n: Notice)
    ensures ConsumeAll(table, buf, c, [n]) == Consume(table, buf, c, n)
  {
    hide Consume;
    assert [n][1..] == [];
  }

  lemma NoSplitOne(table: Text -> Kind, buf: Text, c: Consumer, n: Notice)
    requires !n.Split?
    ensures Consume(table, buf, c, n).requests == c.requests
  {
  }

  lemma {:induction false} NoSplitNoRequest(table: Text -> Kind, buf: Text, c: Consumer, ns: seq<Notice>)
    requires NoSplit(ns)
    ensures ConsumeAll(table, buf, c, ns).requests == c.requests
    decreases |ns|
  {
    hide Consume;
    if ns != [] {
      NoSplitOne(table, buf, c, ns[0]);
      NoSplitNoRequest(table, buf, Consume(table, buf, c, ns[0]), ns[1..]);
    }
  }

  // ----- the strings of one request -----

  /** A bulk string is told as its body, and the next one starts two bytes after it. */
  lemma BulkTold(buf: Text, pos: nat, m: Message)
    requires m.Bulk? && At(buf, pos, Encode(m))
    ensures var b := pos + |m.length| + 3;
            && NoticesOf(m, pos) == [Str(b, b + |m.body|)] && b + |m.body| + 2 == pos + |Encode(m)|
            && Slice(buf, b, b + |m.body|) == m.body
  {
    AtFirst(buf, pos, [DOLLAR] + (m.length + CRLF), m.body + CRLF);
    AtFirst(buf, pos + |m.length| + 3, m.body, CRLF);
  }

  /** The first of some bulk strings is told as its body; the others follow. */
  lemma FirstTold(table: Text -> Kind, buf: Text, c: Consumer, items: seq<Message>, pos: nat)
    requires AllBulk(items) && items != [] && At(buf, pos, EncodeItems(items))
    ensures var m, q, b := items[0], pos + |Encode(items[0])|, pos + |items[0].length| + 3;
            && At(buf, q, EncodeItems(items[1..])) && b + |m.body| + 2 == q && Slice(buf, b, b + |m.body|) == m.body
            && ConsumeAll(table, buf, c, NoticesOfItems(items, pos)) ==
                 ConsumeAll(table, buf, OnString(table, buf, c, b, b + |m.body|), NoticesOfItems(items[1..], q))
  {
    hide Encode, At, Slice, NoticesOf, OnString, EncodeItems, NoticesOfItems, ConsumeAll;
    var m, rest, q := items[0], items[1..], pos + |Encode(items[0])|;
    ItemsParts(items, pos);
    AtFirst(buf, pos, Encode(m), EncodeItems(rest));
    BulkTold(buf, pos, m);
    ConsumeConcat(table, buf, c, NoticesOf(m, pos), NoticesOfItems(rest, q));
    ConsumeOne(table, buf, c, NoticesOf(m, pos)[0]);
  }

  /** The arguments are handed on one by one. */
  function HandOn(buf: Text, p: Parser, items: seq<Message>, pos: nat): Parser
    requires AllBulk(items)
    decreases |items|
  {
    if items == [] then p
    else
      var m, b := items[0], pos + |items[0].length| + 3;
      HandOn(buf, OnStr(buf, p, b, b + |m.body|), items[1..], pos + |Encode(m)|)
  }

  lemma {:induction false} SpecialItems(table: Text -> Kind, buf: Text, c: Consumer, items: seq<Message>, pos: nat)
    requires AllBulk(items) && At(buf, pos, EncodeItems(items)) && c.mode.Special?
    ensures ConsumeAll(table, buf, c, NoticesOfItems(items, pos)) == c.(mode := Special(HandOn(buf, c.mode.parser, items, pos)))
    decreases |items|
  {
    hide Encode, At, OnStr, Slice, EncodeItems, ConsumeAll, NoticesOf;
    if items == [] {
      NothingConsumed(table, buf, c);
    } else {
      var b := pos + |items[0].length| + 3;
      FirstTold(table, buf, c, items, pos);
      SpecialItems(table, buf, c.(mode := Special(OnStr(buf, c.mode.parser, b, b + |items[0].body|))), items[1..], pos + |Encode(items[0])|);
    }
  }

  lemma {:induction false} NopItems(table: Text -> Kind, buf: Text, c: Consumer, items: seq<Message>, pos: nat)
    requires AllBulk(items) && c.mode.Nop?
    ensures ConsumeAll(table, buf, c, NoticesOfItems(items, pos)) == c
    decreases |items|
  {
    hide Encode;
    if items != [] {
      var q := pos + |Encode(items[0])|;
      var ns := NoticesOf(items[0], pos);
      ConsumeConcat(table, buf, c, ns, NoticesOfItems(items[1..], q));
      ConsumeOne(table, buf, c, ns[0]);
      NopItems(table, buf, c, items[1..], q);
    }
  }

  // ----- what the parsers make of the arguments -----

  function SlotsOf(items: seq<Message>): seq<bv16> {
    seq(|items|, i requires 0 <= i < |items| => Slot(KeyOf(items[i])))
  }

  /** One argument, handed to a parser */
  lemma HandOnOne(buf: Text, p: Parser, items: seq<Message>, pos: nat)
    requires AllBulk(items) && items != [] && At(buf, pos, EncodeItems(items))
    ensures var m, q := items[0], pos + |Encode(items[0])|;
            && At(buf, q, EncodeItems(items[1..]))
            && HandOn(buf, p, items, pos) ==
                 HandOn(buf,
                        match p
                        case EachKey(kind, points, slots) => EachKey(kind, points + [q], slots + [Slot(m.body)])
                        case Pairs(points, slots, isKey) => Pairs(points + [q], if isKey then slots + [Slot(m.body)] else slots, !isKey)
                        case Renaming(begin, points, keys, bad) =>
                          if |keys| == 2 then p.(bad := true) else Renaming(begin, points + [q], keys + [m.body], bad),
                        items[1..], q)
  {
    hide Encode, At, Slice, Slot;
    AtFirst(buf, pos, Encode(items[0]), EncodeItems(items[1..]));
    BulkTold(buf, pos, items[0]);
  }

  lemma BoundariesOne(items: seq<Message>, pos: nat)
    requires items != []
    ensures Boundaries(items, |items|, pos) ==
              [pos + |Encode(items[0])|] + Boundaries(items[1..], |items| - 1, pos + |Encode(items[0])|)
  {
  }

  lemma {:induction false} EachKeyHandsOn(buf: Text, p: Parser, items: seq<Message>, pos: nat)
    requires p.EachKey? && AllBulk(items) && At(buf, pos, EncodeItems(items))
    ensures HandOn(buf, p, items, pos) == EachKey(p.kind, p.points + Boundaries(items, |items|, pos), p.slots + SlotsOf(items))
    decreases |items|
  {
    hide Encode, At, Slot, EncodeItems, OnStr;
    if items == [] {
      assert p.points + [] == p.points && p.slots + SlotsOf([]) == p.slots;
    } else {
      var m, rest, q := items[0], items[1..], pos + |Encode(items[0])|;
      HandOnOne(buf, p, items, pos);
      EachKeyHandsOn(buf, EachKey(p.kind, p.points + [q], p.slots + [Slot(m.body)]), rest, q);
      BoundariesOne(items, pos);
      assert p.points + [q] + Boundaries(rest, |rest|, q) == p.points + ([q] + Boundaries(rest, |rest|, q));
      assert p.slots + [Slot(m.body)] + SlotsOf(rest) == p.slots + SlotsOf(items);
    }
  }

  function KeySlots(items: seq<Message>, currentIsKey: bool): seq<bv16> {
    if items == [] then []
    else (if currentIsKey then [Slot(KeyOf(items[0]))] else []) + KeySlots(items[1..], !currentIsKey)
  }

  lemma Assoc<T>(a: seq<T>, b: seq<T>, c: seq<T>)
    ensures a + b + c == a + (b + c)
  {
  }

  lemma {:induction false} PairsHandOn(buf: Text, p: Parser, items: seq<Message>, pos: nat)
    requires p.Pairs? && AllBulk(items) && At(buf, pos, EncodeItems(items))
    ensures HandOn(buf, p, items, pos) ==
              Pairs(p.points + Boundaries(items, |items|, pos), p.slots + KeySlots(items, p.currentIsKey),
                    p.currentIsKey == (|items| % 2 == 0))
    decreases |items|
  {
    hide Encode, At, Slot, EncodeItems, OnStr;
    if items == [] {
      assert p.points + [] == p.points && p.slots + [] == p.slots;
    } else {
      PairsHandOnMore(buf, p, items, pos);
    }
  }

  lemma {:induction false} PairsHandOnMore(buf: Text, p: Parser, items: seq<Message>, pos: nat)
    requires p.Pairs? && AllBulk(items) && items != [] && At(buf, pos, EncodeItems(items))
    ensures HandOn(buf, p, items, pos) ==
              Pairs(p.points + Boundaries(items, |items|, pos), p.slots + KeySlots(items, p.currentIsKey),
                    p.currentIsKey == (|items| % 2 == 0))
    decreases |items|, 0
  {
    hide Encode, At, Slot, EncodeItems, OnStr, HandOn, Boundaries;
    var m, rest, q := items[0], items[1..], pos + |Encode(items[0])|;
    var first := if p.currentIsKey then [Slot(m.body)] else [];
    HandOnOne(buf, p, items, pos);
    BoundariesOne(items, pos);
    PairsHandOn(buf, Pairs(p.points + [q], p.slots + first, !p.currentIsKey), rest, q);
    assert p.slots + [] == p.slots;
    Assoc(p.points, [q], Boundaries(rest, |rest|, q));
    Assoc(p.slots, first, KeySlots(rest, !p.currentIsKey));
  }

  lemma {:induction false} KeySlotsAt(items: seq<Message>)
    ensures |KeySlots(items, true)| == (|items| + 1) / 2
    ensures forall i :: 0 <= i < (|items| + 1) / 2 ==> KeySlots(items, true)[i] == Slot(KeyOf(items[2 * i]))
    decreases |items|
  {
    hide Slot;
    if |items| == 1 {
      assert KeySlots(items[1..], false) == [];
    } else if |items| > 1 {
      var rest := items[2..];
      KeySlotsAt(rest);
      assert items[1..][1..] == rest;
      assert KeySlots(items[1..], false) == KeySlots(rest, true);
      assert KeySlots(items, true) == [Slot(KeyOf(items[0]))] + KeySlots(rest, true);
      forall i | 0 <= i < (|items| + 1) / 2 ensures KeySlots(items, true)[i] == Slot(KeyOf(items[2 * i])) {
        if i > 0 {
          assert items[2 * i] == rest[2 * (i - 1)];
          assert KeySlots(items, true)[i] == KeySlots(rest, true)[i - 1];
        }
      }
    }
  }

  lemma {:induction false} RenamingHandsOn(buf: Text, p: Parser, items: seq<Message>, pos: nat)
    requires p.Renaming? && |p.keys| + |items| <= 2 && AllBulk(items) && At(buf, pos, EncodeItems(items))
    ensures HandOn(buf, p, items, pos) ==
              Renaming(p.begin, p.points + Boundaries(items, |items|, pos), p.keys + Bodies(items), p.bad)
    decreases |items|
  {
    hide Encode, At, EncodeItems, OnStr;
    if items == [] {
      assert p.points + [] == p.points && p.keys + Bodies(items) == p.keys;
    } else {
      var m, rest, q := items[0], items[1..], pos + |Encode(items[0])|;
      HandOnOne(buf, p, items, pos);
      RenamingHandsOn(buf, Renaming(p.begin, p.points + [q], p.keys + [m.body], p.bad), rest, q);
      BoundariesOne(items, pos);
      assert p.points + [q] + Boundaries(rest, |rest|, q) == p.points + ([q] + Boundaries(rest, |rest|, q));
      assert p.keys + [m.body] + Bodies(rest) == p.keys + Bodies(items);
    }
  }

  lemma {:induction false} RenamingStaysBad(buf: Text, p: Parser, items: seq<Message>, pos: nat)
    requires p.Renaming? && |p.keys| == 2 && AllBulk(items) && (p.bad || items != [])
    ensures var r := HandOn(buf, p, items, pos); r.Renaming? && r.bad
    decreases |items|
  {
    hide Encode, Slice;
    if items != [] {
      var b := pos + |items[0].length| + 3;
      RenamingStaysBad(buf, OnStr(buf, p, b, b + |items[0].body|), items[1..], pos + |Encode(items[0])|);
    }
  }

  lemma RenamingTooMany(buf: Text, p: Parser, items: seq<Message>, pos: nat)
    requires p.Renaming? && p.keys == [] && AllBulk(items) && |items| > 2
    ensures var r := HandOn(buf, p, items, pos); r.Renaming? && r.bad
  {
    hide Encode, Slice;
    var m, b, q := items[0], pos + |items[0].length| + 3, pos + |Encode(items[0])|;
    var p1, rest := OnStr(buf, p, b, b + |m.body|), items[1..];
    assert HandOn(buf, p, items, pos) == HandOn(buf, p1, rest, q);
    var n, b2, q2 := rest[0], q + |rest[0].length| + 3, q + |Encode(rest[0])|;
    var p2 := OnStr(buf, p1, b2, b2 + |n.body|);
    assert HandOn(buf, p1, rest, q) == HandOn(buf, p2, rest[1..], q2);
    RenamingStaysBad(buf, p2, rest[1..], q2);
  }

  // ----- cutting the arguments out of the buffer -----

  lemma {:induction false} EncodedUpTo(items: seq<Message>, j: nat)
    requires j <= |items|
    ensures Offset(items, j) <= |EncodeItems(items)| && EncodeItems(items)[..Offset(items, j)] == EncodeItems(items[..j])
    decreases j
  {
    hide Encode;
    if j > 0 {
      EncodedUpTo(items[1..], j - 1);
      assert items[..j][1..] == items[1..][..j - 1];
      var e, rest, o := Encode(items[0]), EncodeItems(items[1..]), Offset(items[1..], j - 1);
      assert (e + rest)[..|e| + o] == e + rest[..o];
    }
  }

  lemma Shifted(e: Text, rest: Text, a: nat, b: nat)
    requires a <= b <= |rest|
    ensures (e + rest)[|e| + a..|e| + b] == rest[a..b]
  {
  }

  lemma {:induction false} EncodedBetween(items: seq<Message>, i: nat, j: nat)
    requires i <= j <= |items|
    ensures Offset(items, i) <= Offset(items, j) <= |EncodeItems(items)|
    ensures EncodeItems(items)[Offset(items, i)..Offset(items, j)] == EncodeItems(items[i..j])
    decreases i
  {
    hide Encode, EncodeItems;
    EncodedUpTo(items, j);
    if i == 0 {
      assert items[0..j] == items[..j];
      assert EncodeItems(items)[0..Offset(items, j)] == EncodeItems(items)[..Offset(items, j)];
    } else {
      EncodedBetween(items[1..], i - 1, j - 1);
      assert items[1..][i - 1..j - 1] == items[i..j];
      ItemsParts(items, 0);
      Shifted(Encode(items[0]), EncodeItems(items[1..]), Offset(items[1..], i - 1), Offset(items[1..], j - 1));
    }
  }

  lemma {:induction false} BoundaryAt(items: seq<Message>, n: nat, pos: nat, i: nat)
    requires i <= n <= |items|
    ensures |Boundaries(items, n, pos)| == n && ([pos] + Boundaries(items, n, pos))[i] == pos + Offset(items, i)
    decreases n
  {
    hide Encode;
    if n > 0 {
      var q := pos + |Encode(items[0])|;
      BoundaryAt(items[1..], n - 1, q, if i == 0 then 0 else i - 1);
      assert [pos] + Boundaries(items, n, pos) == [pos] + ([q] + Boundaries(items[1..], n - 1, q));
    }
  }

  lemma SliceIn(buf: Text, pos: nat, text: Text, a: nat, b: nat)
    requires At(buf, pos, text) && a <= b <= |text|
    ensures Slice(buf, pos + a, pos + b) == text[a..b]
  {
    assert text == text[..a] + text[a..] && text[a..] == text[a..b] + text[b..];
    AtFirst(buf, pos, text[..a], text[a..]);
    AtFirst(buf, pos + a, text[a..b], text[b..]);
  }

  /** The bytes between two points are the encoding of the arguments between them. */
  lemma SpanItems(buf: Text, pos: nat, items: seq<Message>, i: nat, j: nat)
    requires i <= j <= |items| && At(buf, pos, EncodeItems(items))
    ensures Span(buf, [pos] + Boundaries(items, |items|, pos), i, j) == EncodeItems(items[i..j])
  {
    hide Boundaries, Offset, EncodeItems, At, Slice;
    BoundaryAt(items, |items|, pos, i);
    BoundaryAt(items, |items|, pos, j);
    EncodedBetween(items, i, j);
    SliceIn(buf, pos, EncodeItems(items), Offset(items, i), Offset(items, j));
  }

  lemma ItemAlone(m: Message)
    ensures EncodeItems([m]) == Encode(m)
  {
    assert [m][1..] == [];
  }

  lemma HeaderEncodes(name: Text, args: seq<Message>)
    requires |name| == 3 && 1 <= |args| <= 2
    ensures Header(if |args| == 1 then 2 else 3, name) + EncodeItems(args) == Encode(NodeCommand(name, args))
  {
    hide EncodeItems;
    var head := Bulk([ZERO + 3], name);
    var count: Byte := if |args| == 1 then 2 else 3;
    ItemsAfter(head, args);
    BulkEncodes(head);
    Assoc([STAR] + ([ZERO + count] + CRLF), [DOLLAR] + ([ZERO + 3] + CRLF) + (name + CRLF), EncodeItems(args));
  }

  lemma BulkEncodes(m: Message)
    requires m.Bulk?
    ensures Encode(m) == [DOLLAR] + (m.length + CRLF) + (m.body + CRLF)
  {
  }

  // ----- what each parser spawns -----

  lemma KeySubsRight(buf: Text, pos: nat, items: seq<Message>, name: Text)
    requires |name| == 3 && At(buf, pos, EncodeItems(items))
    ensures KeySubs(buf, name, [pos] + Boundaries(items, |items|, pos), SlotsOf(items)) == EachKeySubs(name, items)
  {
    hide Encode, EncodeItems, At, Slot, Header, Span, NodeCommand, Boundaries;
    var points := [pos] + Boundaries(items, |items|, pos);
    forall i | 0 <= i < |items|
      ensures Header(2, name) + Span(buf, points, i, i + 1) == Encode(NodeCommand(name, [items[i]]))
    {
      SpanItems(buf, pos, items, i, i + 1);
      assert items[i..i + 1] == [items[i]];
      HeaderEncodes(name, [items[i]]);
    }
  }

  lemma SpawnEachKey(buf: Text, pos: nat, items: seq<Message>, kind: Kind)
    requires (kind == MGet || kind == Del) && AllBulk(items) && At(buf, pos, EncodeItems(items))
    ensures Spawn(buf, HandOn(buf, EachKey(kind, [pos], []), items, pos)) ==
              if items == [] then Answer(WrongArguments(kind)) else Fan(kind, EachKeySubs(if kind == MGet then GET else DEL, items))
  {
    hide EncodeItems, At, HandOn, KeySubs, EachKeySubs, Boundaries, WrongArguments;
    EachKeyHandsOn(buf, EachKey(kind, [pos], []), items, pos);
    assert [] + SlotsOf(items) == SlotsOf(items);
    KeySubsRight(buf, pos, items, if kind == MGet then GET else DEL);
  }

  lemma PairedSubsRight(buf: Text, pos: nat, items: seq<Message>)
    requires |items| % 2 == 0 && At(buf, pos, EncodeItems(items))
    ensures PairedSubs(buf, [pos] + Boundaries(items, |items|, pos), KeySlots(items, true)) == PairSubs(items)
  {
    hide Encode, EncodeItems, At, Slot, Header, Span, NodeCommand, Boundaries, KeySlots;
    var points := [pos] + Boundaries(items, |items|, pos);
    KeySlotsAt(items);
    forall i | 0 <= i < |items| / 2
      ensures Header(3, SET) + Span(buf, points, 2 * i, 2 * i + 2) == Encode(NodeCommand(SET, items[2 * i..2 * i + 2]))
    {
      SpanItems(buf, pos, items, 2 * i, 2 * i + 2);
      HeaderEncodes(SET, items[2 * i..2 * i + 2]);
    }
  }

  lemma SpawnPairs(buf: Text, pos: nat, items: seq<Message>)
    requires AllBulk(items) && At(buf, pos, EncodeItems(items))
    ensures Spawn(buf, HandOn(buf, Pairs([pos], [], true), items, pos)) ==
              if items == [] || |items| % 2 == 1 then Answer(WrongArguments(MSet)) else Fan(MSet, PairSubs(items))
  {
    hide EncodeItems, At, HandOn, PairedSubs, PairSubs, Boundaries, WrongArguments, KeySlots;
    PairsHandOn(buf, Pairs([pos], [], true), items, pos);
    KeySlotsAt(items);
    assert [] + KeySlots(items, true) == KeySlots(items, true);
    if items != [] && |items| % 2 == 0 {
      PairedSubsRight(buf, pos, items);
    }
  }

  lemma SpawnRename(buf: Text, begin: nat, pos: nat, m: Message)
    requires m.Array? && m.items != [] && AllBulk(m.items) && At(buf, begin, Encode(m))
    requires pos == begin + |m.length| + 3 + |Encode(m.items[0])| && At(buf, pos, EncodeItems(m.items[1..]))
    ensures var items := m.items[1..];
            Spawn(buf, HandOn(buf, Renaming(begin, [pos], [], false), items, pos)) ==
              if |items| != 2 then Answer(WrongArguments(Rename))
              else
                var a, b := Slot(KeyOf(items[0])), Slot(KeyOf(items[1]));
                if a == b then Single(Encode(m), a) else TwoSlots(Encode(items[0]), Encode(items[1]), a, b)
  {
    hide EncodeItems, At, HandOn, Boundaries, WrongArguments, Span, Encode, Slot;
    var items, p := m.items[1..], Renaming(begin, [pos], [], false);
    if |items| > 2 {
      RenamingTooMany(buf, p, items, pos);
    } else {
      RenamingHandsOn(buf, p, items, pos);
      assert [] + Bodies(items) == Bodies(items);
      if |items| == 2 {
        SpanItems(buf, pos, items, 0, 1);
        SpanItems(buf, pos, items, 1, 2);
        assert items[0..1] == [items[0]] && items[1..2] == [items[1]];
        ItemAlone(items[0]);
        ItemAlone(items[1]);
        RenameEnd(buf, begin, pos, m);
      }
    }
  }

  /** The second key of a RENAME ends where the message does. */
  lemma RenameEnd(buf: Text, begin: nat, pos: nat, m: Message)
    requires m.Array? && |m.items| == 3 && At(buf, begin, Encode(m)) && pos == begin + |m.length| + 3 + |Encode(m.items[0])|
    ensures var points := [pos] + Boundaries(m.items[1..], 2, pos);
            |points| == 3 && Slice(buf, begin, points[2]) == Encode(m)
  {
    var items := m.items[1..];
    assert EncodeItems(m.items) == Encode(m.items[0]) + EncodeItems(items);
    BoundaryAt(items, 2, pos, 2);
    EncodedUpTo(items, 2);
    assert items[..2] == items;
  }

  // ----- whole requests -----

  /** The first string of a request selects how it is handled. */
  lemma HeadTold(table: Text -> Kind, buf: Text, pos: nat, m: Message, c: Consumer)
    requires IsRequest(table, m) && At(buf, pos, Encode(m)) && c.mode == Head
    ensures var q := pos + |m.length| + 3; var next := q + |Encode(m.items[0])|; var b := q + |m.items[0].length| + 3;
            && At(buf, next, EncodeItems(m.items[1..])) && b + |m.items[0].body| + 2 == next
            && Slice(buf, b, b + |m.items[0].body|) == m.items[0].body
            && ConsumeAll(table, buf, c, NoticesOf(m, pos)) ==
                 ConsumeAll(table, buf, Select(table, buf, c, b, b + |m.items[0].body|), NoticesOfItems(m.items[1..], next))
  {
    hide At, Slice, Select, Encode, EncodeItems, NoticesOf, NoticesOfItems, ConsumeAll;
    ArrayTold(table, buf, pos, m, c);
    FirstTold(table, buf, c, m.items, pos + |m.length| + 3);
  }

  lemma ArrayTold(table: Text -> Kind, buf: Text, pos: nat, m: Message, c: Consumer)
    requires m.Array? && At(buf, pos, Encode(m))
    ensures var q := pos + |m.length| + 3;
            && At(buf, q, EncodeItems(m.items))
            && ConsumeAll(table, buf, c, NoticesOf(m, pos)) == ConsumeAll(table, buf, c, NoticesOfItems(m.items, q))
  {
    hide At, EncodeItems, NoticesOfItems, ConsumeAll;
    var q := pos + |m.length| + 3;
    AtFirst(buf, pos, [STAR] + (m.length + CRLF), EncodeItems(m.items));
    ConsumeConcat(table, buf, c, [Arr(|m.items|)], NoticesOfItems(m.items, q));
    ConsumeOne(table, buf, c, Arr(|m.items|));
  }

  /** A command with one key: the first argument, if any, is fed to the slot calculator. */
  lemma KeyItems(table: Text -> Kind, buf: Text, c: Consumer, items: seq<Message>, pos: nat)
    requires c.mode == Key && c.key == [] && AllBulk(items) && At(buf, pos, EncodeItems(items))
    ensures ConsumeAll(table, buf, c, NoticesOfItems(items, pos)) ==
              if items == [] then c else c.(bad := false, mode := Nop, key := items[0].body)
  {
    hide At, Slice, Encode, EncodeItems, ConsumeAll, NoticesOf;
    if items == [] {
      NothingConsumed(table, buf, c);
    } else {
      var m, q := items[0], pos + |Encode(items[0])|;
      FirstTold(table, buf, c, items, pos);
      assert [] + m.body == m.body;
      NopItems(table, buf, c.(bad := false, mode := Nop, key := m.body), items[1..], q);
    }
  }

  /** A request is consumed, and the split point after it makes exactly what the request means. */
  lemma RequestConsumed(table: Text -> Kind, buf: Text, pos: nat, m: Message, requests: seq<Request>)
    requires IsRequest(table, m) && At(buf, pos, Encode(m))
    ensures var next := pos + |Encode(m)|;
            OnSplit(buf, ConsumeAll(table, buf, Fresh(pos, requests), NoticesOf(m, pos)), next) ==
              Fresh(next, requests + [RequestOf(table, m)])
  {
    hide At, Slice, Encode, EncodeItems, Slot, ConsumeAll, NoticesOf, NoticesOfItems, HandOn, Spawn,
         EachKeySubs, PairSubs, WrongArguments, UnknownCommand, UpperText;
    var c, first, args := Fresh(pos, requests), m.items[0], m.items[1..];
    var q := pos + |m.length| + 3;
    var next, b := q + |Encode(first)|, q + |first.length| + 3;
    HeadTold(table, buf, pos, m, c);
    SliceAt(buf, pos, Encode(m));
    var c1 := Select(table, buf, c, b, b + |first.body|);
    match table(UpperText(first.body))
    case Standard => KeyItems(table, buf, c1, args, next);
    case MGet =>
      SpecialItems(table, buf, c1, args, next);
      SpawnEachKey(buf, next, args, MGet);
    case Del =>
      SpecialItems(table, buf, c1, args, next);
      SpawnEachKey(buf, next, args, Del);
    case MSet =>
      SpecialItems(table, buf, c1, args, next);
      SpawnPairs(buf, next, args);
    case Rename =>
      SpecialItems(table, buf, c1, args, next);
      SpawnRename(buf, pos, next, m);
    case Unknown => NopItems(table, buf, c1, args, next);
  }

  // ----- streams of requests -----

  predicate AllRequests(table: Text -> Kind, ms: seq<Message>) {
    forall i :: 0 <= i < |ms| ==> IsRequest(table, ms[i])
  }

  /** One request for each message. */
  lemma {:induction false} StreamConsumed(table: Text -> Kind, buf: Text, pos: nat, ms: seq<Message>, j: nat, requests: seq<Request>)
    requires Holds(buf, pos, ms, j) && AllRequests(table, ms)
    ensures ConsumeAll(table, buf, Fresh(pos, requests), NoticesOfStream(ms, j, pos)).requests ==
              requests + Outputs(m => RequestOf(table, m), ms, j)
    decreases j
  {
    hide At, Encode, NoticesOf, RequestOf, IsRequest, OnSplit, ConsumeAll;
    if j == 0 {
      assert requests + [] == requests;
      NothingConsumed(table, buf, Fresh(pos, requests));
    } else {
      var m, next, c := ms[0], pos + |Encode(ms[0])|, Fresh(pos, requests);
      var ns, rest := NoticesOf(m, pos), NoticesOfStream(ms[1..], j - 1, next);
      RequestConsumed(table, buf, pos, m, requests);
      ConsumeConcat(table, buf, c, ns + [Split(next)], rest);
      ConsumeConcat(table, buf, c, ns, [Split(next)]);
      ConsumeOne(table, buf, ConsumeAll(table, buf, c, ns), Split(next));
      StreamConsumed(table, buf, next, ms[1..], j - 1, requests + [RequestOf(table, m)]);
      var out := x => RequestOf(table, x);
      assert requests + [RequestOf(table, m)] + Outputs(out, ms[1..], j - 1) == requests + ([RequestOf(table, m)] + Outputs(out, ms[1..], j - 1));
    }
  }

  lemma NothingConsumed(table: Text -> Kind, buf: Text, c: Consumer)
    ensures ConsumeAll(table, buf, c, []) == c
  {
  }

  lemma StreamRequests(table: Text -> Kind, buf: Text, ms: seq<Message>, k: Sink)
    requires Carries(buf, 0, ms) && AllRequests(table, ms)
    requires var told := NoticesOfStream(ms, Whole(ms, |buf|), 0);
             told <= k.notices && NoSplit(k.notices[|told|..])
    ensures ConsumeAll(table, buf, Fresh(0, []), k.notices).requests == Outputs(m => RequestOf(table, m), ms, Whole(ms, |buf|))
  {
    hide Carries, Whole, ConsumeAll, NoticesOfStream, NoSplit, RequestOf, AllRequests, Holds;
    var j, c := Whole(ms, |buf|), Fresh(0, []);
    var told := NoticesOfStream(ms, j, 0);
    assert k.notices == told + k.notices[|told|..];
    ConsumeConcat(table, buf, c, told, k.notices[|told|..]);
    WholeHolds(buf, 0, ms, j);
    StreamConsumed(table, buf, 0, ms, j, []);
    NoSplitNoRequest(table, buf, ConsumeAll(table, buf, c, told), k.notices[|told|..]);
    var out := m => RequestOf(table, m);
    assert [] + Outputs(out, ms, j) == Outputs(out, ms, j);
  }

  /** On a prefix of a stream of requests: one request for each whole message, and the incomplete
      one stays in the buffer. */
  lemma ClientSplits(table: Text -> Kind, buf: Text, ms: seq<Message>)
    requires AllWellFormed(ms) && AllRequests(table, ms) && Carries(buf, 0, ms)
    ensures SplitClient(table, buf) == (Outputs(m => RequestOf(table, m), ms, Whole(ms, |buf|)), Tail(buf, ms))
  {
    hide Carries, Whole, ConsumeAll, NoticesOfStream, NoSplit, SplitFrom, RequestOf, Tail, Kept, AllRequests;
    KeptTail(buf, ms);
    StreamRequests(table, buf, ms, SplitAll(buf).sink);
  }

  /** When a bad byte follows some requests, they are pushed, each as what it means, before it is met. */
  lemma GarbledSplits(table: Text -> Kind, buf: Text, ms: seq<Message>)
    requires AllWellFormed(ms) && AllRequests(table, ms) && Garbled(buf, 0, ms)
    ensures SplitAll(buf).Bad? && SplitClient(table, buf) == (Outputs(m => RequestOf(table, m), ms, |ms|), buf)
  {
    hide ConsumeAll, NoticesOfStream, SplitFrom, RequestOf, AllRequests, Holds;
    EncodedHolds(buf, 0, ms);
    SplitGarbled(buf, 0, ms, Start());
    var told := NoticesOfStream(ms, |ms|, 0);
    assert Start().notices + told == told;
    StreamConsumed(table, buf, 0, ms, |ms|, []);
    var out := m => RequestOf(table, m);
    assert [] + Outputs(out, ms, |ms|) == Outputs(out, ms, |ms|);
  }

  lemma ClientCuts(table: Text -> Kind)
    ensures Cuts(buf => SplitClient(table, buf), m => RequestOf(table, m), m => IsRequest(table, m))
  {
    hide SplitClient, Carries, Outputs, RequestOf, IsRequest;
    forall buf: Text, ms: seq<Message> | Each(m => IsRequest(table, m), ms) && Carries(buf, 0, ms)
      ensures SplitClient(table, buf) == (Outputs(m => RequestOf(table, m), ms, Whole(ms, |buf|)), Tail(buf, ms))
    {
      ClientSplits(table, buf, ms);
    }
  }

  /** A client connection: however its requests are cut by the network, each whole one is handled as
      what it means, in order, and exactly the incomplete one is kept. */
  lemma ClientAnyChunks(table: Text -> Kind, ms: seq<Message>, chunks: seq<Text>)
    requires AllWellFormed(ms) && AllRequests(table, ms) && Concat(chunks) <= EncodeItems(ms)
    ensures FeedAll(buf => SplitClient(table, buf), [], chunks) ==
              (Outputs(m => RequestOf(table, m), ms, Whole(ms, |Concat(chunks)|)), Tail(Concat(chunks), ms))
  {
    hide SplitClient, Outputs, RequestOf, Tail, IsRequest;
    ClientCuts(table);
    assert [] + Concat(chunks) == Concat(chunks) == Concat(chunks)[0..];
    NothingWhole(ms);
    AnyChunks(buf => SplitClient(table, buf), m => RequestOf(table, m), m => IsRequest(table, m), ms, [], chunks);
  }
}
