/** Commands as RESP arrays of bulk strings: printing them, and reading the print back. */
module Commands {
  import opened Bytes
  import opened Resp
  import opened DecimalText
  import opened SplitterModel
  import opened SplitterProofs
  import opened Streams

  function BulkOf(s: Text): Message {
    Bulk(Numeral(|s|), s)
  }

  function Bulks(args: seq<Text>): seq<Message> {
    seq(|args|, i requires 0 <= i < |args| => BulkOf(args[i]))
  }

  /** A command and its arguments as a message */
  function CommandOf(command: Text, args: seq<Text>): Message {
    Array(Numeral(|args| + 1), Bulks([command] + args))
  }

  lemma CommandWellFormed(command: Text, args: seq<Text>)
    ensures WellFormed(CommandOf(command, args))
  {
    hide Numeral;
    var m := CommandOf(command, args);
    NumeralReads(|args| + 1);
    forall i | 0 <= i < |m.items| ensures WellFormed(m.items[i]) {
      NumeralReads(|m.items[i].body|);
    }
  }

  // ----- format_command -----

  /** Every line, each followed by the separator */
  function Terminated(sep: Text, lines: seq<Text>): Text {
    if lines == [] then [] else lines[0] + sep + Terminated(sep, lines[1..])
  }

  lemma {:induction false} TerminatedConcat(sep: Text, a: seq<Text>, b: seq<Text>)
    ensures Terminated(sep, a + b) == Terminated(sep, a) + Terminated(sep, b)
  {
    if a == [] {
      assert a + b == b;
    } else {
      assert (a + b)[1..] == a[1..] + b;
      TerminatedConcat(sep, a[1..], b);
    }
  }

  lemma TerminatedSnoc(sep: Text, lines: seq<Text>, i: nat)
    requires i < |lines|
    ensures Terminated(sep, lines[..i + 1]) == Terminated(sep, lines[..i]) + lines[i] + sep
  {
    assert lines[..i + 1] == lines[..i] + [lines[i]];
    assert [lines[i]][1..] == [];
    TerminatedConcat(sep, lines[..i], [lines[i]]);
    assert Terminated(sep, [lines[i]]) == lines[i] + sep;
  }

  /** `util::join` */
  method Join(sep: Text, values: seq<Text>) returns (r: Text)
    ensures values == [] ==> r == []
    ensures values != [] ==> r + sep == Terminated(sep, values)
  {
    hide Terminated;
    if values == [] {
      return [];
    }
    r := values[0];
    TerminatedSnoc(sep, values, 0);
    TerminatedNone(sep, values[..0]);
    assert values[..1] == values[..0 + 1];
    for i := 1 to |values|
      invariant r + sep == Terminated(sep, values[..i])
    {
      TerminatedSnoc(sep, values, i);
      assert r + sep + values[i] + sep == r + (sep + values[i]) + sep;
      r := r + (sep + values[i]);
    }
    assert values[..|values|] == values;
  }

  lemma TerminatedNone(sep: Text, lines: seq<Text>)
    requires lines == []
    ensures Terminated(sep, lines) == []
  {
  }

  function ArgLines(args: seq<Text>): seq<Text> {
    if args == [] then [] else [[DOLLAR] + Numeral(|args[0]|), args[0]] + ArgLines(args[1..])
  }

  lemma {:induction false} ArgLinesConcat(a: seq<Text>, b: seq<Text>)
    ensures ArgLines(a + b) == ArgLines(a) + ArgLines(b)
  {
    if a == [] {
      assert a + b == b;
    } else {
      assert (a + b)[1..] == a[1..] + b;
      ArgLinesConcat(a[1..], b);
    }
  }

  lemma TwoLines(a: Text, b: Text)
    ensures Terminated(CRLF, [a, b]) == a + CRLF + (b + CRLF)
  {
    assert [a, b][1..] == [b] && [b][1..] == [];
    assert Terminated(CRLF, [b]) == b + CRLF + Terminated(CRLF, []);
    assert Terminated(CRLF, [a, b]) == a + CRLF + Terminated(CRLF, [b]);
  }

  lemma {:induction false} ArgLinesEncode(args: seq<Text>)
    ensures Terminated(CRLF, ArgLines(args)) == EncodeItems(Bulks(args))
    decreases |args|
  {
    hide Numeral;
    if args != [] {
      ArgLinesEncode(args[1..]);
      var a, b := [DOLLAR] + Numeral(|args[0]|), args[0];
      assert Bulks(args)[1..] == Bulks(args[1..]);
      TerminatedConcat(CRLF, [a, b], ArgLines(args[1..]));
      TwoLines(a, b);
      assert Encode(BulkOf(b)) == [DOLLAR] + (Numeral(|b|) + CRLF) + (b + CRLF);
      assert a + CRLF == [DOLLAR] + (Numeral(|b|) + CRLF);
    }
  }

  lemma OneLine(a: Text)
    ensures Terminated(CRLF, [a]) == a + CRLF
  {
    assert [a][1..] == [];
  }

  lemma EncodeArray(length: Text, items: seq<Message>)
    ensures Encode(Array(length, items)) == [STAR] + length + CRLF + EncodeItems(items)
  {
    assert [STAR] + (length + CRLF) == [STAR] + length + CRLF;
  }

  lemma FormatLines(command: Text, args: seq<Text>)
    ensures Terminated(CRLF, [[STAR] + Numeral(|args| + 1)] + ArgLines([command] + args)) == Encode(CommandOf(command, args))
  {
    hide Numeral, ArgLines, EncodeItems, Terminated, Encode, Bulks;
    var n, all := Numeral(|args| + 1), [command] + args;
    var head := [STAR] + n;
    TerminatedConcat(CRLF, [head], ArgLines(all));
    OneLine(head);
    ArgLinesEncode(all);
    EncodeArray(n, Bulks(all));
  }

  lemma ArgLinesOne(s: Text)
    ensures ArgLines([s]) == [[DOLLAR] + Numeral(|s|), s]
  {
    assert [s][1..] == [];
  }

  /** `format_command` prints the message of the command. */
  method FormatCommand(command: Text, args: seq<Text>) returns (text: Text)
    ensures text == Encode(CommandOf(command, args))
  {
    hide Numeral, ArgLines, Terminated, Encode;
    var head := [STAR] + Numeral(|args| + 1);
    var r := [head, [DOLLAR] + Numeral(|command|), command];
    ArgLinesOne(command);
    assert [command] + args[..0] == [command];
    assert r == [head] + ArgLines([command] + args[..0]);
    for i := 0 to |args|
      invariant r == [head] + ArgLines([command] + args[..i])
    {
      assert [command] + args[..i + 1] == [command] + args[..i] + [args[i]];
      ArgLinesConcat([command] + args[..i], [args[i]]);
      ArgLinesOne(args[i]);
      r := r + [[DOLLAR] + Numeral(|args[i]|)] + [args[i]];
    }
    assert args[..|args|] == args;
    FormatLines(command, args);
    var joined := Join(CRLF, r);
    text := joined + CRLF;
  }

  // ----- reading it back -----

  /** The strings a consumer is told of */
  function Strings(buf: Text, ns: seq<Notice>): seq<Text> {
    if ns == [] then []
    else (if ns[0].Str? then [Slice(buf, ns[0].begin, ns[0].end)] else []) + Strings(buf, ns[1..])
  }

  lemma {:induction false} StringsConcat(buf: Text, a: seq<Notice>, b: seq<Notice>)
    ensures Strings(buf, a + b) == Strings(buf, a) + Strings(buf, b)
  {
    if a == [] {
      assert a + b == b;
    } else {
      assert (a + b)[1..] == a[1..] + b;
      StringsConcat(buf, a[1..], b);
    }
  }

  predicate AllBulk(items: seq<Message>) {
    forall i :: 0 <= i < |items| ==> items[i].Bulk?
  }

  function Bodies(items: seq<Message>): seq<Text>
    requires AllBulk(items)
  {
    seq(|items|, i requires 0 <= i < |items| => items[i].body)
  }

  lemma BodyAt(buf: Text, pos: nat, m: Message)
    requires m.Bulk? && At(buf, pos, Encode(m))
    ensures Strings(buf, NoticesOf(m, pos)) == [m.body]
  {
    AtFirst(buf, pos, [DOLLAR] + (m.length + CRLF), m.body + CRLF);
    AtFirst(buf, pos + |m.length| + 3, m.body, CRLF);
    assert NoticesOf(m, pos)[1..] == [];
  }

  lemma {:induction false} StringsOfItems(buf: Text, pos: nat, items: seq<Message>)
    requires AllBulk(items) && At(buf, pos, EncodeItems(items))
    ensures Strings(buf, NoticesOfItems(items, pos)) == Bodies(items)
    decreases |items|
  {
    hide Encode, NoticesOf, At;
    if items != [] {
      var m, q := items[0], pos + |Encode(items[0])|;
      AtFirst(buf, pos, Encode(m), EncodeItems(items[1..]));
      BodyAt(buf, pos, m);
      StringsOfItems(buf, q, items[1..]);
      StringsConcat(buf, NoticesOf(m, pos), NoticesOfItems(items[1..], q));
    }
  }

  lemma OneMessage(m: Message)
    requires WellFormed(m)
    ensures var text := Encode(m); var r := SplitAll(text);
            r.Next? && Finished(r) && r.sink.points == [0, |text|]
            && r.sink.notices == NoticesOf(m, 0) + [Split(|text|)]
  {
    hide Encode, NoticesOf, Parse, WellFormed, OnElement;
    var text, k := Encode(m), Start();
    ParseWhole(text, 0, m, k) by { assert text[0..0 + |text|] == text; }
    Closing(k, NoticesOf(m, 0), |text|);
    SplitStep(text, 0, k, |text|, Completed(k, NoticesOf(m, 0), |text|));
  }

  lemma Closing(k: Sink, ns: seq<Notice>, pos: nat)
    requires k.stack == []
    ensures var c := Completed(k, ns, pos);
            c.stack == [] && c.points == k.points + [pos] && c.notices == k.notices + ns + [Split(pos)]
  {
  }

  /** For every command and every list of arguments, of any bytes: splitting what `format_command`
      prints reports exactly those strings, in order, and one split point, at the end. */
  lemma FormatRoundTrip(command: Text, args: seq<Text>)
    ensures var text := Encode(CommandOf(command, args)); var r := SplitAll(text);
            && r.Next? && Finished(r) && r.sink.points == [0, |text|]
            && Strings(text, r.sink.notices) == [command] + args
  {
    hide Encode, NoticesOf, SplitFrom, WellFormed, At, EncodeItems;
    var m := CommandOf(command, args);
    var text := Encode(m);
    CommandWellFormed(command, args);
    OneMessage(m);
    StringsConcat(text, NoticesOf(m, 0), [Split(|text|)]);
    RequestStrings(text, 0, m) by { WholeAt(text); }
    assert Bodies(m.items) == [command] + args;
    assert Strings(text, [Split(|text|)]) == [] by { assert [Split(|text|)][1..] == []; }
  }

  lemma WholeAt(text: Text)
    ensures At(text, 0, text)
  {
    assert text[0..|text|] == text;
  }

  lemma RequestStrings(buf: Text, pos: nat, m: Message)
    requires m.Array? && AllBulk(m.items) && At(buf, pos, Encode(m))
    ensures Strings(buf, NoticesOf(m, pos)) == Bodies(m.items)
  {
    hide At, EncodeItems, NoticesOfItems, Bodies;
    var q := pos + |m.length| + 3;
    AtFirst(buf, pos, [STAR] + (m.length + CRLF), EncodeItems(m.items));
    StringsConcat(buf, [Arr(|m.items|)], NoticesOfItems(m.items, q));
    StringsOfItems(buf, q, m.items);
    assert Strings(buf, [Arr(|m.items|)]) == [] by { assert [Arr(|m.items|)][1..] == []; }
  }
}
