/** Requests of a client: which node commands each becomes. */
module ClientRequests {
  import opened Bytes
  import opened Resp
  import opened DecimalText
  import opened SlotCalc
  import opened SplitterModel
  import opened SplitterProofs
  import opened Streams
  import opened Commands

  // ----- what a request means -----

  /** How a command is handled; `Other` stands for the special commands that are not modelled. */
  datatype Kind = Standard | MGet | Del | MSet | Rename | Unknown | Other

  /** A command for one node: its bytes and the slot it goes by */
  datatype Sub = Sub(bytes: Text, slot: bv16)

  datatype Request =
    | Answer(reply: Text)
    | Single(bytes: Text, slot: bv16)
    | Fan(kind: Kind, subs: seq<Sub>)
    | TwoSlots(oldKey: Text, newKey: Text, oldSlot: bv16, newSlot: bv16)

  /** "GET", "SET" and "DEL" */
  const GET: Text := [71, 69, 84]
  const SET: Text := [83, 69, 84]
  const DEL: Text := [68, 69, 76]

  function Ascii(s: string): Text {
    seq(|s|, i requires 0 <= i < |s| => if s[i] as int < 256 then s[i] as int as Byte else 63)
  }

  function UnknownCommand(): Text {
    Ascii("-ERR Unknown command " + "or command key not specified\r\n")
  }

  function WrongArguments(kind: Kind): Text {
    Ascii("-ERR wrong number of arguments for '" +
      (match kind case MGet => "mget" case Del => "del" case MSet => "mset" case _ => "rename") + "' command\r\n")
  }

  function UpperText(s: Text): Text {
    seq(|s|, i requires 0 <= i < |s| => Upper(s[i]))
  }

  /** A request is an array of at least one bulk string, and its command is one that is modelled. */
  predicate IsRequest(table: Text -> Kind, m: Message) {
    m.Array? && m.items != [] && AllBulk(m.items) && table(UpperText(m.items[0].body)) != Other
  }

  /** The command of one node: its name, then the client's own arguments */
  function NodeCommand(name: Text, args: seq<Message>): Message {
    Array([ZERO + 1 + if |args| == 1 then 1 else 2], [Bulk([ZERO + 3], name)] + args)
  }

  function KeyOf(m: Message): Text {
    if m.Bulk? then m.body else []
  }

  function EachKeySubs(name: Text, args: seq<Message>): seq<Sub> {
    seq(|args|, i requires 0 <= i < |args| => Sub(Encode(NodeCommand(name, [args[i]])), Slot(KeyOf(args[i]))))
  }

  function PairSubs(args: seq<Message>): seq<Sub>
    requires |args| % 2 == 0
  {
    seq(|args| / 2, i requires 0 <= i < |args| / 2 =>
      Sub(Encode(NodeCommand(SET, args[2 * i..2 * i + 2])), Slot(KeyOf(args[2 * i]))))
  }

  /** What the client is owed for a request. */
  function RequestOf(table: Text -> Kind, m: Message): Request {
    if !(m.Array? && m.items != []) then Single(Encode(m), Slot([]))
    else
      var args := m.items[1..];
      match table(UpperText(KeyOf(m.items[0])))
      case Standard => if args == [] then Answer(UnknownCommand()) else Single(Encode(m), Slot(KeyOf(args[0])))
      case MGet => if args == [] then Answer(WrongArguments(MGet)) else Fan(MGet, EachKeySubs(GET, args))
      case Del => if args == [] then Answer(WrongArguments(Del)) else Fan(Del, EachKeySubs(DEL, args))
      case MSet => if args == [] || |args| % 2 == 1 then Answer(WrongArguments(MSet)) else Fan(MSet, PairSubs(args))
      case Rename =>
        if |args| != 2 then Answer(WrongArguments(Rename))
        else
          var a, b := Slot(KeyOf(args[0])), Slot(KeyOf(args[1]));
          if a == b then Single(Encode(m), a) else TwoSlots(Encode(args[0]), Encode(args[1]), a, b)
      case _ => Answer(UnknownCommand())
  }

  // ----- the sub-commands are commands -----

  /** The arguments are written as `format_command` writes them. */
  predicate Canonical(m: Message) {
    m.Bulk? && m == BulkOf(m.body)
  }

  lemma BulksOf(args: seq<Message>)
    requires forall i :: 0 <= i < |args| ==> Canonical(args[i])
    ensures AllBulk(args) && args == Bulks(Bodies(args))
  {
    hide Numeral;
  }

  /** A node command over canonical arguments is what `format_command` prints for it. */
  lemma NodeCommandFormats(name: Text, args: seq<Message>)
    requires |name| == 3 && 1 <= |args| <= 2 && forall i :: 0 <= i < |args| ==> Canonical(args[i])
    ensures AllBulk(args) && NodeCommand(name, args) == CommandOf(name, Bodies(args))
  {
    BulksOf(args);
    assert Numeral(3) == [ZERO + 3] && Numeral(2) == [ZERO + 2];
    hide Numeral;
    assert Bulks([name] + Bodies(args)) == [BulkOf(name)] + Bulks(Bodies(args));
  }

  /** Lines are told apart by their first CR. */
  lemma SameLine(a: Text, x: Text, b: Text, y: Text)
    requires CR !in a && CR !in b && a + CRLF + x == b + CRLF + y
    ensures a == b && x == y
  {
    var s, t := a + CRLF + x, b + CRLF + y;
    assert s[|a|] == CR && t[|b|] == CR;
    assert forall i :: 0 <= i < |a| ==> s[i] == a[i] && s[i] != CR;
    assert forall i :: 0 <= i < |b| ==> t[i] == b[i] && t[i] != CR;
    assert |a| == |b|;
    assert s[..|a|] == a && t[..|b|] == b;
    assert s[|a| + 2..] == x && t[|b| + 2..] == y;
  }

  lemma SameBulk(a: Message, x: Text, b: Message, y: Text)
    requires a.Bulk? && b.Bulk? && WellFormed(a) && WellFormed(b) && a.body == b.body
    requires Encode(a) + x == Encode(b) + y
    ensures a == b && x == y
  {
    DigitsNoCr(a.length);
    DigitsNoCr(b.length);
    var u, v := a.body + CRLF + x, b.body + CRLF + y;
    assert Encode(a) + x == [DOLLAR] + (a.length + CRLF + u);
    assert Encode(b) + y == [DOLLAR] + (b.length + CRLF + v);
    assert (Encode(a) + x)[1..] == a.length + CRLF + u && (Encode(b) + y)[1..] == b.length + CRLF + v;
    SameLine(a.length, u, b.length, v);
    assert u[|a.body| + 2..] == x && v[|b.body| + 2..] == y;
  }

  lemma {:induction false} SameBulks(a: seq<Message>, b: seq<Message>)
    requires AllBulk(a) && AllBulk(b) && |a| == |b| && EncodeItems(a) == EncodeItems(b)
    requires forall i :: 0 <= i < |a| ==> WellFormed(a[i]) && WellFormed(b[i]) && a[i].body == b[i].body
    ensures a == b
    decreases |a|
  {
    hide Encode, WellFormed;
    if a != [] {
      SameBulk(a[0], EncodeItems(a[1..]), b[0], EncodeItems(b[1..]));
      SameBulks(a[1..], b[1..]);
      assert a == [a[0]] + a[1..] && b == [b[0]] + b[1..];
    }
  }

  lemma CanonicalWellFormed(s: Text)
    ensures WellFormed(BulkOf(s)) && Canonical(BulkOf(s))
  {
    NumeralReads(|s|);
  }

  /** An argument is written as `format_command` writes it exactly when its length has no leading zeros. */
  lemma CanonicalIff(m: Message)
    requires m.Bulk? && WellFormed(m)
    ensures Canonical(m) <==> Plain(m.length)
  {
    hide Numeral;
    NumeralIff(m.length);
  }

  /** A sub-command is, byte for byte, what `format_command` prints for it, if and only if the client
      wrote the lengths of its arguments without leading zeros. */
  lemma FormatsIff(name: Text, args: seq<Message>)
    requires |name| == 3 && 1 <= |args| <= 2 && AllBulk(args) && forall i :: 0 <= i < |args| ==> WellFormed(args[i])
    ensures Encode(NodeCommand(name, args)) == Encode(CommandOf(name, Bodies(args))) <==>
              forall i :: 0 <= i < |args| ==> Plain(args[i].length)
  {
    hide WellFormed, EncodeItems, Canonical, Plain;
    var plain := Bulks(Bodies(args));
    forall i | 0 <= i < |args| ensures plain[i] == BulkOf(args[i].body) && WellFormed(plain[i]) && Canonical(plain[i]) {
      CanonicalWellFormed(args[i].body);
    }
    forall i | 0 <= i < |args| ensures Canonical(args[i]) <==> Plain(args[i].length) {
      CanonicalIff(args[i]);
    }
    NodeCommandFormats(name, plain);
    assert Bodies(plain) == Bodies(args);
    SameHead(name, args, plain);
    if EncodeItems(args) == EncodeItems(plain) {
      SameBulks(args, plain);
    }
    if forall i :: 0 <= i < |args| ==> Canonical(args[i]) {
      BulksOf(args);
    }
  }

  lemma SameHead(name: Text, a: seq<Message>, b: seq<Message>)
    requires |a| == |b|
    ensures Encode(NodeCommand(name, a)) == Encode(NodeCommand(name, b)) <==> EncodeItems(a) == EncodeItems(b)
  {
    hide EncodeItems;
    var first, length := Bulk([ZERO + 3], name), NodeCommand(name, a).length;
    ItemsAfter(first, a);
    ItemsAfter(first, b);
    SamePrefix([STAR] + (length + CRLF), Encode(first) + EncodeItems(a), Encode(first) + EncodeItems(b));
    SamePrefix(Encode(first), EncodeItems(a), EncodeItems(b));
  }

  lemma SamePrefix(head: Text, x: Text, y: Text)
    ensures head + x == head + y <==> x == y
  {
    assert (head + x)[|head|..] == x && (head + y)[|head|..] == y;
  }

  lemma ItemsAfter(m: Message, rest: seq<Message>)
    ensures EncodeItems([m] + rest) == Encode(m) + EncodeItems(rest)
  {
    assert ([m] + rest)[1..] == rest;
  }

  /** A client may write "$03" for a length: the sub-command is a GET of the same key, in other bytes. */
  lemma LeadingZeroDiffers()
    ensures var a := Bulk([48, 51], [107, 101, 121]);
            WellFormed(a) && Encode(NodeCommand(GET, [a])) != Encode(CommandOf(GET, [a.body]))
  {
    var a := Bulk([48, 51], [107, 101, 121]);
    assert [48 as Byte, 51][1..] == [51] && [51 as Byte][1..] == [];
    assert Value([48, 51]) == ValueFrom(0, [51]) == ValueFrom(3, []);
    assert Numeral(3) == [51];
    FormatsIff(GET, [a]);
    assert Bodies([a]) == [a.body];
    assert !Plain([a][0].length);
  }

  // ----- command names -----

  /** The two names are the same, but for the case of ASCII letters. */
  predicate SameLetters(a: Text, b: Text) {
    |a| == |b| && forall i :: 0 <= i < |a| ==>
      a[i] == b[i] || (65 <= a[i] <= 90 && b[i] == a[i] + 32) || (65 <= b[i] <= 90 && a[i] == b[i] + 32)
  }

  lemma LookedUpAlike(a: Text, b: Text)
    requires SameLetters(a, b)
    ensures UpperText(a) == UpperText(b)
  {
    assert forall i :: 0 <= i < |a| ==> UpperText(a)[i] == UpperText(b)[i];
  }

  /** A name with no lower-case letter is looked up as it is. */
  lemma LookedUpAsIs(a: Text)
    requires forall i :: 0 <= i < |a| ==> !(97 <= a[i] <= 122)
    ensures UpperText(a) == a
  {
  }

  /** Names that differ are looked up as different names, unless they differ in case only. */
  lemma LookedUpApart(a: Text, b: Text)
    requires UpperText(a) == UpperText(b)
    ensures SameLetters(a, b)
  {
    assert |a| == |UpperText(a)| && |b| == |UpperText(b)|;
    forall i | 0 <= i < |a|
      ensures a[i] == b[i] || (65 <= a[i] <= 90 && b[i] == a[i] + 32) || (65 <= b[i] <= 90 && a[i] == b[i] + 32)
    {
      assert UpperText(a)[i] == UpperText(b)[i];
    }
  }

  /** The same request but for the bytes that are sent on whole */
  predicate Alike(r: Request, q: Request) {
    r == q || (r.Single? && q.Single? && r.slot == q.slot)
  }

  /** The case of a command's name makes no difference to what the request becomes. */
  lemma NameCaseIgnored(table: Text -> Kind, m: Message, name: Message)
    requires m.Array? && m.items != [] && m.items[0].Bulk? && name.Bulk? && SameLetters(m.items[0].body, name.body)
    ensures Alike(RequestOf(table, m), RequestOf(table, m.(items := [name] + m.items[1..])))
    ensures IsRequest(table, m) <==> IsRequest(table, m.(items := [name] + m.items[1..]))
  {
    hide UpperText, Encode, EachKeySubs, PairSubs, WrongArguments, UnknownCommand;
    LookedUpAlike(m.items[0].body, name.body);
    var n := m.(items := [name] + m.items[1..]);
    assert n.items[1..] == m.items[1..];
    assert AllBulk(m.items) <==> AllBulk(n.items) by { BulkTail(m.items); BulkTail(n.items); }
  }

  lemma BulkTail(items: seq<Message>)
    requires items != [] && items[0].Bulk?
    ensures AllBulk(items) <==> AllBulk(items[1..])
  {
    assert forall i :: 0 < i < |items| ==> items[i] == items[1..][i - 1];
  }

  // ----- what becomes of a request -----

  /** A standard command goes out byte for byte, by the slot of its first argument; without one it is an
      error. */
  lemma StandardRequest(table: Text -> Kind, m: Message)
    requires m.Array? && m.items != [] && AllBulk(m.items) && table(UpperText(m.items[0].body)) == Standard
    ensures RequestOf(table, m) ==
              if |m.items| == 1 then Answer(UnknownCommand()) else Single(Encode(m), Slot(m.items[1].body))
  {
    hide UpperText, Encode, Slot;
  }

  /** A RENAME of two keys goes out whole if they are in one slot; else its keys go by their own slots. */
  lemma RenameRequest(table: Text -> Kind, m: Message)
    requires m.Array? && |m.items| == 3 && AllBulk(m.items) && table(UpperText(m.items[0].body)) == Rename
    ensures var a, b := m.items[1], m.items[2];
            RequestOf(table, m) == if Slot(a.body) == Slot(b.body) then Single(Encode(m), Slot(a.body))
                                   else TwoSlots(Encode(a), Encode(b), Slot(a.body), Slot(b.body))
  {
    hide UpperText, Encode, Slot;
  }

  /** What is answered at once is an error reply. */
  lemma AnswersAreErrors(table: Text -> Kind, m: Message)
    requires RequestOf(table, m).Answer?
    ensures exists text :: RequestOf(table, m).reply == Encode(Error(text))
  {
    hide UpperText, EachKeySubs, PairSubs, Slot, Ascii, UnknownCommand, WrongArguments, Encode;
    UnknownIsError();
    WrongIsError(MGet);
    WrongIsError(Del);
    WrongIsError(MSet);
    WrongIsError(Rename);
  }

  lemma UnknownIsError()
    ensures exists text :: UnknownCommand() == Encode(Error(text))
  {
    hide Ascii, Encode;
    LineIsError("-ERR Unknown command " + "or command key not specified\r\n");
  }

  lemma WrongIsError(kind: Kind)
    ensures exists text :: WrongArguments(kind) == Encode(Error(text))
  {
    hide Ascii, Encode;
    LineIsError("-ERR wrong number of arguments for '" +
      (match kind case MGet => "mget" case Del => "del" case MSet => "mset" case _ => "rename") + "' command\r\n");
  }

  lemma LineIsError(s: string)
    requires |s| >= 3 && s[0] == '-' && s[|s| - 2] == '\r' && s[|s| - 1] == '\n'
    ensures exists text :: Ascii(s) == Encode(Error(text))
  {
    var reply := Ascii(s);
    var text := reply[1..|reply| - 2];
    assert reply[|reply| - 2] == CR && reply[|reply| - 1] == LF;
    assert reply == [MINUS] + (text + CRLF);
    assert Encode(Error(text)) == reply;
  }

  /** MGET and DEL need a key, MSET pairs, and RENAME two keys; else the client gets an error, and no node
      is asked. */
  lemma MalformedRequest(table: Text -> Kind, m: Message)
    requires m.Array? && m.items != [] && AllBulk(m.items)
    ensures var n, kind := |m.items| - 1, table(UpperText(m.items[0].body));
            && (kind == MGet || kind == Del ==> (RequestOf(table, m).Answer? <==> n == 0))
            && (kind == MSet ==> (RequestOf(table, m).Answer? <==> n == 0 || n % 2 == 1))
            && (kind == Rename ==> (RequestOf(table, m).Answer? <==> n != 2))
            && (kind == Unknown ==> RequestOf(table, m) == Answer(UnknownCommand()))
  {
    hide UpperText, Encode, Slot, EachKeySubs, PairSubs, WrongArguments, UnknownCommand;
  }
}
