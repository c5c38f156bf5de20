/** What a client gets back for MGET, MSET and DEL: the joined replies of the node commands mean what
    the original command means on one store. */
module FanoutGroups {
  import opened Options
  import opened Bytes
  import opened Resp
  import opened DecimalText
  import opened SplitterModel
  import opened SplitterProofs
  import opened Streams
  import opened Commands
  import opened ClientRequests
  import Decimal
  import SlotCalc
  import F = Fanout

  // ----- what a node reads -----

  /** A command of one key, as a node reads it */
  function Meaning(strings: seq<Text>): Option<F.Op> {
    if |strings| == 2 && strings[0] == GET then Some(F.Get(strings[1]))
    else if |strings| == 2 && strings[0] == DEL then Some(F.Del(strings[1]))
    else if |strings| == 3 && strings[0] == SET then Some(F.Set(strings[1], strings[2]))
    else None
  }

  function NodeReads(bytes: Text): Option<F.Op> {
    match SplitAll(bytes)
    case Next(_, k) => Meaning(Strings(bytes, k.notices))
    case _ => None
  }

  lemma NodeCommandReads(name: Text, args: seq<Message>)
    requires |name| == 3 && 1 <= |args| <= 2 && AllBulk(args) && AllWellFormed(args)
    ensures NodeReads(Encode(NodeCommand(name, args))) == Meaning([name] + Bodies(args))
  {
    hide Encode, NoticesOf, SplitFrom, Meaning, At;
    var m := NodeCommand(name, args);
    var text := Encode(m);
    assert WellFormed(m) by { NodeCommandWellFormed(name, args); }
    OneMessage(m);
    WholeAt(text);
    RequestStrings(text, 0, m);
    StringsConcat(text, NoticesOf(m, 0), [Split(|text|)]);
    assert Strings(text, [Split(|text|)]) == [] by { assert [Split(|text|)][1..] == []; }
    assert Bodies(m.items) + [] == Bodies(m.items) == [name] + Bodies(args);
  }

  lemma NodeCommandWellFormed(name: Text, args: seq<Message>)
    requires |name| == 3 && 1 <= |args| <= 2 && AllBulk(args) && AllWellFormed(args)
    ensures WellFormed(NodeCommand(name, args)) && AllBulk(NodeCommand(name, args).items)
  {
    OneDigit(ZERO + 2);
    OneDigit(ZERO + 3);
  }

  function Ops(subs: seq<Sub>): seq<F.Op> {
    seq(|subs|, i requires 0 <= i < |subs| => match NodeReads(subs[i].bytes) case Some(op) => op case None => F.Get([]))
  }

  function Gets(keys: seq<Text>): seq<F.Op> {
    seq(|keys|, i requires 0 <= i < |keys| => F.Get(keys[i]))
  }

  function Dels(keys: seq<Text>): seq<F.Op> {
    seq(|keys|, i requires 0 <= i < |keys| => F.Del(keys[i]))
  }

  function Sets(args: seq<Text>): seq<F.Op>
    requires |args| % 2 == 0
  {
    seq(|args| / 2, i requires 0 <= i < |args| / 2 => F.Set(args[2 * i], args[2 * i + 1]))
  }

  /** Each node command of an MGET or a DEL is read as the command for its key. */
  lemma EachKeyOps(args: seq<Message>)
    requires AllBulk(args) && AllWellFormed(args)
    ensures Ops(EachKeySubs(GET, args)) == Gets(Bodies(args)) && Ops(EachKeySubs(DEL, args)) == Dels(Bodies(args))
  {
    hide NodeReads, Encode, WellFormed, SlotCalc.Slot;
    forall i | 0 <= i < |args|
      ensures NodeReads(Encode(NodeCommand(GET, [args[i]]))) == Some(F.Get(args[i].body))
      ensures NodeReads(Encode(NodeCommand(DEL, [args[i]]))) == Some(F.Del(args[i].body))
    {
      NodeCommandReads(GET, [args[i]]);
      NodeCommandReads(DEL, [args[i]]);
      assert Bodies([args[i]]) == [args[i].body];
      assert [GET] + [args[i].body] == [GET, args[i].body] && [DEL] + [args[i].body] == [DEL, args[i].body];
    }
  }

  /** Each node command of an MSET is read as the SET of its pair. */
  lemma PairOps(args: seq<Message>)
    requires AllBulk(args) && AllWellFormed(args) && |args| % 2 == 0
    ensures Ops(PairSubs(args)) == Sets(Bodies(args))
  {
    hide NodeReads, Encode, WellFormed, SlotCalc.Slot;
    forall i | 0 <= i < |args| / 2
      ensures NodeReads(Encode(NodeCommand(SET, args[2 * i..2 * i + 2]))) == Some(F.Set(args[2 * i].body, args[2 * i + 1].body))
    {
      var pair := args[2 * i..2 * i + 2];
      NodeCommandReads(SET, pair);
      assert [SET] + Bodies(pair) == [SET, args[2 * i].body, args[2 * i + 1].body];
    }
  }

  /** Each command of an MGET, MSET or DEL goes by the slot of the very key its node reads in it. */
  lemma FanBySlot(table: Text -> Kind, m: Message, i: nat)
    requires IsRequest(table, m) && WellFormed(m) && RequestOf(table, m).Fan? && i < |RequestOf(table, m).subs|
    ensures var sub := RequestOf(table, m).subs[i];
            NodeReads(sub.bytes).Some? && sub.slot == SlotCalc.Slot(NodeReads(sub.bytes).value.key)
  {
    hide NodeReads, Encode, WellFormed, SlotCalc.Slot, UpperText, WrongArguments, UnknownCommand;
    var args := m.items[1..];
    ItemsWellFormed(m);
    if RequestOf(table, m).kind == MSet {
      var pair := args[2 * i..2 * i + 2];
      NodeCommandReads(SET, pair);
      assert [SET] + Bodies(pair) == [SET, args[2 * i].body, args[2 * i + 1].body];
    } else {
      NodeCommandReads(GET, [args[i]]);
      NodeCommandReads(DEL, [args[i]]);
      assert Bodies([args[i]]) == [args[i].body];
      assert [GET] + [args[i].body] == [GET, args[i].body] && [DEL] + [args[i].body] == [DEL, args[i].body];
    }
  }

  lemma ItemsWellFormed(m: Message)
    requires m.Array? && WellFormed(m) && AllBulk(m.items) && m.items != []
    ensures AllBulk(m.items[1..]) && AllWellFormed(m.items[1..])
  {
  }

  // ----- the original commands -----

  /** Some of the commands are failed by their nodes, each with its own error. */
  function WithFaults(ops: seq<F.Op>, faults: map<nat, Text>): seq<F.Op> {
    seq(|ops|, i requires 0 <= i < |ops| => if i in faults then F.Refuse(ops[i].key, faults[i]) else ops[i])
  }

  /** The reply to MGET: for each key its value, or nil, or the error of its node */
  function MGetReply(s: F.Store, keys: seq<Text>, faults: map<nat, Text>): Message {
    Array(Numeral(|keys|), seq(|keys|, i requires 0 <= i < |keys| =>
      ReplyMessage(if i in faults then F.Fault(faults[i]) else F.Value(F.Lookup(s, keys[i])))))
  }

  /** The value MSET leaves under a key: the last one given that is not failed, if any */
  function LastGiven(args: seq<Text>, faults: map<nat, Text>, k: Text, before: Option<Text>): Option<Text>
    requires |args| % 2 == 0
  {
    if args == [] then before
    else if args[|args| - 2] == k && |args| / 2 - 1 !in faults then Some(args[|args| - 1])
    else LastGiven(args[..|args| - 2], faults, k, before)
  }

  /** The keys of the commands that are not failed */
  function Reached(keys: seq<Text>, faults: map<nat, Text>, n: nat): set<Text>
    requires n <= |keys|
  {
    if n == 0 then {}
    else Reached(keys, faults, n - 1) + if n - 1 in faults then {} else {keys[n - 1]}
  }

  /** The keys DEL removes */
  function Removed(s: F.Store, keys: seq<Text>, faults: map<nat, Text>, n: nat): set<Text>
    requires n <= |keys|
  {
    set k | k in Reached(keys, faults, n) && k in s
  }

  function ReplyMessage(r: F.Reply): Message {
    match r
    case Value(None) => Nil(false)
    case Value(Some(v)) => BulkOf(v)
    case Ok => Simple([79, 75])
    case Count(n) => Integer(false, Numeral(n))
    case Fault(error) => Error(error)
  }

  function ReplyBytes(r: F.Reply): Text {
    Encode(ReplyMessage(r))
  }

  lemma {:induction false} GetsKeep(s: F.Store, keys: seq<Text>, faults: map<nat, Text>, n: nat)
    requires n <= |keys|
    ensures F.SeqStore(s, WithFaults(Gets(keys), faults), n) == s
  {
    if n > 0 {
      GetsKeep(s, keys, faults, n - 1);
    }
  }

  lemma {:induction false} DelsRemove(s: F.Store, keys: seq<Text>, faults: map<nat, Text>, n: nat)
    requires n <= |keys|
    ensures F.SeqStore(s, WithFaults(Dels(keys), faults), n) == s - Reached(keys, faults, n)
  {
    if n > 0 {
      DelsRemove(s, keys, faults, n - 1);
    }
  }

  lemma {:induction false} SetsGive(s: F.Store, args: seq<Text>, faults: map<nat, Text>, n: nat, k: Text)
    requires |args| % 2 == 0 && 2 * n <= |args|
    ensures |WithFaults(Sets(args), faults)| == |args| / 2
    ensures F.Lookup(F.SeqStore(s, WithFaults(Sets(args), faults), n), k) == LastGiven(args[..2 * n], faults, k, F.Lookup(s, k))
  {
    hide WithFaults, Sets, F.SeqStore, F.Lookup;
    Lengths(args, faults);
    if n == 0 {
      F.SeqNone(s, WithFaults(Sets(args), faults));
      assert args[..0] == [];
    } else {
      SetsGive(s, args, faults, n - 1, k);
      assert args[..2 * n][..2 * n - 2] == args[..2 * (n - 1)];
      SetStep(s, args, faults, n - 1, k);
    }
  }

  lemma SetStep(s: F.Store, args: seq<Text>, faults: map<nat, Text>, i: nat, k: Text)
    requires |args| % 2 == 0 && 2 * i < |args|
    ensures |WithFaults(Sets(args), faults)| == |args| / 2
    ensures var ops := WithFaults(Sets(args), faults);
            F.Lookup(F.SeqStore(s, ops, i + 1), k) ==
              if args[2 * i] == k && i !in faults then Some(args[2 * i + 1]) else F.Lookup(F.SeqStore(s, ops, i), k)
  {
  }

  // ----- joining -----

  function Concatenated(buffers: seq<Text>): Text {
    if buffers == [] then [] else buffers[0] + Concatenated(buffers[1..])
  }

  /** `MultipleCommandsGroup::command_responsed` and `append_buffer_to`: the header, then every buffer */
  method AppendAll(buffers: seq<Text>) returns (out: Text)
    requires |buffers| < Decimal.TWO_TO_64
    ensures out == [STAR] + (Numeral(|buffers|) + CRLF) + Concatenated(buffers)
  {
    hide Numeral;
    var n := Decimal.Print(|buffers|);
    out := [STAR] + (n + CRLF);
    ghost var head := out;
    NothingConcatenated(buffers[..0]);
    for i := 0 to |buffers|
      invariant out == head + Concatenated(buffers[..i])
    {
      ConcatenatedSnoc(buffers, i);
      assert head + Concatenated(buffers[..i]) + buffers[i] == head + (Concatenated(buffers[..i]) + buffers[i]);
      out := out + buffers[i];
    }
    assert buffers[..|buffers|] == buffers;
  }

  lemma NothingConcatenated(buffers: seq<Text>)
    requires buffers == []
    ensures Concatenated(buffers) == []
  {
  }

  lemma {:induction false} ConcatenatedSnoc(buffers: seq<Text>, i: nat)
    requires i < |buffers|
    ensures Concatenated(buffers[..i + 1]) == Concatenated(buffers[..i]) + buffers[i]
    decreases i
  {
    if i == 0 {
      assert buffers[..1][1..] == [] && buffers[..1][0] == buffers[0];
      NothingConcatenated(buffers[..0]);
    } else {
      ConcatenatedSnoc(buffers[1..], i - 1);
      assert buffers[..i + 1][1..] == buffers[1..][..i] && buffers[..i][1..] == buffers[1..][..i - 1];
    }
  }

  const ONE: Byte := 49

  function WithOne(buffers: seq<Text>): nat {
    if buffers == [] then 0 else WithOne(buffers[..|buffers| - 1]) + if ONE in buffers[|buffers| - 1] then 1 else 0
  }

  /** `DelCommandGroup::append_buffer_to`: the number of buffers that hold the character 1 */
  method CountOnes(buffers: seq<Text>) returns (out: Text)
    ensures out == Encode(Integer(false, Numeral(WithOne(buffers))))
  {
    hide Numeral;
    var count := 0;
    for i := 0 to |buffers|
      invariant count == WithOne(buffers[..i])
    {
      assert buffers[..i + 1][..i] == buffers[..i];
      var found := FindOne(buffers[i]);
      count := count + if found then 1 else 0;
    }
    assert buffers[..|buffers|] == buffers;
    out := [COLON] + Numeral(count) + CRLF;
    assert [COLON] + [] + (Numeral(count) + CRLF) == [COLON] + Numeral(count) + CRLF;
  }

  method FindOne(buffer: Text) returns (found: bool)
    ensures found <==> ONE in buffer
  {
    for i := 0 to |buffer|
      invariant ONE !in buffer[..i]
    {
      if buffer[i] == ONE {
        return true;
      }
    }
    return false;
  }

  // ----- the meaning is kept -----

  /** The buffers of a group once every node command has been answered */
  function Buffers(st: F.State, n: nat): seq<Text> {
    seq(n, i requires 0 <= i < n => if i in st.replies then ReplyBytes(st.replies[i]) else [])
  }

  predicate AllDone(ops: seq<F.Op>, node: Text -> nat, s: F.Store, xs: seq<nat>) {
    forall i :: 0 <= i < |ops| ==> i in F.Run(ops, node, F.Start(s), xs).done
  }

  function RepliesInOrder(s: F.Store, ops: seq<F.Op>): seq<Text> {
    seq(|ops|, i requires 0 <= i < |ops| => ReplyBytes(F.SeqReply(s, ops, i)))
  }

  lemma BuffersInOrder(s: F.Store, ops: seq<F.Op>, node: Text -> nat, xs: seq<nat>)
    requires AllDone(ops, node, s, xs)
    ensures var st := F.Run(ops, node, F.Start(s), xs);
            st.store == F.SeqStore(s, ops, |ops|) && Buffers(st, |ops|) == RepliesInOrder(s, ops)
  {
    hide F.Run, F.SeqReply, F.SeqStore, ReplyBytes;
    F.AnyInterleaving(s, ops, node, xs);
  }

  lemma {:induction false} EncodesAll(ms: seq<Message>, texts: seq<Text>)
    requires |ms| == |texts| && forall i :: 0 <= i < |ms| ==> texts[i] == Encode(ms[i])
    ensures Concatenated(texts) == EncodeItems(ms)
    decreases |ms|
  {
    hide Encode;
    if ms != [] {
      EncodesAll(ms[1..], texts[1..]);
    }
  }

  /** MGET: whatever the nodes' pace and whichever of them fail, the client gets the reply of one MGET,
      with the error of a node in the place of its value, and nothing changes. */
  lemma MGetKeepsMeaning(table: Text -> Kind, m: Message, s: F.Store, faults: map<nat, Text>, node: Text -> nat, xs: seq<nat>)
    requires IsRequest(table, m) && WellFormed(m) && |m.items| > 1 && table(UpperText(m.items[0].body)) == MGet
    requires AllDone(WithFaults(Ops(RequestOf(table, m).subs), faults), node, s, xs)
    ensures var keys, ops := Bodies(m.items[1..]), WithFaults(Ops(RequestOf(table, m).subs), faults);
            var st := F.Run(ops, node, F.Start(s), xs);
            && [STAR] + (Numeral(|keys|) + CRLF) + Concatenated(Buffers(st, |keys|)) == Encode(MGetReply(s, keys, faults))
            && st.store == s
  {
    hide F.Run, Numeral, Concatenated, EncodeItems, UpperText, EachKeySubs, Gets, ReplyBytes, WithFaults;
    var args := m.items[1..];
    var keys := Bodies(args);
    EachKeyOps(args);
    MGetReplies(s, keys, faults);
    GetsKeep(s, keys, faults, |keys|);
    Lengths(keys, faults);
    BuffersInOrder(s, WithFaults(Gets(keys), faults), node, xs);
  }

  lemma Lengths(keys: seq<Text>, faults: map<nat, Text>)
    ensures |WithFaults(Gets(keys), faults)| == |WithFaults(Dels(keys), faults)| == |keys|
    ensures |keys| % 2 == 0 ==> |WithFaults(Sets(keys), faults)| == |keys| / 2
  {
  }

  lemma GetReplyAt(s: F.Store, keys: seq<Text>, faults: map<nat, Text>, i: nat)
    requires i < |keys|
    ensures |WithFaults(Gets(keys), faults)| == |keys|
    ensures F.SeqReply(s, WithFaults(Gets(keys), faults), i) == if i in faults then F.Fault(faults[i]) else F.Value(F.Lookup(s, keys[i]))
  {
    hide F.SeqStore, F.Lookup;
    GetsKeep(s, keys, faults, i);
  }

  lemma MGetReplies(s: F.Store, keys: seq<Text>, faults: map<nat, Text>)
    ensures [STAR] + (Numeral(|keys|) + CRLF) + Concatenated(RepliesInOrder(s, WithFaults(Gets(keys), faults))) ==
              Encode(MGetReply(s, keys, faults))
  {
    hide EncodeItems, Concatenated, F.SeqReply, WithFaults, Gets, Numeral, ReplyMessage, F.Lookup;
    var replies, ops := MGetReply(s, keys, faults).items, WithFaults(Gets(keys), faults);
    Lengths(keys, faults);
    forall i | 0 <= i < |keys| ensures RepliesInOrder(s, ops)[i] == Encode(replies[i]) {
      GetReplyAt(s, keys, faults, i);
    }
    EncodesAll(replies, RepliesInOrder(s, ops));
  }

  /** What the client of an MSET is told, whatever its nodes reply */
  function MSetReply(buffers: seq<Text>): Text {
    Encode(Simple([79, 75]))
  }

  lemma SetsGiveAll(s: F.Store, args: seq<Text>, faults: map<nat, Text>)
    requires |args| % 2 == 0
    ensures var ops := WithFaults(Sets(args), faults);
            |ops| == |args| / 2 && forall k :: F.Lookup(F.SeqStore(s, ops, |ops|), k) == LastGiven(args, faults, k, F.Lookup(s, k))
  {
    hide F.SeqStore, F.Lookup, WithFaults, Sets, LastGiven;
    Lengths(args, faults);
    var ops := WithFaults(Sets(args), faults);
    forall k ensures F.Lookup(F.SeqStore(s, ops, |ops|), k) == LastGiven(args, faults, k, F.Lookup(s, k)) {
      SetsGive(s, args, faults, |args| / 2, k);
      assert args[..2 * (|args| / 2)] == args;
    }
  }

  /** MSET: whatever the nodes' pace, every key ends with the last value given for it that no node failed. */
  lemma MSetLeaves(table: Text -> Kind, m: Message, s: F.Store, faults: map<nat, Text>, node: Text -> nat, xs: seq<nat>)
    requires IsRequest(table, m) && WellFormed(m) && |m.items| > 1 && |m.items| % 2 == 1
    requires table(UpperText(m.items[0].body)) == MSet
    requires AllDone(WithFaults(Ops(RequestOf(table, m).subs), faults), node, s, xs)
    ensures var args, ops := Bodies(m.items[1..]), WithFaults(Ops(RequestOf(table, m).subs), faults);
            var st := F.Run(ops, node, F.Start(s), xs);
            forall k :: F.Lookup(st.store, k) == LastGiven(args, faults, k, F.Lookup(s, k))
  {
    hide F.Run, UpperText, PairSubs, Sets, F.Lookup, LastGiven, F.SeqStore, WithFaults;
    var args := m.items[1..];
    var texts := Bodies(args);
    PairOps(args);
    Lengths(texts, faults);
    var ops := WithFaults(Sets(texts), faults);
    BuffersInOrder(s, ops, node, xs);
    SetsGiveAll(s, texts, faults);
  }

  /** The last pair given for its key */
  ghost predicate LastPair(args: seq<Text>, i: nat)
    requires |args| % 2 == 0
  {
    2 * i < |args| && forall j :: i < j && 2 * j < |args| ==> args[2 * j] != args[2 * i]
  }

  /** Every failed SET was overtaken by a later pair, or its value was there without it. */
  ghost predicate Harmless(s: F.Store, args: seq<Text>, faults: map<nat, Text>)
    requires |args| % 2 == 0
  {
    forall i :: i in faults && LastPair(args, i) ==>
      LastGiven(args, faults, args[2 * i], F.Lookup(s, args[2 * i])) == Some(args[2 * i + 1])
  }

  lemma {:induction false} GivenByLast(args: seq<Text>, faults: map<nat, Text>, k: Text, before: Option<Text>)
    requires |args| % 2 == 0
    ensures (forall i :: 0 <= 2 * i < |args| ==> args[2 * i] != k) ==> LastGiven(args, faults, k, before) == before
    ensures forall i :: LastPair(args, i) && args[2 * i] == k && i !in faults ==>
              LastGiven(args, faults, k, before) == Some(args[2 * i + 1])
    decreases |args|
  {
    if args != [] {
      var n, rest := |args| / 2 - 1, args[..|args| - 2];
      GivenByLast(rest, faults, k, before);
      forall i: nat | LastPair(args, i) && args[2 * i] == k && i !in faults
        ensures LastGiven(args, faults, k, before) == Some(args[2 * i + 1])
      {
        if i < n {
          assert args[2 * n] != k;
          assert LastPair(rest, i);
        }
      }
    }
  }

  lemma {:induction false} SomeLast(args: seq<Text>, k: Text, i: nat) returns (j: nat)
    requires |args| % 2 == 0 && 2 * i < |args| && args[2 * i] == k
    ensures LastPair(args, j) && args[2 * j] == k
    decreases |args| - 2 * i
  {
    if LastPair(args, i) {
      return i;
    }
    var l :| i < l && 2 * l < |args| && args[2 * l] == args[2 * i];
    j := SomeLast(args, k, l);
  }

  /** The client of an MSET is told OK whatever its nodes reply; the store is that of the MSET if and only
      if every failed SET was overtaken by a later pair, or its value was there without it. */
  lemma MSetKeepsMeaningIff(table: Text -> Kind, m: Message, s: F.Store, faults: map<nat, Text>, node: Text -> nat, xs: seq<nat>)
    requires IsRequest(table, m) && WellFormed(m) && |m.items| > 1 && |m.items| % 2 == 1
    requires table(UpperText(m.items[0].body)) == MSet
    requires AllDone(WithFaults(Ops(RequestOf(table, m).subs), faults), node, s, xs)
    ensures var args, ops := Bodies(m.items[1..]), WithFaults(Ops(RequestOf(table, m).subs), faults);
            var st := F.Run(ops, node, F.Start(s), xs);
            && MSetReply(Buffers(st, |ops|)) == ReplyBytes(F.Ok)
            && ((forall k :: F.Lookup(st.store, k) == LastGiven(args, map[], k, F.Lookup(s, k))) <==> Harmless(s, args, faults))
  {
    hide F.Run, UpperText, F.Lookup, LastGiven, LastPair, RequestOf, Ops, WithFaults;
    MSetLeaves(table, m, s, faults, node, xs);
    HarmlessMeans(s, Bodies(m.items[1..]), faults);
  }

  lemma HarmlessMeans(s: F.Store, args: seq<Text>, faults: map<nat, Text>)
    requires |args| % 2 == 0
    ensures (forall k :: LastGiven(args, faults, k, F.Lookup(s, k)) == LastGiven(args, map[], k, F.Lookup(s, k))) <==> Harmless(s, args, faults)
  {
    hide LastGiven, LastPair, F.Lookup;
    forall i: nat | LastPair(args, i)
      ensures 2 * i < |args| && LastGiven(args, map[], args[2 * i], F.Lookup(s, args[2 * i])) == Some(args[2 * i + 1])
    {
      LastPairIn(args, i);
      GivenByLast(args, map[], args[2 * i], F.Lookup(s, args[2 * i]));
    }
    if Harmless(s, args, faults) {
      forall k ensures LastGiven(args, faults, k, F.Lookup(s, k)) == LastGiven(args, map[], k, F.Lookup(s, k)) {
        GivenByLast(args, faults, k, F.Lookup(s, k));
        GivenByLast(args, map[], k, F.Lookup(s, k));
        if i :| 0 <= 2 * i < |args| && args[2 * i] == k {
          var j := SomeLast(args, k, i);
          LastPairIn(args, j);
        }
      }
    }
  }

  lemma LastPairIn(args: seq<Text>, i: nat)
    requires |args| % 2 == 0 && LastPair(args, i)
    ensures 2 * i < |args|
  {
  }

  /** `MSET a 1` on an empty store, with a node that fails: the client is told OK, and there is no key. */
  lemma FailedSetHidden(table: Text -> Kind, m: Message, node: Text -> nat, xs: seq<nat>)
    requires IsRequest(table, m) && WellFormed(m) && |m.items| == 3 && table(UpperText(m.items[0].body)) == MSet
    requires Bodies(m.items[1..]) == [[97], [49]]
    requires AllDone(WithFaults(Ops(RequestOf(table, m).subs), map[0 := [69]]), node, map[], xs)
    ensures var ops := WithFaults(Ops(RequestOf(table, m).subs), map[0 := [69]]);
            var st := F.Run(ops, node, F.Start(map[]), xs);
            MSetReply(Buffers(st, |ops|)) == ReplyBytes(F.Ok) && F.Lookup(st.store, [97]) == None
  {
    hide F.Run, UpperText, RequestOf, Ops, WithFaults, ReplyBytes, Harmless;
    MSetLeaves(table, m, map[], map[0 := [69]], node, xs);
    MSetKeepsMeaningIff(table, m, map[], map[0 := [69]], node, xs);
    var args: seq<Text> := [[97], [49]];
    assert args[..0] == [];
    assert LastGiven(args, map[0 := [69]], [97], None) == LastGiven([], map[0 := [69]], [97], None);
  }

  lemma OneInCount(n: nat)
    requires n < 2
    ensures ONE in ReplyBytes(F.Count(n)) <==> n == 1
  {
    assert Numeral(n) == [ZERO + n as Byte];
    assert ReplyBytes(F.Count(n)) == [COLON] + [] + ([ZERO + n as Byte] + CRLF);
  }

  lemma OneInFault(error: Text)
    ensures ONE in ReplyBytes(F.Fault(error)) <==> ONE in error
  {
    assert ReplyBytes(F.Fault(error)) == [MINUS] + (error + CRLF);
  }

  /** The failed commands whose error holds the character 1 */
  function FaultsWithOne(faults: map<nat, Text>, n: nat): nat {
    if n == 0 then 0 else FaultsWithOne(faults, n - 1) + if n - 1 in faults && ONE in faults[n - 1] then 1 else 0
  }

  lemma {:induction false} NoFaultWithOne(faults: map<nat, Text>, n: nat)
    ensures FaultsWithOne(faults, n) == 0 <==> forall i :: 0 <= i < n && i in faults ==> ONE !in faults[i]
  {
    if n > 0 {
      NoFaultWithOne(faults, n - 1);
    }
  }

  lemma {:induction false} OnesCounted(s: F.Store, keys: seq<Text>, faults: map<nat, Text>, n: nat)
    requires n <= |keys|
    ensures |WithFaults(Dels(keys), faults)| == |keys|
    ensures WithOne(RepliesInOrder(s, WithFaults(Dels(keys), faults))[..n]) == |Removed(s, keys, faults, n)| + FaultsWithOne(faults, n)
  {
    hide ReplyBytes, F.SeqReply, WithFaults, Dels, Removed;
    Lengths(keys, faults);
    var all := RepliesInOrder(s, WithFaults(Dels(keys), faults));
    if n == 0 {
      NothingRemoved(s, keys, faults);
    } else {
      OnesCounted(s, keys, faults, n - 1);
      assert all[..n][..n - 1] == all[..n - 1];
      OneMoreReply(s, keys, faults, n);
    }
  }

  lemma NothingRemoved(s: F.Store, keys: seq<Text>, faults: map<nat, Text>)
    ensures Removed(s, keys, faults, 0) == {}
  {
  }

  lemma DelReplyAt(s: F.Store, keys: seq<Text>, faults: map<nat, Text>, i: nat)
    requires i < |keys|
    ensures |WithFaults(Dels(keys), faults)| == |keys|
    ensures F.SeqReply(s, WithFaults(Dels(keys), faults), i) ==
              if i in faults then F.Fault(faults[i])
              else F.Count(if keys[i] in s && keys[i] !in Reached(keys, faults, i) then 1 else 0)
  {
    hide F.SeqStore, Reached;
    DelsRemove(s, keys, faults, i);
  }

  lemma RemovedStep(s: F.Store, keys: seq<Text>, faults: map<nat, Text>, i: nat)
    requires i < |keys|
    ensures |Removed(s, keys, faults, i + 1)| == |Removed(s, keys, faults, i)| +
              if i !in faults && keys[i] in s && keys[i] !in Reached(keys, faults, i) then 1 else 0
  {
    var more := if i !in faults && keys[i] in s && keys[i] !in Reached(keys, faults, i) then {keys[i]} else {};
    assert Removed(s, keys, faults, i + 1) == Removed(s, keys, faults, i) + more;
  }

  lemma OneMoreReply(s: F.Store, keys: seq<Text>, faults: map<nat, Text>, n: nat)
    requires 0 < n <= |keys|
    ensures |WithFaults(Dels(keys), faults)| == |keys|
    ensures var r := ReplyBytes(F.SeqReply(s, WithFaults(Dels(keys), faults), n - 1));
            |Removed(s, keys, faults, n)| + FaultsWithOne(faults, n) ==
              |Removed(s, keys, faults, n - 1)| + FaultsWithOne(faults, n - 1) + if ONE in r then 1 else 0
  {
    hide ReplyBytes, F.SeqReply, Removed, Reached, WithFaults, Dels;
    DelReplyAt(s, keys, faults, n - 1);
    RemovedStep(s, keys, faults, n - 1);
    if n - 1 in faults {
      OneInFault(faults[n - 1]);
    } else {
      OneInCount(0);
      OneInCount(1);
    }
  }

  /** DEL: whatever the nodes' pace and whichever of them fail, the keys that reach a node are gone; and the
      count told is that of the keys removed, each once, if and only if no error holds the character 1. */
  lemma DelKeepsMeaningIff(table: Text -> Kind, m: Message, s: F.Store, faults: map<nat, Text>, node: Text -> nat, xs: seq<nat>)
    requires IsRequest(table, m) && WellFormed(m) && |m.items| > 1 && table(UpperText(m.items[0].body)) == Del
    requires AllDone(WithFaults(Ops(RequestOf(table, m).subs), faults), node, s, xs)
    ensures var keys, ops := Bodies(m.items[1..]), WithFaults(Ops(RequestOf(table, m).subs), faults);
            var st := F.Run(ops, node, F.Start(s), xs);
            && st.store == s - Reached(keys, faults, |keys|)
            && (WithOne(Buffers(st, |keys|)) == |Removed(s, keys, faults, |keys|)| <==>
                forall i :: 0 <= i < |keys| && i in faults ==> ONE !in faults[i])
  {
    hide F.Run, UpperText, EachKeySubs, Dels, WithOne, Removed, Reached, F.SeqStore, ReplyBytes, WithFaults;
    var args := m.items[1..];
    var keys := Bodies(args);
    var ops := WithFaults(Dels(keys), faults);
    EachKeyOps(args);
    Lengths(keys, faults);
    BuffersInOrder(s, ops, node, xs);
    DelsRemove(s, keys, faults, |keys|);
    OnesCounted(s, keys, faults, |keys|);
    NoFaultWithOne(faults, |keys|);
    assert RepliesInOrder(s, ops)[..|keys|] == RepliesInOrder(s, ops);
  }

  /** With no failure the keys given are gone, and the keys removed are those that were there. */
  lemma {:induction false} AllReached(keys: seq<Text>, n: nat)
    requires n <= |keys|
    ensures Reached(keys, map[], n) == set k | k in keys[..n]
  {
    if n > 0 {
      AllReached(keys, n - 1);
      assert keys[..n] == keys[..n - 1] + [keys[n - 1]];
    }
  }

  /** "ERR 1" counts as a key removed. */
  lemma ErrorCountsAsKey()
    ensures WithOne([ReplyBytes(F.Fault([69, 82, 82, 32, 49]))]) == 1 && Removed(map[], [[97]], map[0 := [69, 82, 82, 32, 49]], 1) == {}
  {
    hide ReplyBytes;
    var error: Text := [69, 82, 82, 32, 49];
    assert error[4] == ONE;
    OneInFault(error);
    assert [ReplyBytes(F.Fault(error))][..0] == [];
    assert WithOne([ReplyBytes(F.Fault(error))]) == WithOne([]) + 1;
  }
}
