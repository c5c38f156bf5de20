/** The slot of a key: a table-driven CRC-16 fed one byte at a time, with the hash tag found on the
    way. */
module SlotCalc {
  import opened Bytes
  import opened Crc16
  import opened CrcTable

  // ----- the reference: sections "Key distribution model" and "Hash tags" of the Redis Cluster
  // specification -----

  const OPEN_BRACE: Byte := 123
  const CLOSE_BRACE: Byte := 125

  function Bits(b: Byte): bv8 {
    b as bv8
  }

  /** CRC-16/XMODEM, bit by bit */
  function Crc(key: Text): bv16 {
    if key == [] then 0 else CrcByte(Crc(key[..|key| - 1]), Bits(key[|key| - 1]))
  }

  /** The first position of `b` at or after `from`, or the length of the key. */
  function Find(key: Text, b: Byte, from: nat): (i: nat)
    ensures from <= |key| ==> from <= i <= |key| && b !in key[from..i] && (i < |key| ==> key[i] == b)
    decreases |key| - from
  {
    if from >= |key| then |key|
    else if key[from] == b then from
    else Find(key, b, from + 1)
  }

  function OpenAt(key: Text): nat {
    Find(key, OPEN_BRACE, 0)
  }

  function CloseAt(key: Text): nat {
    Find(key, CLOSE_BRACE, OpenAt(key) + 1)
  }

  /** What is between the first opening brace and the first closing brace after it, if both exist and
      something is; else the whole key. */
  function HashTag(key: Text): Text {
    var open, close := OpenAt(key), CloseAt(key);
    if open + 1 < close < |key| then key[open + 1..close] else key
  }

  function Slot(key: Text): bv16 {
    Crc(HashTag(key)) % 16384
  }

  /** `crc_next_byte` */
  method CrcNextByte(s: bv32, b: Byte) returns (r: bv32)
    ensures Low(r) == CrcByte(Low(s), Bits(b))
  {
    hide Entry, Low, CrcByte, Bits, Index;
    var i := Index(s, Bits(b));
    TableRight(i);
    ByteStep(s, Bits(b));
    r := (s << 8) ^ (CRC16TAB[(i >> 3) as int][(i & 7) as int] as bv32);
  }

  lemma MaskIsRemainder(s: bv32)
    ensures (s & 0x3FFF) as bv16 == Low(s) % 16384
  {
  }

  // ----- the automaton -----

  datatype Stage = Direct | BetweenBraces | WholeKey | Ignore

  lemma CrcSnoc(key: Text, b: Byte)
    ensures Crc(key + [b]) == CrcByte(Crc(key), Bits(b))
  {
    assert (key + [b])[..|key|] == key;
  }

  lemma {:induction false} FindSnoc(key: Text, x: Byte, from: nat, b: Byte)
    requires from <= |key|
    ensures var i := Find(key, x, from);
            Find(key + [b], x, from) == if i < |key| then i else if b == x then |key| else |key| + 1
    decreases |key| - from
  {
    if from < |key| && key[from] != x {
      FindSnoc(key, x, from + 1, b);
    }
  }

  /** Where the braces are after one more byte. */
  lemma BracesSnoc(key: Text, b: Byte)
    ensures OpenAt(key) <= |key|
    ensures OpenAt(key + [b]) == if OpenAt(key) == |key| && b != OPEN_BRACE then |key| + 1 else OpenAt(key)
    ensures CloseAt(key + [b]) ==
              if OpenAt(key) < |key| && (CloseAt(key) < |key| || b == CLOSE_BRACE) then CloseAt(key) else |key| + 1
  {
    FindSnoc(key, OPEN_BRACE, 0, b);
    if OpenAt(key) < |key| {
      FindSnoc(key, CLOSE_BRACE, OpenAt(key) + 1, b);
    }
  }

  class KeySlotCalc {
    var keySlot: bv32
    var keySlotAfterBrace: bv32
    var mode: Stage
    var matchedCloseBrace: bool
    var lastByteIsOpenBrace: bool
    ghost var key: Text

    /** What the fields say about the bytes fed so far. */
    ghost predicate Valid()
      reads this
    {
      var open, close := OpenAt(key), CloseAt(key);
      && open <= |key|
      && (mode != Ignore ==> Low(keySlot) == Crc(key))
      && (matchedCloseBrace <==> mode == Ignore)
      && match mode
         case Direct => open == |key| && Low(keySlotAfterBrace) == 0
         case BetweenBraces =>
           && open < |key| && close == |key| && Low(keySlotAfterBrace) == Crc(key[open + 1..])
           && (lastByteIsOpenBrace <==> open + 1 == |key|)
         case WholeKey => open + 1 == close < |key|
         case Ignore => open + 1 < close < |key| && Low(keySlotAfterBrace) == Crc(key[open + 1..close])
    }

    constructor ()
      ensures Valid() && key == []
    {
      keySlot, keySlotAfterBrace, mode := 0, 0, Direct;
      matchedCloseBrace, lastByteIsOpenBrace, key := false, false, [];
    }

    method Reset()
      modifies this
      ensures Valid() && key == []
    {
      keySlot, keySlotAfterBrace, mode := 0, 0, Direct;
      matchedCloseBrace, lastByteIsOpenBrace, key := false, false, [];
    }

    /** `get_slot`: the slot of the bytes fed since the last reset */
    method GetSlot() returns (slot: bv16)
      requires Valid()
      ensures slot == Slot(key)
    {
      hide Crc;
      MaskIsRemainder(keySlot);
      MaskIsRemainder(keySlotAfterBrace);
      slot := ((if matchedCloseBrace then keySlotAfterBrace else keySlot) & 0x3FFF) as bv16;
    }

    method NextByte(b: Byte)
      requires Valid()
      modifies this
      ensures Valid() && key == old(key) + [b]
    {
      hide Crc, CrcByte, Low, Bits;
      BracesSnoc(key, b);
      CrcSnoc(key, b);
      match mode
      case Direct => DirectByte(b);
      case BetweenBraces => BetweenByte(b);
      case WholeKey =>
        keySlot := CrcNextByte(keySlot, b);
        key := key + [b];
      case Ignore =>
        assert (key + [b])[OpenAt(key) + 1..CloseAt(key)] == key[OpenAt(key) + 1..CloseAt(key)];
        key := key + [b];
    }

    method DirectByte(b: Byte)
      requires Valid() && mode == Direct
      modifies this
      ensures Valid() && key == old(key) + [b]
    {
      hide Crc, CrcByte, Low, Bits;
      BracesSnoc(key, b);
      CrcSnoc(key, b);
      keySlot := CrcNextByte(keySlot, b);
      if b == OPEN_BRACE {
        lastByteIsOpenBrace := true;
        mode := BetweenBraces;
        EmptyTag(key, b);
      }
      key := key + [b];
    }

    method BetweenByte(b: Byte)
      requires Valid() && mode == BetweenBraces
      modifies this
      ensures Valid() && key == old(key) + [b]
    {
      hide Crc, CrcByte, Low, Bits, Find;
      BracesSnoc(key, b);
      CrcSnoc(key, b);
      ghost var open := OpenAt(key);
      assert (key + [b])[open + 1..|key|] == key[open + 1..];
      assert (key + [b])[open + 1..] == key[open + 1..] + [b];
      if b == CLOSE_BRACE {
        if lastByteIsOpenBrace {
          keySlot := CrcNextByte(keySlot, b);
          mode := WholeKey;
          key := key + [b];
          return;
        }
        mode := Ignore;
        matchedCloseBrace := true;
        key := key + [b];
        return;
      }
      CrcSnoc(key[open + 1..], b);
      lastByteIsOpenBrace := false;
      keySlot := CrcNextByte(keySlot, b);
      keySlotAfterBrace := CrcNextByte(keySlotAfterBrace, b);
      key := key + [b];
    }
  }

  lemma EmptyTag(key: Text, b: Byte)
    ensures Crc((key + [b])[|key| + 1..]) == 0
  {
  }

  /** The calculator of a command: fed a key byte by byte, it gives the slot of the cluster
      specification. */
  method SlotOf(key: Text) returns (slot: bv16)
    ensures slot == Slot(key)
  {
    hide Slot;
    var sc := new KeySlotCalc();
    for i := 0 to |key|
      invariant sc.Valid() && sc.key == key[..i]
      invariant fresh(sc)
    {
      sc.NextByte(key[i]);
    }
    assert key[..|key|] == key;
    slot := sc.GetSlot();
  }

  // ----- what the reference says of keys -----

  lemma {:induction false} FindsFirst(key: Text, b: Byte, from: nat, i: nat)
    requires from <= i <= |key| && b !in key[from..i] && (i < |key| ==> key[i] == b)
    ensures Find(key, b, from) == i
    decreases i - from
  {
    if from < i {
      assert key[from] == key[from..i][0];
      assert key[from..i][1..] == key[from + 1..i];
      FindsFirst(key, b, from + 1, i);
    }
  }

  /** Of a key with something between its first opening brace and the closing brace that follows, only that
      counts. */
  lemma TaggedKey(pre: Text, tag: Text, post: Text)
    requires 123 !in pre && 125 !in tag && tag != []
    ensures Slot(pre + ([123] + (tag + ([125] + post)))) == Crc(tag) % 16384
  {
    hide Crc, HashTag;
    var key := pre + ([123] + (tag + ([125] + post)));
    var a, b := |pre|, |pre| + 1 + |tag|;
    assert key[0..a] == pre;
    assert key[a + 1..b] == tag;
    TagAt(key, a, b);
  }

  lemma TagAt(key: Text, a: nat, b: nat)
    requires a + 1 < b < |key| && 123 !in key[0..a] && key[a] == 123 && 125 !in key[a + 1..b] && key[b] == 125
    ensures HashTag(key) == key[a + 1..b]
  {
    FindsFirst(key, 123, 0, a);
    FindsFirst(key, 125, a + 1, b);
  }

  /** Any other key counts as a whole: one without an opening brace, */
  lemma PlainKey(key: Text)
    requires 123 !in key
    ensures Slot(key) == Crc(key) % 16384
  {
    hide Crc;
    assert key[0..|key|] == key;
    FindsFirst(key, 123, 0, |key|);
  }

  /** one whose first opening brace is never closed, */
  lemma OpenKey(pre: Text, post: Text)
    requires 123 !in pre && 125 !in post
    ensures Slot(pre + ([123] + post)) == Crc(pre + ([123] + post)) % 16384
  {
    hide Crc;
    var key := pre + ([123] + post);
    assert key[0..|pre|] == pre && key[|pre|] == 123 && key[|pre| + 1..|key|] == post;
    FindsFirst(key, 123, 0, |pre|);
    FindsFirst(key, 125, |pre| + 1, |key|);
  }

  /** or one whose first opening brace is closed at once. */
  lemma BareBraces(pre: Text, post: Text)
    requires 123 !in pre
    ensures Slot(pre + ([123, 125] + post)) == Crc(pre + ([123, 125] + post)) % 16384
  {
    hide Crc;
    var key := pre + ([123, 125] + post);
    assert key[0..|pre|] == pre && key[|pre|] == 123 && key[|pre| + 1] == 125;
    FindsFirst(key, 123, 0, |pre|);
    FindsFirst(key, 125, |pre| + 1, |pre| + 1);
  }

  /** The slot of "foo" */
  lemma SlotOfFoo()
    ensures Slot([102, 111, 111]) == 12182
  {
    hide CrcByte, Bits, Slot, Crc;
    PlainKey([102, 111, 111]);
    CrcOfFoo();
    FooBits();
    FooCrc();
  }

  lemma CrcOfFoo()
    ensures Crc([102, 111, 111]) == CrcByte(CrcByte(CrcByte(0, Bits(102)), Bits(111)), Bits(111))
  {
    hide CrcByte, Bits;
    CrcSnoc([], 102);
    CrcSnoc([102], 111);
    CrcSnoc([102, 111], 111);
    assert [] + [102] == [102] && [102] + [111] == [102, 111] && [102, 111] + [111] == [102, 111, 111];
  }

  lemma FooBits()
    ensures Bits(102) == 102 && Bits(111) == 111
  {
  }

  lemma FooCrc()
    ensures CrcByte(CrcByte(CrcByte(0, 102), 111), 111) % 16384 == 12182
  {
  }
}
