/** CRC-16/XMODEM, bit by bit, and what eight of its shifts do at once. */
module Crc16 {
  /** One bit of CRC-16/XMODEM, polynomial 0x1021 */
  function Shift(c: bv16): bv16 {
    if c & 0x8000 != 0 then (c << 1) ^ 0x1021 else c << 1
  }

  function EightShifts(c: bv16): bv16 {
    Shift(Shift(Shift(Shift(Shift(Shift(Shift(Shift(c))))))))
  }

  function CrcByte(c: bv16, b: bv8): bv16 {
    EightShifts(c ^ ((b as bv16) << 8))
  }

  /** What the table's entry for `i` must be. */
  function Entry(i: bv8): bv16 {
    EightShifts((i as bv16) << 8)
  }

  // ----- shifting is linear -----

  function Xor(a: bv16, b: bv16): bv16 {
    a ^ b
  }

  lemma XorComm(a: bv16, b: bv16)
    ensures Xor(a, b) == Xor(b, a)
  {
  }

  lemma XorAssoc(a: bv16, b: bv16, c: bv16)
    ensures Xor(Xor(a, b), c) == Xor(a, Xor(b, c))
  {
  }

  lemma XorExchange(p: bv16, q: bv16, r: bv16, s: bv16)
    ensures Xor(Xor(p, q), Xor(r, s)) == Xor(Xor(p, r), Xor(q, s))
  {
    hide Xor;
    XorAssoc(p, q, Xor(r, s));
    XorAssoc(q, r, s);
    XorComm(q, r);
    XorAssoc(r, q, s);
    XorAssoc(p, r, Xor(q, s));
  }

  function Up(c: bv16): bv16 {
    c << 1
  }

  /** The polynomial if the top bit is set, else 0, without a branch. */
  function Feedback(c: bv16): bv16 {
    (0 - (c >> 15)) & 0x1021
  }

  lemma UpLinear(a: bv16, b: bv16)
    ensures Up(Xor(a, b)) == Xor(Up(a), Up(b))
  {
  }

  lemma FeedbackLinear(a: bv16, b: bv16)
    ensures Feedback(Xor(a, b)) == Xor(Feedback(a), Feedback(b))
  {
  }

  lemma ShiftParts(c: bv16)
    ensures Shift(c) == Xor(Up(c), Feedback(c))
  {
    if c & 0x8000 != 0 {
      assert c >> 15 == 1;
      assert 0 - (c >> 15) == 0xFFFF;
    } else {
      assert c >> 15 == 0;
      assert 0 - (c >> 15) == 0;
    }
  }

  lemma ShiftLinear(a: bv16, b: bv16)
    ensures Shift(Xor(a, b)) == Xor(Shift(a), Shift(b))
  {
    hide Shift, Xor, Up, Feedback;
    ShiftParts(a);
    ShiftParts(b);
    ShiftParts(Xor(a, b));
    UpLinear(a, b);
    FeedbackLinear(a, b);
    XorExchange(Up(a), Up(b), Feedback(a), Feedback(b));
  }

  lemma EightLinear(a: bv16, b: bv16)
    ensures EightShifts(Xor(a, b)) == Xor(EightShifts(a), EightShifts(b))
  {
    hide Shift, Xor;
    var a1, b1 := Shift(a), Shift(b);
    var a2, b2 := Shift(a1), Shift(b1);
    var a3, b3 := Shift(a2), Shift(b2);
    var a4, b4 := Shift(a3), Shift(b3);
    var a5, b5 := Shift(a4), Shift(b4);
    var a6, b6 := Shift(a5), Shift(b5);
    var a7, b7 := Shift(a6), Shift(b6);
    ShiftLinear(a, b);
    ShiftLinear(a1, b1);
    ShiftLinear(a2, b2);
    ShiftLinear(a3, b3);
    ShiftLinear(a4, b4);
    ShiftLinear(a5, b5);
    ShiftLinear(a6, b6);
    ShiftLinear(a7, b7);
  }

  lemma NoFeedback(c: bv16)
    requires c & 0x8000 == 0
    ensures Shift(c) == c << 1
  {
  }

  /** The low byte is only moved up. */
  lemma LowByte(c: bv16)
    requires c & 0xFF00 == 0
    ensures EightShifts(c) == c << 8
  {
    hide Shift;
    NoFeedback(c);
    NoFeedback(c << 1);
    NoFeedback(c << 2);
    NoFeedback(c << 3);
    NoFeedback(c << 4);
    NoFeedback(c << 5);
    NoFeedback(c << 6);
    NoFeedback(c << 7);
  }

  lemma Halves(c: bv16)
    ensures Xor(c & 0x00FF, c & 0xFF00) == c && (c & 0x00FF) & 0xFF00 == 0 && (c & 0x00FF) << 8 == c << 8
  {
  }

  /** Shifting in eight bits moves the low byte up and leaves the shifts of the high byte. */
  lemma HighByte(c: bv16)
    ensures EightShifts(c) == Xor(c << 8, EightShifts(c & 0xFF00))
  {
    hide EightShifts, Xor;
    Halves(c);
    LowByte(c & 0x00FF);
    EightLinear(c & 0x00FF, c & 0xFF00);
  }

  // ----- the 32-bit accumulator, which is never masked -----

  function Low(s: bv32): bv16 {
    (s & 0xFFFF) as bv16
  }

  /** The index `crc_next_byte` looks up. */
  function Index(s: bv32, b: bv8): bv8 {
    (((s >> 8) ^ (b as bv32)) & 0xFF) as bv8
  }

  lemma IndexByte(s: bv32, b: bv8)
    ensures var c := Low(s) ^ ((b as bv16) << 8); c & 0xFF00 == (Index(s, b) as bv16) << 8 && c << 8 == Low(s) << 8
  {
  }

  lemma LowShift(s: bv32, e: bv16)
    ensures Low((s << 8) ^ (e as bv32)) == Xor(Low(s) << 8, e)
  {
  }

  /** One lookup is the eight shifts of one byte, whatever the bits above the lowest sixteen are. */
  lemma ByteStep(s: bv32, b: bv8)
    ensures Low((s << 8) ^ (Entry(Index(s, b)) as bv32)) == CrcByte(Low(s), b)
  {
    hide EightShifts, Low, Index, Xor;
    HighByte(Low(s) ^ ((b as bv16) << 8));
    IndexByte(s, b);
    LowShift(s, Entry(Index(s, b)));
  }
}
