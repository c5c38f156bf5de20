/** Printing integers: a digit count by multiplication and shift, and digits written two at a time. */
module Decimal {
  import opened Bytes
  import opened Resp
  import opened DecimalText

  const TWO_TO_64: nat := 0x1_0000_0000_0000_0000

  // ----- counting digits -----

  function NumDigits(n: nat): nat {
    if n < 10 then 1 else 1 + NumDigits(n / 10)
  }

  function Pow10(k: nat): (p: nat)
    ensures p > 0
  {
    if k == 0 then 1 else 10 * Pow10(k - 1)
  }

  lemma {:induction false} NumeralLength(n: nat)
    ensures |Numeral(n)| == NumDigits(n)
  {
    if n >= 10 {
      NumeralLength(n / 10);
    }
  }

  lemma {:induction false} Pow10Mono(a: nat, b: nat)
    requires a <= b
    ensures Pow10(a) <= Pow10(b)
    decreases b
  {
    if a < b {
      Pow10Mono(a, b - 1);
    }
  }

  /** A number of `d` digits lies between two powers of ten. */
  lemma {:induction false} DigitsBetween(n: nat)
    ensures n < Pow10(NumDigits(n)) && (n > 0 ==> Pow10(NumDigits(n) - 1) <= n)
  {
    if n >= 10 {
      DigitsBetween(n / 10);
    } else {
      assert Pow10(1) == 10 * Pow10(0);
    }
  }

  /** Two powers of ten around a number tell its digits. */
  lemma DigitsFrom(n: nat, d: nat)
    requires d > 0 && n < Pow10(d) && Pow10(d - 1) <= n
    ensures NumDigits(n) == d
  {
    DigitsBetween(n);
    var e := NumDigits(n);
    assert n > 0;
    if d < e {
      Pow10Mono(d, e - 1);
    } else if e < d {
      Pow10Mono(e, d - 1);
    }
  }

  function Pow2(k: nat): (p: nat)
    ensures p > 0
  {
    if k == 0 then 1 else 2 * Pow2(k - 1)
  }

  /** 64 less the number of leading zeros */
  function BitLength(n: nat): nat {
    if n == 0 then 0 else 1 + BitLength(n / 2)
  }

  lemma {:induction false} BitsBetween(n: nat)
    requires n > 0
    ensures Pow2(BitLength(n) - 1) <= n < Pow2(BitLength(n))
  {
    if n == 1 {
      assert BitLength(1) == 1 + BitLength(0);
      assert Pow2(1) == 2 * Pow2(0);
    } else {
      BitsBetween(n / 2);
    }
  }

  lemma {:induction false} Pow2Mono(a: nat, b: nat)
    requires a <= b
    ensures Pow2(a) <= Pow2(b)
    decreases b
  {
    if a < b {
      Pow2Mono(a, b - 1);
    }
  }

  const POWERS_OF_10_64: seq<nat> := [
    0,
    10, 100, 1000, 10000, 100000, 1000000, 10000000, 100000000, 1000000000,
    10000000000, 100000000000, 1000000000000, 10000000000000, 100000000000000,
    1000000000000000, 10000000000000000, 100000000000000000, 1000000000000000000,
    10000000000000000000
  ]

  /** The index of the fast form for a number of `bits` bits */
  function Index(bits: nat): nat {
    bits * 1233 / 4096
  }

  /** The fewest and the most bits whose index is `t` */
  const FEWEST: seq<nat> := [1, 4, 7, 10, 14, 17, 20, 24, 27, 30, 34, 37, 40, 44, 47, 50, 54, 57, 60, 64]
  const MOST: seq<nat> := [3, 6, 9, 13, 16, 19, 23, 26, 29, 33, 36, 39, 43, 46, 49, 53, 56, 59, 63, 64]

  lemma IndexRange(bits: nat)
    requires 1 <= bits <= 64
    ensures Index(bits) < 20 && FEWEST[Index(bits)] <= bits <= MOST[Index(bits)]
  {
  }

  /** The table holds the powers of ten, and the bits of an index put a number between two of them. */
  predicate Right(t: nat)
    requires t < 20
  {
    && POWERS_OF_10_64[t] == (if t == 0 then 0 else Pow10(t))
    && Pow10(t) <= 10 * Pow2(FEWEST[t] - 1) && Pow2(MOST[t]) <= 10 * Pow10(t)
  }

  lemma KnownPow10()
    ensures Pow10(0) == 1 && Pow10(1) == 10
    ensures Pow10(2) == 100 && Pow10(3) == 1000
    ensures Pow10(4) == 10000 && Pow10(5) == 100000
    ensures Pow10(6) == 1000000 && Pow10(7) == 10000000
    ensures Pow10(8) == 100000000 && Pow10(9) == 1000000000
    ensures Pow10(10) == 10000000000 && Pow10(11) == 100000000000
    ensures Pow10(12) == 1000000000000 && Pow10(13) == 10000000000000
    ensures Pow10(14) == 100000000000000 && Pow10(15) == 1000000000000000
    ensures Pow10(16) == 10000000000000000 && Pow10(17) == 100000000000000000
    ensures Pow10(18) == 1000000000000000000 && Pow10(19) == 10000000000000000000
  {
  }

  lemma KnownPow2To16()
    ensures Pow2(0) == 0x1 && Pow2(3) == 0x8 && Pow2(6) == 0x40
    ensures Pow2(9) == 0x200 && Pow2(13) == 0x2000 && Pow2(16) == 0x10000
  {
    assert Pow2(1) == 2 * Pow2(0) && Pow2(2) == 2 * Pow2(1) && Pow2(3) == 2 * Pow2(2) && Pow2(4) == 2 * Pow2(3);
    assert Pow2(5) == 2 * Pow2(4) && Pow2(6) == 2 * Pow2(5) && Pow2(7) == 2 * Pow2(6) && Pow2(8) == 2 * Pow2(7);
    assert Pow2(9) == 2 * Pow2(8) && Pow2(10) == 2 * Pow2(9) && Pow2(11) == 2 * Pow2(10) && Pow2(12) == 2 * Pow2(11);
    assert Pow2(13) == 2 * Pow2(12) && Pow2(14) == 2 * Pow2(13) && Pow2(15) == 2 * Pow2(14) && Pow2(16) == 2 * Pow2(15);
  }

  lemma KnownPow2To32()
    ensures Pow2(19) == 0x80000 && Pow2(23) == 0x800000 && Pow2(26) == 0x4000000
    ensures Pow2(29) == 0x20000000 && Pow2(32) == 0x100000000
  {
    KnownPow2To16();
    assert Pow2(17) == 2 * Pow2(16) && Pow2(18) == 2 * Pow2(17) && Pow2(19) == 2 * Pow2(18) && Pow2(20) == 2 * Pow2(19);
    assert Pow2(21) == 2 * Pow2(20) && Pow2(22) == 2 * Pow2(21) && Pow2(23) == 2 * Pow2(22) && Pow2(24) == 2 * Pow2(23);
    assert Pow2(25) == 2 * Pow2(24) && Pow2(26) == 2 * Pow2(25) && Pow2(27) == 2 * Pow2(26) && Pow2(28) == 2 * Pow2(27);
    assert Pow2(29) == 2 * Pow2(28) && Pow2(30) == 2 * Pow2(29) && Pow2(31) == 2 * Pow2(30) && Pow2(32) == 2 * Pow2(31);
  }

  lemma KnownPow2To48()
    ensures Pow2(33) == 0x200000000 && Pow2(36) == 0x1000000000 && Pow2(39) == 0x8000000000
    ensures Pow2(43) == 0x80000000000 && Pow2(46) == 0x400000000000 && Pow2(48) == 0x1000000000000
  {
    KnownPow2To32();
    assert Pow2(33) == 2 * Pow2(32) && Pow2(34) == 2 * Pow2(33) && Pow2(35) == 2 * Pow2(34) && Pow2(36) == 2 * Pow2(35);
    assert Pow2(37) == 2 * Pow2(36) && Pow2(38) == 2 * Pow2(37) && Pow2(39) == 2 * Pow2(38) && Pow2(40) == 2 * Pow2(39);
    assert Pow2(41) == 2 * Pow2(40) && Pow2(42) == 2 * Pow2(41) && Pow2(43) == 2 * Pow2(42) && Pow2(44) == 2 * Pow2(43);
    assert Pow2(45) == 2 * Pow2(44) && Pow2(46) == 2 * Pow2(45) && Pow2(47) == 2 * Pow2(46) && Pow2(48) == 2 * Pow2(47);
  }

  lemma KnownPow2To64()
    ensures Pow2(49) == 0x2000000000000 && Pow2(53) == 0x20000000000000 && Pow2(56) == 0x100000000000000
    ensures Pow2(59) == 0x800000000000000 && Pow2(63) == 0x8000000000000000 && Pow2(64) == 0x10000000000000000
  {
    KnownPow2To48();
    assert Pow2(49) == 2 * Pow2(48) && Pow2(50) == 2 * Pow2(49) && Pow2(51) == 2 * Pow2(50) && Pow2(52) == 2 * Pow2(51);
    assert Pow2(53) == 2 * Pow2(52) && Pow2(54) == 2 * Pow2(53) && Pow2(55) == 2 * Pow2(54) && Pow2(56) == 2 * Pow2(55);
    assert Pow2(57) == 2 * Pow2(56) && Pow2(58) == 2 * Pow2(57) && Pow2(59) == 2 * Pow2(58) && Pow2(60) == 2 * Pow2(59);
    assert Pow2(61) == 2 * Pow2(60) && Pow2(62) == 2 * Pow2(61) && Pow2(63) == 2 * Pow2(62) && Pow2(64) == 2 * Pow2(63);
  }

  lemma IndexRight(t: nat)
    requires t < 20
    ensures Right(t)
  {
    hide Pow2, Pow10;
    KnownPow10();
    KnownPow2To16();
    KnownPow2To32();
    KnownPow2To48();
    KnownPow2To64();
  }

  /** `n | 1` */
  function OrOne(n: nat): nat {
    if n % 2 == 0 then n + 1 else n
  }

  /** The number of leading zeros of a 64-bit number that is not 0 */
  function LeadingZeros(n: nat): nat
    requires 0 < n < TWO_TO_64
  {
    BitsWithin64(n);
    64 - BitLength(n)
  }

  lemma BitsWithin64(n: nat)
    requires 0 < n < TWO_TO_64
    ensures 1 <= BitLength(n) <= 64
  {
    hide Pow2;
    BitsBetween(n);
    if BitLength(n) > 64 {
      Pow2Mono(64, BitLength(n) - 1);
      KnownPow2To64();
    }
  }

  lemma OrOneBits(n: nat)
    requires n > 0
    ensures Pow2(BitLength(OrOne(n)) - 1) <= n < Pow2(BitLength(OrOne(n)))
  {
    hide BitLength;
    BitsBetween(OrOne(n));
    assert BitLength(OrOne(n)) > 1 ==> Pow2(BitLength(OrOne(n)) - 1) == 2 * Pow2(BitLength(OrOne(n)) - 2);
  }

  /** `count_digits`, by multiplication and shift: the table index stays in bounds, and the result is
      the true number of decimal digits. */
  method CountDigits(n: nat) returns (count: int)
    requires n < TWO_TO_64
    ensures count == NumDigits(n)
  {
    hide POWERS_OF_10_64, FEWEST, MOST, Pow10, Pow2, BitLength, NumDigits;
    BitsWithin64(OrOne(n));
    var t := (64 - LeadingZeros(OrOne(n))) * 1233 / 4096;
    IndexRange(BitLength(OrOne(n)));
    TableLength();
    FastCount(n, t);
    count := t - (if n < POWERS_OF_10_64[t] then 1 else 0) + 1;
  }

  lemma TableLength()
    ensures |POWERS_OF_10_64| == 20
  {
  }

  lemma ZeroDigits()
    ensures NumDigits(0) == 1 && Index(BitLength(OrOne(0))) == 0 && POWERS_OF_10_64[0] == 0
  {
    assert BitLength(1) == 1 + BitLength(0);
  }

  lemma FastCount(n: nat, t: nat)
    requires n < TWO_TO_64 && t == Index(BitLength(OrOne(n))) && 1 <= BitLength(OrOne(n)) <= 64
    ensures t < |POWERS_OF_10_64| && NumDigits(n) == t - (if n < POWERS_OF_10_64[t] then 1 else 0) + 1
  {
    hide BitLength, NumDigits, Pow2;
    IndexRange(BitLength(OrOne(n)));
    IndexRight(t);
    if n == 0 {
      ZeroDigits();
      return;
    }
    var bits := BitLength(OrOne(n));
    OrOneBits(n);
    Pow2Mono(FEWEST[t] - 1, bits - 1);
    Pow2Mono(bits, MOST[t]);
    assert Pow10(t) <= 10 * n && n < Pow10(t + 1);
    if t > 0 && n < Pow10(t) {
      DigitsFrom(n, t);
    } else {
      assert t == 0 ==> Pow10(0) == 1;
      DigitsFrom(n, t + 1);
    }
  }

  lemma FourDigits(n: nat)
    ensures n >= 10000 ==> NumDigits(n) == 4 + NumDigits(n / 10000)
    ensures n < 10000 ==> NumDigits(n) == if n < 10 then 1 else if n < 100 then 2 else if n < 1000 then 3 else 4
  {
    var a := n / 10;
    var b := a / 10;
    var c := b / 10;
    assert b == n / 100 && c == n / 1000 && c / 10 == n / 10000;
    assert NumDigits(n) == if n < 10 then 1 else 1 + NumDigits(a);
    assert NumDigits(a) == if a < 10 then 1 else 1 + NumDigits(b);
    assert NumDigits(b) == if b < 10 then 1 else 1 + NumDigits(c);
    assert NumDigits(c) == if c < 10 then 1 else 1 + NumDigits(c / 10);
  }

  /** The fallback form of `count_digits`, four digits at a time */
  method CountDigitsByDivision(n: nat) returns (count: nat)
    ensures count == NumDigits(n)
  {
    hide NumDigits;
    count := 1;
    var left := n;
    while true
      invariant NumDigits(n) == count - 1 + NumDigits(left)
      decreases left
    {
      FourDigits(left);
      if left < 10 {
        return;
      }
      if left < 100 {
        return count + 1;
      }
      if left < 1000 {
        return count + 2;
      }
      if left < 10000 {
        return count + 3;
      }
      left := left / 10000;
      count := count + 4;
    }
  }

  // ----- writing digits -----

  /** The two digits of 0 to 99, in lines of ten */
  const LINE_0: string := "00010203040506070809"
  const LINE_1: string := "10111213141516171819"
  const LINE_2: string := "20212223242526272829"
  const LINE_3: string := "30313233343536373839"
  const LINE_4: string := "40414243444546474849"
  const LINE_5: string := "50515253545556575859"
  const LINE_6: string := "60616263646566676869"
  const LINE_7: string := "70717273747576777879"
  const LINE_8: string := "80818283848586878889"
  const LINE_9: string := "90919293949596979899"
  const DIGITS: seq<string> := [LINE_0, LINE_1, LINE_2, LINE_3, LINE_4, LINE_5, LINE_6, LINE_7, LINE_8, LINE_9]

  /** The line of the numbers whose first digit is `t` */
  function Line(t: char): string {
    [t, '0', t, '1', t, '2', t, '3', t, '4', t, '5', t, '6', t, '7', t, '8', t, '9']
  }

  lemma LinesLow()
    ensures LINE_0 == Line('0') && LINE_1 == Line('1') && LINE_2 == Line('2') && LINE_3 == Line('3') && LINE_4 == Line('4')
  {
  }

  lemma LinesHigh()
    ensures LINE_5 == Line('5') && LINE_6 == Line('6') && LINE_7 == Line('7') && LINE_8 == Line('8') && LINE_9 == Line('9')
  {
  }

  lemma InLine(t: char, i: nat)
    requires i < 10
    ensures |Line(t)| == 20 && Line(t)[2 * i] == t && Line(t)[2 * i + 1] as int == 48 + i
  {
  }

  lemma LineOf(tens: nat)
    requires tens < 10
    ensures |DIGITS| == 10 && DIGITS[tens] == Line((48 + tens) as char)
  {
    hide Line, LINE_0, LINE_1, LINE_2, LINE_3, LINE_4, LINE_5, LINE_6, LINE_7, LINE_8, LINE_9;
    LinesLow();
    LinesHigh();
  }

  /** Every pair of the table spells its index. */
  lemma DigitsRight(v: nat)
    requires v < 100
    ensures |DIGITS| == 10 && |DIGITS[v / 10]| == 20
    ensures DIGITS[v / 10][v % 10 * 2] as int == 48 + v / 10 && DIGITS[v / 10][v % 10 * 2 + 1] as int == 48 + v % 10
  {
    hide Line, DIGITS;
    LineOf(v / 10);
    InLine((48 + v / 10) as char, v % 10);
  }

  function Spelling(v: nat): Text
    requires v < 100
  {
    [ZERO + (v / 10) as Byte, ZERO + (v % 10) as Byte]
  }

  lemma TwoDigits(v: nat)
    ensures v >= 100 ==> Numeral(v) == Numeral(v / 100) + Spelling(v % 100) && NumDigits(v) == NumDigits(v / 100) + 2
    ensures 10 <= v < 100 ==> Numeral(v) == Spelling(v) && NumDigits(v) == 2
    ensures v < 10 ==> Numeral(v) == [ZERO + v as Byte] && NumDigits(v) == 1
  {
    if v >= 10 {
      var a := v / 10;
      assert Numeral(v) == Numeral(a) + [ZERO + (v % 10) as Byte];
      if v >= 100 {
        assert Numeral(a) == Numeral(a / 10) + [ZERO + (a % 10) as Byte];
        assert a / 10 == v / 100 && a % 10 == v % 100 / 10 && v % 100 % 10 == v % 10;
      } else {
        assert Numeral(a) == [ZERO + a as Byte];
      }
    }
  }

  /** Two cells before `end` take the digits of `v`. */
  method WritePair(buffer: array<Byte>, end: nat, v: nat)
    requires 2 <= end <= buffer.Length && v < 100
    modifies buffer
    ensures buffer[..] == old(buffer[..end - 2]) + Spelling(v) + old(buffer[end..])
  {
    hide DIGITS;
    DigitsRight(v);
    buffer[end - 1] := DIGITS[v / 10][v % 10 * 2 + 1] as int as Byte;
    buffer[end - 2] := DIGITS[v / 10][v % 10 * 2] as int as Byte;
  }

  /** `format_decimal`: with the right number of digits, exactly those cells hold the numeral. */
  method FormatDecimal(buffer: array<Byte>, value: nat, count: nat)
    requires count == NumDigits(value) && count <= buffer.Length
    modifies buffer
    ensures buffer[..] == Numeral(value) + old(buffer[count..])
  {
    hide Numeral, NumDigits, Spelling;
    var end, left := count, value;
    ghost var after := buffer[count..];
    while left >= 100
      invariant end == NumDigits(left) <= count
      invariant Numeral(left) + buffer[end..] == Numeral(value) + after
      decreases left
    {
      TwoDigits(left);
      ghost var was, pair := buffer[end..], Spelling(left % 100);
      WritePair(buffer, end, left % 100);
      left, end := left / 100, end - 2;
      assert buffer[end..] == pair + was;
      assert Numeral(left) + (pair + was) == Numeral(left) + pair + was;
    }
    TwoDigits(left);
    ghost var was := buffer[end..];
    if left < 10 {
      buffer[end - 1] := ZERO + left as Byte;
      assert buffer[..] == Numeral(left) + was;
    } else {
      WritePair(buffer, end, left);
      assert buffer[..] == Numeral(left) + was;
    }
  }

  /** A number is counted, then written: the cells read back as the number. */
  method Print(n: nat) returns (text: Text)
    requires n < TWO_TO_64
    ensures text == Numeral(n) && Value(text) == n
  {
    hide Numeral, NumDigits;
    var count := CountDigits(n);
    NumeralLength(n);
    NumeralReads(n);
    var buffer := new Byte[count](_ => 0);
    FormatDecimal(buffer, n, count);
    text := buffer[..];
    assert buffer[count..] == [];
  }
}
