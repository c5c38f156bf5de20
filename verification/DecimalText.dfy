/** Decimal numerals. */
module DecimalText {
  import opened Bytes
  import opened Resp

  /** The numeral of `n`, without leading zeros. */
  function Numeral(n: nat): Text {
    if n < 10 then [ZERO + n as Byte] else Numeral(n / 10) + [ZERO + (n % 10) as Byte]
  }

  lemma {:induction false} ValueSnoc(acc: int, d: Text, b: Byte)
    ensures ValueFrom(acc, d + [b]) == ValueFrom(acc, d) * 10 + (b as int - ZERO as int)
    decreases |d|
  {
    if d == [] {
      assert [b][1..] == [] && d + [b] == [b];
    } else {
      assert (d + [b])[1..] == d[1..] + [b];
      ValueSnoc(acc * 10 + (d[0] as int - ZERO as int), d[1..], b);
    }
  }

  /** A numeral reads back as its number. */
  lemma {:induction false} NumeralReads(n: nat)
    ensures Digits(Numeral(n)) && Value(Numeral(n)) == n
  {
    if n < 10 {
      ValueSnoc(0, [], ZERO + n as Byte);
      assert [] + [ZERO + n as Byte] == [ZERO + n as Byte];
    } else {
      NumeralReads(n / 10);
      ValueSnoc(0, Numeral(n / 10), ZERO + (n % 10) as Byte);
    }
  }

  /** A decimal text without leading zeros: one digit, or a first digit that is not 0 */
  predicate Plain(d: Text) {
    |d| == 1 || (d != [] && d[0] != ZERO)
  }

  lemma {:induction false} NumeralPlain(n: nat)
    ensures Plain(Numeral(n)) && (n > 0 ==> Numeral(n)[0] != ZERO)
  {
    if n >= 10 {
      NumeralPlain(n / 10);
    }
  }

  lemma {:induction false} ValuePositive(acc: nat, d: Text)
    requires forall i :: 0 <= i < |d| ==> ZERO <= d[i] < ZERO + 10
    ensures ValueFrom(acc, d) >= acc
    decreases |d|
  {
    if d != [] {
      ValuePositive(acc * 10 + (d[0] as int - ZERO as int), d[1..]);
    }
  }

  lemma FirstDigitCounts(d: Text)
    requires Digits(d) && d[0] != ZERO
    ensures Value(d) > 0
  {
    ValuePositive((d[0] - ZERO) as int, d[1..]);
  }

  lemma NumeralSnoc(n: nat, b: Byte)
    requires n > 0 && ZERO <= b < ZERO + 10
    ensures Numeral(n * 10 + (b as int - ZERO as int)) == Numeral(n) + [b]
  {
    var x := b as int - ZERO as int;
    assert (n * 10 + x) / 10 == n && (n * 10 + x) % 10 == x;
  }

  /** A decimal text without leading zeros is the numeral of its value. */
  lemma {:induction false} PlainIsNumeral(d: Text)
    requires Digits(d) && Plain(d)
    ensures Value(d) >= 0 && d == Numeral(Value(d))
    decreases |d|
  {
    var init, b := d[..|d| - 1], d[|d| - 1];
    assert d == init + [b];
    ValueSnoc(0, init, b);
    if init == [] {
      OneDigit(b);
    } else {
      hide Numeral;
      PlainIsNumeral(init);
      FirstDigitCounts(init);
      NumeralSnoc(Value(init), b);
    }
  }

  lemma OneDigit(b: Byte)
    requires ZERO <= b < ZERO + 10
    ensures Value([b]) == b as int - ZERO as int && Numeral(Value([b])) == [b]
  {
    ValueSnoc(0, [], b);
    assert [] + [b] == [b];
  }

  /** The texts of numbers: those that read back and have no leading zeros */
  lemma NumeralIff(d: Text)
    requires Digits(d) && Value(d) >= 0
    ensures d == Numeral(Value(d)) <==> Plain(d)
  {
    hide Numeral;
    NumeralPlain(Value(d));
    if Plain(d) {
      PlainIsNumeral(d);
    }
  }
}
