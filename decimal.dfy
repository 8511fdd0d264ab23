/** Decimal digits of integers: the text `strconv.AppendInt`, `strconv.Itoa`
    and the buffer's `WritePosIntWidth` produce, and the value a reader gets
    back from it. */
module Decimal {
  import opened Text

  predicate IsDigit(c: char) { '0' <= c <= '9' }

  function Digit(d: nat): (c: ascii)
    requires d < 10
    ensures IsDigit(c) && c as int - '0' as int == d
  {
    ('0' as int + d) as char
  }

  /** Number of decimal digits of `n` (zero has one digit). */
  function DigitCount(n: nat): (k: nat)
    ensures k >= 1
    ensures (k == 1) == (n < 10)
  {
    if n < 10 then 1 else 1 + DigitCount(n / 10)
  }

  /** The decimal digits of `n`, most significant first, no leading zeros. */
  function Digits(n: nat): (r: Text)
    ensures |r| == DigitCount(n)
    ensures forall i :: 0 <= i < |r| ==> IsDigit(r[i])
    ensures |r| > 1 ==> r[0] != '0'
  {
    if n < 10 then [Digit(n)] else Digits(n / 10) + [Digit(n % 10)]
  }

  /** The value a reader assigns to a string of decimal digits. */
  function ValueOf(s: seq<char>): nat
    requires forall i :: 0 <= i < |s| ==> IsDigit(s[i])
  {
    if s == [] then 0
    else
      assert IsDigit(s[|s| - 1]);
      ValueOf(s[..|s| - 1]) * 10 + (s[|s| - 1] as int - '0' as int)
  }

  lemma {:induction false} DigitsRoundTrip(n: nat)
    ensures ValueOf(Digits(n)) == n
  {
    if n >= 10 {
      var s := Digits(n);
      assert s[..|s| - 1] == Digits(n / 10);
      DigitsRoundTrip(n / 10);
    }
  }

  /** Digit strings without leading zeros determine their value uniquely. */
  lemma {:induction false} DigitsInjective(m: nat, n: nat)
    requires Digits(m) == Digits(n)
    ensures m == n
  {
    DigitsRoundTrip(m);
    DigitsRoundTrip(n);
  }

  function Zeros(k: nat): (r: Text)
    ensures |r| == k && forall i :: 0 <= i < k ==> r[i] == '0'
  {
    seq(k, _ => '0')
  }

  /** The digits of `n` left-padded with '0' to at least `width` characters. */
  function ZeroPadded(n: nat, width: int): Text
  {
    Zeros(Max(0, width - DigitCount(n))) + Digits(n)
  }

  lemma ZeroPaddedLength(n: nat, width: int)
    ensures |ZeroPadded(n, width)| == Max(width, DigitCount(n))
    ensures |ZeroPadded(n, width)| >= 1
  {
  }

  /** Widths up to the digit count add no padding. */
  lemma ZeroPaddedNoPadding(n: nat, width: int)
    requires width <= DigitCount(n)
    ensures ZeroPadded(n, width) == Digits(n)
  {
    assert Zeros(0) == [];
  }

  lemma {:induction false} LeadingZerosValue(k: nat, s: seq<char>)
    requires forall i :: 0 <= i < |s| ==> IsDigit(s[i])
    ensures forall i :: 0 <= i < |Zeros(k) + s| ==> IsDigit((Zeros(k) + s)[i])
    ensures ValueOf(Zeros(k) + s) == ValueOf(s)
  {
    var t := Zeros(k) + s;
    if s == [] {
      if k > 0 {
        assert t[..|t| - 1] == Zeros(k - 1) + [];
        LeadingZerosValue(k - 1, []);
      }
      assert t == Zeros(k);
    } else {
      assert t[..|t| - 1] == Zeros(k) + s[..|s| - 1];
      LeadingZerosValue(k, s[..|s| - 1]);
    }
  }

  /** Padding does not change the value the digits denote. */
  lemma ZeroPaddedRoundTrip(n: nat, width: int)
    ensures forall i :: 0 <= i < |ZeroPadded(n, width)| ==> IsDigit(ZeroPadded(n, width)[i])
    ensures ValueOf(ZeroPadded(n, width)) == n
  {
    LeadingZerosValue(Max(0, width - DigitCount(n)), Digits(n));
    DigitsRoundTrip(n);
  }

  /** One step of the buffer's back-to-front digit loop: while more than one
      character remains, the last one is the low digit of `n`. */
  lemma ZeroPaddedStep(n: nat, width: int)
    requires n >= 10 || width > 1
    ensures ZeroPadded(n, width) == ZeroPadded(n / 10, width - 1) + [Digit(n % 10)]
  {
    if n < 10 {
      var k := width - 1;
      assert Zeros(k) == Zeros(k - 1) + [Digit(0)];
    }
  }

  lemma ZeroPaddedLast(n: nat, width: int)
    requires n < 10 && width <= 1
    ensures ZeroPadded(n, width) == [Digit(n)]
  {
    assert Zeros(0) == [];
  }

  /** `strconv.AppendInt(nil, i, 10)` / `strconv.Itoa(i)`. */
  function Signed(i: int): (r: Text)
    ensures |r| >= 1
  {
    if i < 0 then "-" + Digits(-i) else Digits(i)
  }

  /** The value a reader assigns to an optionally signed digit string. */
  function SignedValueOf(s: Text): int
    requires s != [] && forall i :: 0 < i < |s| ==> IsDigit(s[i])
    requires s[0] == '-' || IsDigit(s[0])
  {
    if s[0] == '-' then 0 - ValueOf(s[1..]) as int else ValueOf(s)
  }

  lemma SignedRoundTrip(i: int)
    ensures Signed(i) != [] && (Signed(i)[0] == '-' || IsDigit(Signed(i)[0]))
    ensures forall k :: 0 < k < |Signed(i)| ==> IsDigit(Signed(i)[k])
    ensures SignedValueOf(Signed(i)) == i
  {
    var s := Signed(i);
    if i < 0 {
      var d := Digits(-i);
      NegativeDigits(-i);
      assert s == "-" + d;
      assert s[0] == '-';
      assert SignedValueOf(s) == 0 - ValueOf(s[1..]) as int;
    } else {
      DigitsRoundTrip(i);
      assert s == Digits(i);
    }
  }

  lemma NegativeDigits(n: nat)
    ensures var s := "-" + Digits(n);
      (forall k :: 0 < k < |s| ==> IsDigit(s[k])) && ValueOf(s[1..]) == n
  {
    var d := Digits(n);
    assert ("-" + d)[1..] == d;
    DigitsRoundTrip(n);
  }
}
