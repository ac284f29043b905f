/** Bytes, byte strings and the decimal reading of a run of ASCII digits. */
module Bytes {
  /** Go's `byte`. */
  type Byte = b: int | 0 <= b < 256

  /** Go's `string`: a sequence of bytes, not of characters. */
  type Text = seq<Byte>

  const ZERO: Byte := 48
  const NINE: Byte := 57

  predicate IsDigit(c: Byte) {
    ZERO <= c <= NINE
  }

  predicate AllDigits(s: Text) {
    forall k :: 0 <= k < |s| ==> IsDigit(s[k])
  }

  function Pow10(n: nat): (p: nat)
    ensures p >= 1
  {
    if n == 0 then 1 else 10 * Pow10(n - 1)
  }

  /** The unbounded natural number that a run of digits denotes. */
  function Value(s: Text): nat
    requires AllDigits(s)
  {
    if s == [] then 0 else (s[0] - ZERO) * Pow10(|s| - 1) + Value(s[1..])
  }

  /** A run of n digits denotes a number below 10^n. */
  lemma {:induction false} ValueBound(s: Text)
    requires AllDigits(s)
    ensures Value(s) < Pow10(|s|)
  {
    if s != [] {
      ValueBound(s[1..]);
      var d, p := s[0] - ZERO, Pow10(|s| - 1);
      assert d * p <= 9 * p by { ProductMonotone(d, 9, p); }
    }
  }

  lemma ProductMonotone(a: int, b: int, p: nat)
    requires a <= b
    ensures a * p <= b * p
  {
  }

  /** Two runs of the same length that denote the same number are the same run. */
  lemma {:induction false} ValueInjective(s: Text, t: Text)
    requires AllDigits(s) && AllDigits(t) && |s| == |t| && Value(s) == Value(t)
    ensures s == t
  {
    if s != [] {
      if s[0] < t[0] {
        FirstDigitDecides(s, t);
      } else if t[0] < s[0] {
        FirstDigitDecides(t, s);
      }
      ValueInjective(s[1..], t[1..]);
      assert s == [s[0]] + s[1..] && t == [t[0]] + t[1..];
    }
  }

  /** Of two runs of one length, the one with the smaller first digit denotes the smaller number. */
  lemma {:induction false} FirstDigitDecides(s: Text, t: Text)
    requires AllDigits(s) && AllDigits(t) && |s| == |t| > 0 && s[0] < t[0]
    ensures Value(s) < Value(t)
  {
    ValueBound(s[1..]);
    var p := Pow10(|s| - 1);
    ProductMonotone(s[0] - ZERO + 1, t[0] - ZERO, p);
    assert (s[0] - ZERO + 1) * p == (s[0] - ZERO) * p + p;
  }

  /** A run that does not start with '0' denotes a larger number than every shorter run. */
  lemma {:induction false} LongerRunIsLarger(s: Text, t: Text)
    requires AllDigits(s) && AllDigits(t) && |s| < |t| && t[0] != ZERO
    ensures Value(s) < Value(t)
  {
    ValueBound(s);
    Pow10Monotone(|s|, |t| - 1);
    ProductMonotone(1, t[0] - ZERO, Pow10(|t| - 1));
  }

  lemma {:induction false} Pow10Monotone(m: nat, n: nat)
    requires m <= n
    ensures Pow10(m) <= Pow10(n)
  {
    if m < n {
      Pow10Monotone(m, n - 1);
    }
  }

  /** The decimal numeral of n, most significant digit first, without leading zeros. */
  function Decimal(n: nat): (s: Text)
    ensures s != [] && AllDigits(s)
    ensures n > 0 ==> s[0] != ZERO
  {
    if n < 10 then [ZERO + n] else Decimal(n / 10) + [ZERO + n % 10]
  }

  lemma {:induction false} ValueOfAppend(s: Text, c: Byte)
    requires AllDigits(s) && IsDigit(c)
    ensures AllDigits(s + [c]) && Value(s + [c]) == 10 * Value(s) + (c - ZERO)
  {
    if s == [] {
      assert s + [c] == [c];
      assert [c][1..] == [];
    } else {
      ValueOfAppend(s[1..], c);
      assert (s + [c])[1..] == s[1..] + [c];
      var d, p := s[0] - ZERO, Pow10(|s| - 1);
      assert d * (10 * p) == 10 * (d * p);
    }
  }

  /** Reading the decimal numeral of n back gives n. */
  lemma {:induction false} ValueOfDecimal(n: nat)
    ensures Value(Decimal(n)) == n
  {
    if n < 10 {
      assert [ZERO + n][1..] == [];
    } else {
      ValueOfDecimal(n / 10);
      ValueOfAppend(Decimal(n / 10), ZERO + n % 10);
    }
  }

  /** Leading zeros do not change the number. */
  lemma {:induction false} ValueOfZeroPadded(zeros: Text, s: Text)
    requires (forall k :: 0 <= k < |zeros| ==> zeros[k] == ZERO) && AllDigits(s)
    ensures AllDigits(zeros + s) && Value(zeros + s) == Value(s)
  {
    if zeros == [] {
      assert zeros + s == s;
    } else {
      ValueOfZeroPadded(zeros[1..], s);
      assert (zeros + s)[1..] == zeros[1..] + s;
    }
  }
}
