/** Decimal text: Python's `str()` of an integer, and the `{:.2f}` text of a
    detection score, which the decoder keeps as the bit pattern of an IEEE 754
    single-precision float. Python widens the float to a double exactly and
    rounds its exact binary value to two decimals, ties to even. */
module Decimal {

  predicate IsDigit(c: char) {
    '0' <= c <= '9'
  }

  predicate AllDigits(s: string) {
    forall i :: 0 <= i < |s| ==> IsDigit(s[i])
  }

  function DigitChar(d: nat): (c: char)
    requires d < 10
    ensures IsDigit(c) && DigitValue(c) == d
  {
    (d + '0' as int) as char
  }

  function DigitValue(c: char): nat
    requires IsDigit(c)
  {
    c as int - '0' as int
  }

  /** `str(n)` for a non-negative integer: its decimal digits, without leading
      zeros. */
  function NatToString(n: nat): (s: string)
    ensures |s| >= 1 && AllDigits(s)
    ensures |s| > 1 ==> s[0] != '0'
  {
    if n < 10 then [DigitChar(n)] else NatToString(n / 10) + [DigitChar(n % 10)]
  }

  /** `str(i)` for any integer. */
  function IntToString(i: int): (s: string)
    ensures |s| >= 1
    ensures i < 0 <==> s[0] == '-'
    ensures i < 0 ==> s == "-" + NatToString(-i)
    ensures i >= 0 ==> s == NatToString(i)
  {
    if i < 0 then "-" + NatToString(-i) else NatToString(i)
  }

  /** The value of a string of decimal digits. */
  function ParseNat(s: string): nat
    requires AllDigits(s)
  {
    if |s| == 0 then 0 else 10 * ParseNat(s[..|s| - 1]) + DigitValue(s[|s| - 1])
  }

  /** Reading back the digits `str` wrote gives the number. */
  lemma {:induction false} ParseNatToString(n: nat)
    ensures ParseNat(NatToString(n)) == n
  {
    if n >= 10 {
      var s := NatToString(n);
      assert s[..|s| - 1] == NatToString(n / 10);
      ParseNatToString(n / 10);
    }
  }

  /** Different numbers are written differently. */
  lemma NatToStringInjective(m: nat, n: nat)
    requires NatToString(m) == NatToString(n)
    ensures m == n
  {
    ParseNatToString(m);
    ParseNatToString(n);
  }

  function Pow2(e: nat): (r: nat)
    ensures r >= 1
  {
    if e == 0 then 1 else 2 * Pow2(e - 1)
  }

  /** What a float32 bit pattern stands for: a finite value `mantissa * 2^exponent`
      with a sign, an infinity, or NaN. */
  datatype Float = Finite(negative: bool, mantissa: nat, exponent: int) | Infinite(negative: bool) | NaN

  /** The IEEE 754 binary32 reading of a bit pattern: sign bit, 8-bit biased
      exponent, 23-bit fraction; exponent field 0 holds zeros and subnormals,
      255 infinities and NaNs. */
  function Classify(bits: nat): (f: Float)
    requires bits < 0x1_0000_0000
    ensures f.Finite? ==> f.mantissa < 0x100_0000 && -149 <= f.exponent <= 104
  {
    var negative := bits >= 0x8000_0000;
    var field := (bits / 0x80_0000) % 0x100;
    var fraction := bits % 0x80_0000;
    if field == 0xFF then
      if fraction == 0 then Infinite(negative) else NaN
    else if field == 0 then
      Finite(negative, fraction, -149)
    else
      Finite(negative, 0x80_0000 + fraction, field - 150)
  }

  /** `m * 2^e` in hundredths, rounded to the nearest integer, ties to even. */
  function Hundredths(m: nat, e: int): (n: nat)
    ensures e >= 0 ==> n == m * Pow2(e) * 100
    ensures e < 0 ==> NearestEven(m * 100, Pow2(-e), n)
  {
    if e >= 0 then m * Pow2(e) * 100 else RoundHalfEven(m * 100, Pow2(-e))
  }

  /** `n` is `v / d` rounded to the nearest integer, and even on a tie. */
  predicate NearestEven(v: nat, d: nat, n: nat) {
    && 2 * n * d <= 2 * v + d
    && 2 * v <= 2 * n * d + d
    && (2 * v == 2 * n * d + d || 2 * n * d == 2 * v + d ==> n % 2 == 0)
  }

  /** `v / d` rounded half to even. */
  function RoundHalfEven(v: nat, d: nat): (n: nat)
    requires d >= 1
    ensures NearestEven(v, d, n)
  {
    var q, r := v / d, v % d;
    RoundStep(v, d, q, r);
    if 2 * r > d || (2 * r == d && q % 2 == 1) then q + 1 else q
  }

  lemma RoundStep(v: nat, d: nat, q: nat, r: nat)
    requires d >= 1 && q == v / d && r == v % d
    ensures v == q * d + r && 0 <= r < d
    ensures 2 * r > d ==> 2 * (q + 1) * d <= 2 * v + d && 2 * v <= 2 * (q + 1) * d + d
    ensures 2 * r <= d ==> 2 * q * d <= 2 * v + d && 2 * v <= 2 * q * d + d
    ensures 2 * r == d ==> 2 * (q + 1) * d <= 2 * v + d && 2 * v <= 2 * (q + 1) * d + d
  {
  }

  /** `n` hundredths written with two decimals. */
  function Fixed2(n: nat): (s: string)
    ensures |s| >= 4 && s[|s| - 3] == '.'
  {
    NatToString(n / 100) + "." + [DigitChar(n % 100 / 10), DigitChar(n % 10)]
  }

  /** The text written by `Fixed2` reads back as the number of hundredths. */
  lemma {:induction false} Fixed2Value(n: nat)
    ensures var s := Fixed2(n);
      && AllDigits(s[..|s| - 3]) && AllDigits(s[|s| - 2..])
      && 100 * ParseNat(s[..|s| - 3]) + ParseNat(s[|s| - 2..]) == n
  {
    var s := Fixed2(n);
    var whole := NatToString(n / 100);
    assert s[..|s| - 3] == whole;
    ParseNatToString(n / 100);
    var frac := s[|s| - 2..];
    assert frac == [DigitChar(n % 100 / 10), DigitChar(n % 10)];
    assert frac[..1] == [DigitChar(n % 100 / 10)];
    assert frac[..1][..0] == [];
    assert ParseNat(frac[..1]) == n % 100 / 10;
    assert ParseNat(frac) == 10 * (n % 100 / 10) + n % 10;
  }

  /** `format(score, ".2f")` for the float with bit pattern `bits`. */
  function FormatScore(bits: nat): (s: string)
    requires bits < 0x1_0000_0000
    ensures |s| >= 3
    ensures Classify(bits).NaN? ==> s == "nan"
    ensures Classify(bits).Infinite? ==> s == (if bits >= 0x8000_0000 then "-inf" else "inf")
    ensures Classify(bits).Finite? ==> (bits >= 0x8000_0000 <==> s[0] == '-')
  {
    match Classify(bits)
    case NaN => "nan"
    case Infinite(negative) => if negative then "-inf" else "inf"
    case Finite(negative, m, e) => (if negative then "-" else "") + Fixed2(Hundredths(m, e))
  }

  /** For a finite score the text is an optional minus sign followed by the
      magnitude rounded to hundredths: reading the text back gives `n`
      hundredths with `|n - 100 * |score|| <= 1/2`. */
  lemma {:induction false} FormatScoreRounds(bits: nat)
    requires bits < 0x1_0000_0000 && Classify(bits).Finite?
    ensures var s, f := FormatScore(bits), Classify(bits);
      var body := if f.negative then s[1..] else s;
      var n := Hundredths(f.mantissa, f.exponent);
      && |body| >= 4 && body[|body| - 3] == '.'
      && AllDigits(body[..|body| - 3]) && AllDigits(body[|body| - 2..])
      && 100 * ParseNat(body[..|body| - 3]) + ParseNat(body[|body| - 2..]) == n
  {
    var f := Classify(bits);
    var n := Hundredths(f.mantissa, f.exponent);
    var s := FormatScore(bits);
    Fixed2Value(n);
    if f.negative {
      assert s == "-" + Fixed2(n);
      assert s[1..] == Fixed2(n);
    } else {
      assert s == Fixed2(n);
    }
  }
}
