/** Numeric helpers shared by the executor, the indicator computation and the
    risk rules: reading a decimal text the way `str::parse::<f64>()` followed
    by `unwrap_or(0.0)` does, sums and means of windows, and the tolerance
    `f64::EPSILON` that the code compares magnitudes against. All arithmetic
    is over `real`. */
module Numbers {
  import opened Wrappers

  /** `f64::EPSILON` (2^-52), the "approximately zero" threshold. */
  const FloatEpsilon: real := 0.0000000000000002220446049250313080847263336181640625

  function Abs(x: real): real { if x < 0.0 then -x else x }

  function Max(a: real, b: real): real { if a >= b then a else b }

  function Min(a: real, b: real): real { if a <= b then a else b }

  // ---------------------------------------------------------------- parsing

  predicate IsDigit(c: char) { '0' <= c <= '9' }

  predicate AllDigits(s: string) { forall i :: 0 <= i < |s| ==> IsDigit(s[i]) }

  function DigitValue(c: char): nat
    requires IsDigit(c)
  {
    c as int - '0' as int
  }

  function DigitChar(d: nat): char
    requires d < 10
  {
    ('0' as int + d) as char
  }

  /** Value of a run of decimal digits, most significant first. */
  function DigitsValue(s: string): nat
    requires AllDigits(s)
  {
    if |s| == 0 then 0 else DigitsValue(s[..|s| - 1]) * 10 + DigitValue(s[|s| - 1])
  }

  function Pow10(n: nat): (r: nat)
    ensures r >= 1
  {
    if n == 0 then 1 else 10 * Pow10(n - 1)
  }

  /** An unsigned decimal: digits, optionally a point and more digits, with
      at least one digit on either side ("12", "0.001", "1.", ".5"). */
  function ParseUnsigned(s: string): Option<real>
  {
    var dot := DotIndex(s, 0);
    var whole := if dot.Some? then s[..dot.value] else s;
    var frac := if dot.Some? then s[dot.value + 1..] else "";
    if AllDigits(whole) && AllDigits(frac) && |whole| + |frac| > 0 then
      Some(DigitsValue(whole) as real + DigitsValue(frac) as real / Pow10(|frac|) as real)
    else None
  }

  /** Index of the first '.' at or after `from`. */
  function DotIndex(s: string, from: nat): (r: Option<nat>)
    requires from <= |s|
    ensures r.Some? ==> from <= r.value < |s| && s[r.value] == '.'
    decreases |s| - from
  {
    if from == |s| then None
    else if s[from] == '.' then Some(from)
    else DotIndex(s, from + 1)
  }

  /** A decimal number with an optional leading sign, or None when the text
      is not one. */
  function ParseDecimal(s: string): (r: Option<real>)
    ensures r.Some? ==> |s| > 0
  {
    if |s| > 0 && s[0] == '-' then
      match ParseUnsigned(s[1..])
      case Some(v) => Some(-v)
      case None => None
    else if |s| > 0 && s[0] == '+' then ParseUnsigned(s[1..])
    else ParseUnsigned(s)
  }

  /** `s.parse::<f64>().unwrap_or(0.0)`: the value, or 0 when unparsable. */
  function ParseFloat(s: string): real
  {
    ParseDecimal(s).GetOr(0.0)
  }

  /** Decimal digits of a natural number, most significant first. */
  function NatToString(n: nat): (r: string)
    ensures |r| > 0 && AllDigits(r)
  {
    if n < 10 then [DigitChar(n)] else NatToString(n / 10) + [DigitChar(n % 10)]
  }

  lemma {:induction false} DigitsOfNat(n: nat)
    ensures DigitsValue(NatToString(n)) == n
  {
    var r := NatToString(n);
    if n >= 10 {
      DigitsOfNat(n / 10);
      assert r[..|r| - 1] == NatToString(n / 10);
    }
  }

  lemma NoDotInDigits(s: string, from: nat)
    requires from <= |s| && AllDigits(s)
    ensures DotIndex(s, from) == None
    decreases |s| - from
  {
    if from < |s| { NoDotInDigits(s, from + 1); }
  }

  /** Reading back the decimal rendering of a natural number gives that
      number, whatever sign prefix is used. */
  lemma {:induction false} ParseFloatOfNat(n: nat)
    ensures ParseFloat(NatToString(n)) == n as real
    ensures ParseFloat("-" + NatToString(n)) == -(n as real)
    ensures ParseFloat("+" + NatToString(n)) == n as real
  {
    var t := NatToString(n);
    NoDotInDigits(t, 0);
    DigitsOfNat(n);
    assert ParseUnsigned(t) == Some(n as real);
    assert ("-" + t)[1..] == t;
    assert ("+" + t)[1..] == t;
  }

  /** A text that is not a decimal reads as 0; in particular the empty text
      and a lone sign or point do. */
  lemma UnparsableReadsAsZero()
    ensures ParseFloat("") == 0.0
    ensures ParseFloat("-") == 0.0
    ensures ParseFloat(".") == 0.0
  {
    assert DotIndex(".", 0) == Some(0);
    assert "-"[1..] == "";
  }

  // ---------------------------------------------------------------- windows

  /** Sum of a sequence of reals (`iter().sum::<f64>()`). */
  function Sum(s: seq<real>): real
  {
    if |s| == 0 then 0.0 else Sum(s[..|s| - 1]) + s[|s| - 1]
  }

  /** Appending a value adds it to the sum. */
  lemma SumAppend(s: seq<real>, x: real)
    ensures Sum(s + [x]) == Sum(s) + x
  {
    assert (s + [x])[..|s|] == s;
  }

  /** Arithmetic mean of a non-empty window. */
  function Mean(s: seq<real>): real
    requires |s| > 0
  {
    Sum(s) / |s| as real
  }

  /** A sum of values all at least `lo` is at least |s|·lo. */
  lemma {:induction false} SumAtLeast(s: seq<real>, lo: real)
    requires forall i :: 0 <= i < |s| ==> lo <= s[i]
    ensures |s| as real * lo <= Sum(s)
  {
    if |s| > 0 {
      SumAtLeast(s[..|s| - 1], lo);
    }
  }

  /** A sum of values all at most `hi` is at most |s|·hi. */
  lemma {:induction false} SumAtMost(s: seq<real>, hi: real)
    requires forall i :: 0 <= i < |s| ==> s[i] <= hi
    ensures Sum(s) <= |s| as real * hi
  {
    if |s| > 0 {
      SumAtMost(s[..|s| - 1], hi);
    }
  }

  /** The mean of values between `lo` and `hi` lies between them. */
  lemma MeanBounds(s: seq<real>, lo: real, hi: real)
    requires |s| > 0
    requires forall i :: 0 <= i < |s| ==> lo <= s[i] <= hi
    ensures lo <= Mean(s) <= hi
  {
    MeanAtLeast(s, lo);
    SumAtMost(s, hi);
    var n := |s| as real;
    assert hi == (n * hi) / n;
  }

  /** The mean of values all at least `lo` is at least `lo`. */
  lemma MeanAtLeast(s: seq<real>, lo: real)
    requires |s| > 0
    requires forall i :: 0 <= i < |s| ==> lo <= s[i]
    ensures lo <= Mean(s)
  {
    SumAtLeast(s, lo);
    var n := |s| as real;
    assert lo == (n * lo) / n;
  }

  /** A part of a positive whole is a fraction between 0 and 1 of it. */
  lemma FractionInUnit(part: real, whole: real)
    requires 0.0 <= part <= whole && whole > 0.0
    ensures 0.0 <= part / whole <= 1.0
  {
    var q := part / whole;
    assert q * whole == part;
    assert (1.0 - q) * whole == whole - part;
  }

  /** A sum of non-negative values is non-negative. */
  lemma {:induction false} SumNonNegative(s: seq<real>)
    requires forall i :: 0 <= i < |s| ==> s[i] >= 0.0
    ensures Sum(s) >= 0.0
  {
    if |s| > 0 { SumNonNegative(s[..|s| - 1]); }
  }

  /** A single non-negative element is at most the sum of non-negative values. */
  lemma {:induction false} ElementAtMostSum(s: seq<real>, k: nat)
    requires k < |s|
    requires forall i :: 0 <= i < |s| ==> s[i] >= 0.0
    ensures s[k] <= Sum(s)
  {
    var init := s[..|s| - 1];
    if k < |s| - 1 {
      ElementAtMostSum(init, k);
    } else {
      SumNonNegative(init);
    }
  }
}
