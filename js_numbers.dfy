/**
 * The JavaScript string-to-number conversions the forms use, on decimal
 * notation: `parseInt(s)`, `parseFloat(s)` and `Number(s)` (the coercion behind
 * `isNaN(s)`). `None` stands for `NaN`.
 */
module JsNumbers {

  import opened Wrappers
  import opened Text

  predicate IsDigit(c: char) {
    '0' <= c <= '9'
  }

  /** The length of the run of decimal digits at the start of `s`. */
  function DigitRun(s: string): (n: nat)
    ensures n <= |s|
    ensures forall i :: 0 <= i < n ==> IsDigit(s[i])
    ensures n < |s| ==> !IsDigit(s[n])
  {
    if s != [] && IsDigit(s[0]) then 1 + DigitRun(s[1..]) else 0
  }

  predicate AllDigits(s: string) {
    forall i :: 0 <= i < |s| ==> IsDigit(s[i])
  }

  /** The value of a string of decimal digits (0 for the empty string). */
  function DigitsValue(d: string): nat
    requires AllDigits(d)
  {
    if d == [] then 0 else 10 * DigitsValue(d[..|d| - 1]) + (d[|d| - 1] as int - '0' as int)
  }

  function Pow10(n: nat): (r: nat)
    ensures r >= 1
  {
    if n == 0 then 1 else 10 * Pow10(n - 1)
  }

  /** The decimal notation of `n`, most significant digit first, without leading zeros. */
  function NatToString(n: nat): (s: string)
    ensures s != [] && AllDigits(s)
    ensures DigitsValue(s) == n
    ensures s[0] == '0' ==> n == 0
  {
    var last := [('0' as int + n % 10) as char];
    if n < 10 then last
    else
      var init := NatToString(n / 10);
      var s := init + last;
      assert s[..|s| - 1] == init;
      s
  }

  /** `String(n)` for an integer `n`. */
  function IntToString(n: int): string {
    if n < 0 then "-" + NatToString(-n) else NatToString(n)
  }

  /** Length of an optional sign at the start of `s`, and whether it is a minus. */
  function SignLength(s: string): (n: nat)
    ensures n <= 1 && n <= |s|
  {
    if s != [] && (s[0] == '-' || s[0] == '+') then 1 else 0
  }

  function Signed(negative: bool, v: int): int {
    if negative then -v else v
  }

  /**
   * `parseInt(s)`, called without a radix, on text that does not start with a
   * `0x`/`0X` prefix: leading white space, an optional sign, then the longest
   * run of decimal digits; `NaN` when there is no digit there.
   */
  function ParseInt(s: string): (r: Option<int>)
    ensures var t := TrimStart(s); var k := SignLength(t);
      r.Some? <==> k < |t| && IsDigit(t[k])
  {
    var t := TrimStart(s);
    var k := SignLength(t);
    var n := DigitRun(t[k..]);
    if n == 0 then None
    else Some(Signed(k == 1 && t[0] == '-', DigitsValue(t[k..][..n])))
  }

  lemma ParseIntOfIntToString(n: int)
    ensures ParseInt(IntToString(n)) == Some(n)
  {
    var s := IntToString(n);
    var d := NatToString(if n < 0 then -n else n);
    assert TrimStart(s) == s;
    DigitRunAll(d);
    assert d[..|d|] == d;
    if n < 0 {
      assert s[1..] == d;
    } else {
      assert SignLength(s) == 0;
      assert s[0..] == d;
    }
  }

  lemma {:induction false} DigitRunAll(d: string)
    requires AllDigits(d)
    ensures DigitRun(d) == |d|
  {
    if d != [] {
      DigitRunAll(d[1..]);
    }
  }

  /** The part of an exponent suffix `e±ddd` that the scanners accept: its length and power. */
  function ScanExponent(s: string): (r: (nat, int))
    ensures r.0 <= |s|
    ensures r.0 == 0 ==> r.1 == 0
  {
    if s != [] && (s[0] == 'e' || s[0] == 'E') then
      var k := SignLength(s[1..]);
      var n := DigitRun(s[1 + k..]);
      if n == 0 then (0, 0)
      else (1 + k + n, Signed(k == 1 && s[1] == '-', DigitsValue(s[1 + k..][..n])))
    else (0, 0)
  }

  /** `m · 10^e` for an integer exponent `e`. */
  function Scale(m: real, e: int): (r: real)
    ensures m >= 0.0 ==> r >= 0.0
  {
    if e >= 0 then m * (Pow10(e) as real) else m / (Pow10(-e) as real)
  }

  /** The value of the digits after a decimal point. */
  function Fraction(d: string): (r: real)
    requires AllDigits(d)
    ensures r >= 0.0
  {
    (DigitsValue(d) as real) / (Pow10(|d|) as real)
  }

  /**
   * The longest prefix of `s` that is an unsigned decimal literal
   * (`ddd`, `ddd.`, `ddd.ddd`, `.ddd`, each with an optional exponent):
   * its value and its length.
   */
  function ScanUnsigned(s: string): (r: Option<(real, nat)>)
    ensures r.Some? ==> 0 < r.value.1 <= |s|
    ensures r.Some? ==> r.value.0 >= 0.0
    ensures r.None? <==> !(s != [] && IsDigit(s[0])) && !(|s| >= 2 && s[0] == '.' && IsDigit(s[1]))
  {
    var a := DigitRun(s);
    var whole := DigitsValue(s[..a]) as real;
    if a < |s| && s[a] == '.' then
      var b := DigitRun(s[a + 1..]);
      if a == 0 && b == 0 then None
      else
        var mantissa := whole + Fraction(s[a + 1..][..b]);
        var len := a + 1 + b;
        var (elen, e) := ScanExponent(s[len..]);
        Some((Scale(mantissa, e), len + elen))
    else if a == 0 then None
    else
      var (elen, e) := ScanExponent(s[a..]);
      Some((Scale(whole, e), a + elen))
  }

  /** An optional sign followed by an unsigned literal. */
  function ScanDecimal(s: string): (r: Option<(real, nat)>)
    ensures r.Some? ==> 0 < r.value.1 <= |s|
  {
    var k := SignLength(s);
    match ScanUnsigned(s[k..])
    case None => None
    case Some((v, n)) => Some((if k == 1 && s[0] == '-' then -v else v, k + n))
  }

  /** `parseFloat(s)`: leading white space, then the longest decimal prefix. */
  function ParseFloat(s: string): (r: Option<real>)
  {
    match ScanDecimal(TrimStart(s))
    case None => None
    case Some((v, _)) => Some(v)
  }

  /**
   * `Number(s)`: the trimmed string must be empty (giving 0) or be a decimal
   * literal from end to end.
   */
  function NumberOf(s: string): (r: Option<real>)
    ensures IsBlank(s) ==> r == Some(0.0)
  {
    var t := Trim(s);
    BlankIffTrimmedEmpty(s);
    if t == "" then Some(0.0)
    else match ScanDecimal(t)
      case Some((v, n)) => if n == |t| then Some(v) else None
      case None => None
  }

  lemma ScanUnsignedOfDigits(d: string)
    requires d != [] && AllDigits(d)
    ensures ScanUnsigned(d) == Some((DigitsValue(d) as real, |d|))
  {
    DigitRunAll(d);
    assert d[..|d|] == d;
    assert ScanExponent(d[|d|..]) == (0, 0);
    ScaleByOne(DigitsValue(d) as real);
  }

  lemma ScaleByOne(m: real)
    ensures Scale(m, 0) == m
  {
    assert Pow10(0) == 1;
  }

  lemma ScanDecimalOfIntToString(n: int)
    ensures ScanDecimal(IntToString(n)) == Some((n as real, |IntToString(n)|))
  {
    var s := IntToString(n);
    var d := NatToString(if n < 0 then -n else n);
    ScanUnsignedOfDigits(d);
    if n < 0 {
      assert s[1..] == d;
    } else {
      assert SignLength(s) == 0;
      assert s[0..] == d;
    }
  }

  lemma ParseFloatOfIntToString(n: int)
    ensures ParseFloat(IntToString(n)) == Some(n as real)
    ensures NumberOf(IntToString(n)) == Some(n as real)
  {
    var s := IntToString(n);
    assert !IsSpace(s[0]) && !IsSpace(s[|s| - 1]);
    assert TrimStart(s) == s;
    assert TrimEnd(s) == s;
    ScanDecimalOfIntToString(n);
  }

  /** `isNaN(s)` on a string. */
  predicate IsNaN(s: string) {
    NumberOf(s).None?
  }
}
