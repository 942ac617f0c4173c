/** Python's number conversions: `int()` on a float, `round()`, `str()` of a
    number and `float()` of a text, over exact reals. */
module Numbers {
  import opened Strings
  import opened Outcomes

  /** Python's `min` on two integers. */
  function Min(a: int, b: int): int { if a < b then a else b }

  /** `int(x)` for a float `x`: truncation toward zero. */
  function Trunc(x: real): (r: int)
    ensures 0.0 <= x ==> 0 <= r && r as real <= x < r as real + 1.0
    ensures x < 0.0 ==> r <= 0 && r as real - 1.0 < x <= r as real
  {
    if x >= 0.0 then x.Floor else -((-x).Floor)
  }

  /** Truncation is monotone. */
  lemma TruncMonotone(x: real, y: real)
    requires x <= y
    ensures Trunc(x) <= Trunc(y)
  {
    if 0.0 <= x {
    } else if y < 0.0 {
      assert (-y).Floor <= (-x).Floor;
    }
  }

  /** `round(x)`: the nearest integer, halves going to the even neighbour. */
  function RoundHalfEven(x: real): (r: int)
    ensures x - 0.5 <= r as real <= x + 0.5
    ensures r as real == x + 0.5 || r as real == x - 0.5 ==> r % 2 == 0
  {
    var f := x.Floor;
    var d := x - f as real;
    if d < 0.5 then f
    else if d > 0.5 then f + 1
    else if f % 2 == 0 then f
    else f + 1
  }

  predicate AllDigits(s: string) {
    forall i :: 0 <= i < |s| ==> IsDigit(s[i])
  }

  function DigitChar(d: nat): (c: char)
    requires d < 10
    ensures IsDigit(c)
  {
    ('0' as int + d) as char
  }

  function DigitValue(c: char): (d: nat)
    requires IsDigit(c)
    ensures d < 10
  {
    c as int - '0' as int
  }

  /** The number a run of decimal digits denotes. */
  function DigitsValue(ds: string): nat
    requires AllDigits(ds)
  {
    if ds == [] then 0 else DigitsValue(ds[..|ds| - 1]) * 10 + DigitValue(ds[|ds| - 1])
  }

  /** `str(n)` for a natural number. */
  function NatToString(n: nat): (s: string)
    ensures 1 <= |s| && AllDigits(s)
  {
    if n < 10 then [DigitChar(n)] else NatToString(n / 10) + [DigitChar(n % 10)]
  }

  /** Reading back what `NatToString` printed gives the number. */
  lemma {:induction false} NatToStringRoundTrip(n: nat)
    ensures DigitsValue(NatToString(n)) == n
  {
    if n >= 10 {
      var s := NatToString(n / 10) + [DigitChar(n % 10)];
      assert s[..|s| - 1] == NatToString(n / 10);
      NatToStringRoundTrip(n / 10);
    }
  }

  /** `str(n)` for an integer. */
  function IntToString(n: int): (s: string)
    ensures n >= 0 ==> AllDigits(s)
    ensures n < 0 ==> |s| > 1 && s[0] == '-' && AllDigits(s[1..])
  {
    if n < 0 then "-" + NatToString(-n) else NatToString(n)
  }

  /** Decimal digits of a fraction in [0, 1), at most `k` of them, stopping
      once the rest is zero. */
  function FractionDigits(f: real, k: nat): (s: string)
    requires 0.0 <= f < 1.0
    ensures AllDigits(s) && |s| <= k
    decreases k
  {
    if f == 0.0 || k == 0 then []
    else
      var d := (f * 10.0).Floor;
      [DigitChar(d)] + FractionDigits(f * 10.0 - d as real, k - 1)
  }

  /** `str(x)` for a number read back from the survey store, where integral
      values are Python ints and other values floats. */
  function ShowNumber(x: real): string {
    if x == x.Floor as real then IntToString(x.Floor)
    else if x < 0.0 then "-" + ShowFraction(-x)
    else ShowFraction(x)
  }

  function ShowFraction(x: real): string
    requires 0.0 <= x
  {
    var w := x.Floor;
    NatToString(w) + "." + FractionDigits(x - w as real, 17)
  }

  /** Length of the run of digits that starts at position `i`. */
  function DigitRun(s: string, i: nat): (n: nat)
    requires i <= |s|
    ensures i + n <= |s| && AllDigits(s[i..i + n])
    ensures i + n == |s| || !IsDigit(s[i + n])
    decreases |s| - i
  {
    if i < |s| && IsDigit(s[i]) then
      var n := 1 + DigitRun(s, i + 1);
      assert s[i..i + n] == [s[i]] + s[i + 1..i + n];
      n
    else 0
  }

  function Pow10(k: nat): (p: nat)
    ensures p >= 1
  {
    if k == 0 then 1 else 10 * Pow10(k - 1)
  }

  /** The value of the decimal text `whole.frac`. */
  function DecimalValue(whole: string, frac: string): (v: real)
    requires AllDigits(whole) && AllDigits(frac)
    ensures v >= 0.0
  {
    DigitsValue(whole) as real + DigitsValue(frac) as real / Pow10(|frac|) as real
  }

  /** Where the left-to-right reading of `float(s)` stands. */
  datatype FloatScan =
    | Leading                                                      // only whitespace so far
    | SignSeen(neg: bool)                                          // a sign, no digit or point yet
    | Whole(neg: bool, whole: nat)                                 // digits, no point yet
    | Fraction(neg: bool, whole: nat, frac: nat, places: nat, digits: bool)  // after the point
    | Trailing(v: real)                                            // a number, then whitespace

  function WithSign(neg: bool, v: real): real {
    if neg then -v else v
  }

  /** The number read so far, where the text may end or turn to
      whitespace: at least one digit, before or after the point. */
  function ScanValue(st: FloatScan): (r: Option<real>)
    ensures r.Some? <==> st.Whole? || (st.Fraction? && st.digits)
  {
    match st
    case Whole(neg, w) => Some(WithSign(neg, w as real))
    case Fraction(neg, w, f, k, d) =>
      if d then Some(WithSign(neg, w as real + f as real / Pow10(k) as real)) else None
    case _ => None
  }

  /** `float(s)` for decimal text: surrounding whitespace, an optional sign,
      digits with at most one point and at least one digit. Other text is
      `None`, where Python raises ValueError. */
  function ParseFloat(s: string): Option<real> {
    ScanFloat(s, 0, Leading)
  }

  /** Reads `s` from position `i` on, in state `st`. */
  function ScanFloat(s: string, i: nat, st: FloatScan): Option<real>
    requires i <= |s|
    decreases |s| - i
  {
    if i == |s| then
      if st.Trailing? then Some(st.v) else ScanValue(st)
    else
      var c := s[i];
      match st
      case Leading =>
        if IsSpace(c) then ScanFloat(s, i + 1, Leading)
        else if c == '-' || c == '+' then ScanFloat(s, i + 1, SignSeen(c == '-'))
        else if IsDigit(c) then ScanFloat(s, i + 1, Whole(false, DigitValue(c)))
        else if c == '.' then ScanFloat(s, i + 1, Fraction(false, 0, 0, 0, false))
        else None
      case SignSeen(neg) =>
        if IsDigit(c) then ScanFloat(s, i + 1, Whole(neg, DigitValue(c)))
        else if c == '.' then ScanFloat(s, i + 1, Fraction(neg, 0, 0, 0, false))
        else None
      case Whole(neg, w) =>
        if IsDigit(c) then ScanFloat(s, i + 1, Whole(neg, w * 10 + DigitValue(c)))
        else if c == '.' then ScanFloat(s, i + 1, Fraction(neg, w, 0, 0, true))
        else if IsSpace(c) then ScanFloat(s, i + 1, Trailing(WithSign(neg, w as real)))
        else None
      case Fraction(neg, w, f, k, d) =>
        if IsDigit(c) then ScanFloat(s, i + 1, Fraction(neg, w, f * 10 + DigitValue(c), k + 1, true))
        else if IsSpace(c) && d then ScanFloat(s, i + 1, Trailing(ScanValue(st).value))
        else None
      case Trailing(v) =>
        if IsSpace(c) then ScanFloat(s, i + 1, st) else None
  }

  /** What `str` prints for a natural number reads back as that number. */
  lemma ParseFloatOfDigits(n: nat)
    ensures ParseFloat(NatToString(n)) == Some(n as real)
  {
    var s := NatToString(n);
    assert s[..1] == [s[0]] && [s[0]][..0] == [];
    ScanWholeDigits(s, 1, DigitValue(s[0]));
    assert s[..|s|] == s;
    NatToStringRoundTrip(n);
  }

  /** Reading on through digits to the end adds them to the whole part. */
  lemma {:induction false} ScanWholeDigits(s: string, i: nat, w: nat)
    requires 0 < i <= |s| && AllDigits(s)
    requires w == DigitsValue(s[..i])
    ensures ScanFloat(s, i, Whole(false, w)) == Some(DigitsValue(s) as real)
    decreases |s| - i
  {
    if i == |s| {
      assert s[..i] == s;
    } else {
      var p := s[..i + 1];
      assert p[..|p| - 1] == s[..i];
      ScanWholeDigits(s, i + 1, w * 10 + DigitValue(s[i]));
    }
  }

  lemma {:induction false} DigitRunAll(s: string, i: nat)
    requires i <= |s| && AllDigits(s)
    ensures DigitRun(s, i) == |s| - i
    decreases |s| - i
  {
    if i < |s| {
      DigitRunAll(s, i + 1);
    }
  }
}
