/** Python values as the configuration and form handling see them, and the
    two conversions they apply to strings: `int(s)` and `float(s)`. */
module PyValues {
  import opened Wrappers
  import opened PyText

  /** A Python `float` as far as the modelled comparisons can tell it apart:
      a finite value, one of the two infinities, or not-a-number. */
  datatype PyFloat = Finite(value: real) | PosInf | NegInf | NaN
  {
    /** Python's chained `lo <= self <= hi`: false for not-a-number and for
        both infinities, whatever the finite bounds. */
    predicate InClosedRange(lo: real, hi: real)
    {
      Finite? && lo <= value <= hi
    }

    /** Python's `self < x` against a finite `x`: true for minus infinity,
        false for plus infinity and for not-a-number. */
    predicate LessThan(x: real)
    {
      NegInf? || (Finite? && value < x)
    }

    /** The sum of two floats: not-a-number when either is, or when the two
        infinities meet; otherwise an infinity wins over a finite value. */
    function Plus(other: PyFloat): PyFloat
    {
      match (this, other)
      case (NaN, _) => NaN
      case (_, NaN) => NaN
      case (PosInf, NegInf) => NaN
      case (NegInf, PosInf) => NaN
      case (PosInf, _) => PosInf
      case (_, PosInf) => PosInf
      case (NegInf, _) => NegInf
      case (_, NegInf) => NegInf
      case (Finite(a), Finite(b)) => Finite(a + b)
    }

    /** `self / 2.0`: the infinities and not-a-number are kept. */
    function Half(): PyFloat
    {
      if Finite? then Finite(value / 2.0) else this
    }
  }

  /** The dynamically typed values a configuration dictionary holds. */
  datatype Value =
    | VStr(s: string)
    | VInt(i: int)
    | VFloat(f: PyFloat)
    | VBool(b: bool)
    | VStrList(items: seq<string>)

  /** The `ValueError` that `int()` and `float()` raise, with the rejected text. */
  datatype ValueError = ValueError(text: string)

  predicate IsDigit(c: char)
  {
    '0' <= c <= '9'
  }

  predicate AllDigits(s: string)
  {
    forall i :: 0 <= i < |s| ==> IsDigit(s[i])
  }

  function DigitValue(c: char): nat
    requires IsDigit(c)
  {
    c as int - '0' as int
  }

  /** The number a string of decimal digits denotes (leading zeros allowed). */
  function DigitsValue(s: string): nat
    requires AllDigits(s)
  {
    if s == [] then 0 else DigitsValue(s[..|s| - 1]) * 10 + DigitValue(s[|s| - 1])
  }

  function Pow10(n: nat): (p: nat)
    ensures p >= 1
  {
    if n == 0 then 1 else 10 * Pow10(n - 1)
  }

  /** One optional leading sign: whether it was `-`, and the rest of the text. */
  function SplitSign(t: string): (bool, string)
  {
    if t != [] && (t[0] == '+' || t[0] == '-') then (t[0] == '-', t[1..]) else (false, t)
  }

  /** Python's `int(s)` for a `str` in base 10: surrounding white space is
      ignored, one sign is allowed, and at least one digit must follow. */
  function ParseInt(s: string): Result<int, ValueError>
  {
    var (negative, digits) := SplitSign(Strip(s));
    if digits != [] && AllDigits(digits) then
      Ok(if negative then -(DigitsValue(digits) as int) else DigitsValue(digits) as int)
    else
      Err(ValueError(s))
  }

  /** The position of the first character of `s` that is `a` or `b`, or `|s|`. */
  function IndexOfEither(s: string, a: char, b: char): (n: nat)
    ensures n <= |s|
    ensures forall i :: 0 <= i < n ==> s[i] != a && s[i] != b
    ensures n < |s| ==> s[n] == a || s[n] == b
  {
    if s == [] then 0
    else if s[0] == a || s[0] == b then 0
    else 1 + IndexOfEither(s[1..], a, b)
  }

  /** The digits of a mantissa `ddd`, `ddd.`, `.ddd` or `ddd.ddd` read as one
      integer, with the number of digits after the point. */
  function MantissaValue(m: string): Option<(nat, nat)>
  {
    var p := IndexOfEither(m, '.', '.');
    var whole := m[..p];
    var fraction := if p < |m| then m[p + 1..] else [];
    if AllDigits(whole) && AllDigits(fraction) && |whole| + |fraction| >= 1 then
      Some((DigitsValue(whole + fraction), |fraction|))
    else
      None
  }

  /** The exponent after `e` or `E`: an optional sign and at least one digit. */
  function ExponentValue(t: string): Option<int>
  {
    var (negative, digits) := SplitSign(t);
    if digits != [] && AllDigits(digits) then
      Some(if negative then -(DigitsValue(digits) as int) else DigitsValue(digits) as int)
    else
      None
  }

  /** The real number `digits * 10^shift`. */
  function Scaled(digits: nat, shift: int): real
  {
    if shift >= 0 then (digits * Pow10(shift)) as real
    else digits as real / Pow10(-shift) as real
  }

  /** An unsigned decimal literal with an optional exponent, or None. */
  function DecimalValue(body: string): Option<real>
  {
    var e := IndexOfEither(body, 'e', 'E');
    var exponent := if e < |body| then ExponentValue(body[e + 1..]) else Some(0);
    match (MantissaValue(body[..e]), exponent)
    case (Some((digits, places)), Some(x)) => Some(Scaled(digits, x - places))
    case _ => None
  }

  /** Python's `float(s)` for a `str`: surrounding white space is ignored, one
      sign is allowed, and the rest is a decimal literal or, in any letter case,
      `inf`, `infinity` or `nan`. */
  function ParseFloat(s: string): Result<PyFloat, ValueError>
  {
    var (negative, body) := SplitSign(Strip(s));
    var word := Lower(body);
    if word == "inf" || word == "infinity" then
      Ok(if negative then NegInf else PosInf)
    else if word == "nan" then
      Ok(NaN)
    else
      match DecimalValue(body)
      case Some(v) => Ok(Finite(if negative then -v else v))
      case None => Err(ValueError(s))
  }

  function DigitChar(d: nat): (c: char)
    requires d < 10
    ensures IsDigit(c) && DigitValue(c) == d
  {
    ('0' as int + d) as char
  }

  /** `str(n)` for a non-negative integer. */
  function NatToString(n: nat): string
  {
    if n < 10 then [DigitChar(n)] else NatToString(n / 10) + [DigitChar(n % 10)]
  }

  /** `str(n)` for any integer. */
  function IntToString(n: int): string
  {
    if n < 0 then "-" + NatToString(-n) else NatToString(n)
  }

  /** `str(n)` writes a non-empty string of digits that denotes `n`. */
  lemma {:induction false} NatToStringDigits(n: nat)
    ensures NatToString(n) != [] && AllDigits(NatToString(n))
    ensures DigitsValue(NatToString(n)) == n
  {
    if n >= 10 {
      NatToStringDigits(n / 10);
      var s := NatToString(n);
      assert s[..|s| - 1] == NatToString(n / 10);
    }
  }

  lemma DigitNotSpace(c: char)
    requires IsDigit(c) || c == '-'
    ensures !IsSpace(c)
  {
  }

  /** Text that starts and ends with a character other than white space is
      left alone by `strip()`. */
  lemma StripKeepsTrimmed(s: string)
    requires s != [] && !IsSpace(s[0]) && !IsSpace(s[|s| - 1])
    ensures Strip(s) == s
  {
    assert LeadingSpaces(s) == 0 && TrailingSpaces(s) == 0;
    assert s[0..|s|] == s;
  }

  /** `int(str(n)) == n` for a non-negative integer `n`. */
  lemma ParseIntOfNonNegative(n: int)
    requires n >= 0
    ensures ParseInt(IntToString(n)) == Ok(n)
  {
    var s := NatToString(n);
    assert IntToString(n) == s;
    NatToStringDigits(n);
    DigitNotSpace(s[0]);
    DigitNotSpace(s[|s| - 1]);
    StripKeepsTrimmed(s);
    assert SplitSign(s) == (false, s) by {
      assert IsDigit(s[0]);
    }
  }

  /** `int(str(n)) == n` for a negative integer `n`, written `-` and digits. */
  lemma ParseIntOfNegative(n: int)
    requires n < 0
    ensures ParseInt(IntToString(n)) == Ok(n)
  {
    var digits := NatToString(-n);
    var s := "-" + digits;
    assert IntToString(n) == s;
    NatToStringDigits(-n);
    assert s[|s| - 1] == digits[|digits| - 1];
    DigitNotSpace(s[0]);
    DigitNotSpace(s[|s| - 1]);
    StripKeepsTrimmed(s);
    assert s[1..] == digits;
    assert SplitSign(s) == (true, digits);
  }

  /** `int(str(n)) == n`. */
  lemma ParseIntRoundTrip(n: int)
    ensures ParseInt(IntToString(n)) == Ok(n)
  {
    if n < 0 {
      ParseIntOfNegative(n);
    } else {
      ParseIntOfNonNegative(n);
    }
  }

  /** `float(str(n)) == n` for a non-negative integer `n`. */
  lemma {:induction false} ParseFloatOfNatString(n: nat)
    ensures ParseFloat(NatToString(n)) == Ok(Finite(n as real))
  {
    var s := NatToString(n);
    NatToStringDigits(n);
    DigitNotSpace(s[0]);
    DigitNotSpace(s[|s| - 1]);
    StripKeepsTrimmed(s);
    assert SplitSign(s) == (false, s);
    LowerOfLowerWord(s);
    assert s != "inf" && s != "infinity" && s != "nan" by {
      assert !IsDigit('i') && !IsDigit('n');
    }
    assert IndexOfEither(s, 'e', 'E') == |s|;
    assert s[..|s|] == s;
    assert IndexOfEither(s, '.', '.') == |s|;
    assert s + [] == s;
    assert MantissaValue(s) == Some((n, 0));
  }
}
