/**
 * Number parsing as the interpreter uses it: float.TryParse / float.Parse on
 * decimal literals (values as `real`, no single-precision rounding),
 * int.Parse / int.TryParse with the Int32 range, and the C# `(int)` cast of a
 * float, which truncates toward zero.
 */
module Numbers {
  import opened Outcomes
  import opened Text

  predicate IsDigit(c: char) { '0' <= c <= '9' }

  predicate AllDigits(s: string) {
    forall i :: 0 <= i < |s| ==> IsDigit(s[i])
  }

  /** The value of a string of decimal digits, most significant first. */
  function DigitsValue(s: string): nat
    requires AllDigits(s)
  {
    if s == [] then 0 else DigitsValue(s[..|s| - 1]) * 10 + (s[|s| - 1] as int - '0' as int)
  }

  /** The value of the digits after a decimal point, 0.d1d2...dk, first digit first. */
  function FractionValue(s: string): real
    requires AllDigits(s)
  {
    if s == [] then 0.0 else ((s[0] as int - '0' as int) as real + FractionValue(s[1..])) / 10.0
  }

  /** The white space number parsing skips around a literal: U+0009..U+000D and U+0020. */
  predicate IsNumberWhite(c: char) {
    c == ' ' || '\t' <= c <= '\r'
  }

  function StripLeading(s: string): string {
    if |s| > 0 && IsNumberWhite(s[0]) then StripLeading(s[1..]) else s
  }

  function StripTrailing(s: string): string {
    if |s| > 0 && IsNumberWhite(s[|s| - 1]) then StripTrailing(s[..|s| - 1]) else s
  }

  /** The literal with the tolerated surrounding white space removed. */
  function StripNumberWhite(s: string): string {
    StripTrailing(StripLeading(s))
  }

  /** An unsigned decimal: digits with at most one '.', and at least one digit. */
  function ParseUnsigned(s: string): Option<real> {
    var parts := Split(s, '.');
    if |parts| == 1 && parts[0] != "" && AllDigits(parts[0]) then
      Some(DigitsValue(parts[0]) as real)
    else if |parts| == 2 && AllDigits(parts[0]) && AllDigits(parts[1]) && |parts[0]| + |parts[1]| > 0 then
      Some(DigitsValue(parts[0]) as real + FractionValue(parts[1]))
    else
      None
  }

  /**
   * float.TryParse: an optional sign followed by an unsigned decimal, with
   * white space allowed around it. None when the text is not a literal.
   */
  function ParseNumber(s: string): Option<real> {
    var t := StripNumberWhite(s);
    var negative := |t| > 0 && t[0] == '-';
    var digits := if |t| > 0 && (t[0] == '-' || t[0] == '+') then t[1..] else t;
    match ParseUnsigned(digits)
    case Some(v) => Some(if negative then -v else v)
    case None => None
  }

  /** float.Parse: the literal's value, or a FormatException. */
  function StrictParse(s: string): (r: Result<real>)
    ensures r.Ok? <==> ParseNumber(s).Some?
    ensures r.Ok? ==> r.value == ParseNumber(s).value
  {
    match ParseNumber(s)
    case Some(v) => Ok(v)
    case None => Err(FormatError(s))
  }

  /** An argument read with float.Parse; reading past the last token is an IndexOutOfRangeException. */
  function StrictArg(tokens: seq<string>, i: nat): (r: Result<real>)
    ensures i >= |tokens| ==> r == Err(IndexOutOfRange)
    ensures i < |tokens| ==> (r.Ok? <==> ParseNumber(tokens[i]).Some?)
    ensures i < |tokens| && r.Ok? ==> r.value == ParseNumber(tokens[i]).value
  {
    if i < |tokens| then StrictParse(tokens[i]) else Err(IndexOutOfRange)
  }

  const Int32Min: int := -0x8000_0000
  const Int32Max: int := 0x7FFF_FFFF

  /**
   * int.TryParse / int.Parse: optional sign, decimal digits, Int32 range.
   * A value outside the range is None like a malformed string, where
   * int.Parse would raise an OverflowException rather than a FormatException.
   */
  function ParseInteger(s: string): (r: Option<int>)
    ensures r.Some? ==> Int32Min <= r.value <= Int32Max
  {
    var t := StripNumberWhite(s);
    var negative := |t| > 0 && t[0] == '-';
    var body := if |t| > 0 && (t[0] == '-' || t[0] == '+') then t[1..] else t;
    if body != "" && AllDigits(body) then
      var d: int := DigitsValue(body);
      var v := if negative then -d else d;
      if Int32Min <= v <= Int32Max then Some(v) else None
    else None
  }

  /** The C# cast `(int)f`, which drops the fraction toward zero. */
  function Truncate(x: real): (r: int)
    ensures 0.0 <= x ==> r as real <= x < r as real + 1.0
    ensures x < 0.0 ==> r as real - 1.0 < x <= r as real
  {
    if x >= 0.0 then x.Floor else -((-x).Floor)
  }

  // ---------------------------------------------------------------------
  // Decimal rendering, the inverse of parsing.

  function DigitChar(d: nat): (c: char)
    requires d < 10
    ensures IsDigit(c)
  {
    ('0' as int + d) as char
  }

  /** The decimal digits of n, without leading zeros. */
  function ShowNat(n: nat): (s: string)
    ensures s != [] && AllDigits(s)
  {
    if n < 10 then [DigitChar(n)] else ShowNat(n / 10) + [DigitChar(n % 10)]
  }

  /** The decimal text of an integer, with '-' for negatives. */
  function ShowInt(n: int): string {
    if n < 0 then "-" + ShowNat(-n) else ShowNat(n)
  }

  lemma {:induction false} DigitsValueShowNat(n: nat)
    ensures DigitsValue(ShowNat(n)) == n
  {
    if n >= 10 {
      DigitsValueShowNat(n / 10);
      var s := ShowNat(n);
      assert s[..|s| - 1] == ShowNat(n / 10);
    }
  }

  /** StripLeading drops exactly the leading number white space. */
  lemma {:induction false} StripLeadingShape(s: string)
    ensures var r := StripLeading(s);
      && |r| <= |s| && r == s[|s| - |r|..]
      && (r == [] || !IsNumberWhite(r[0]))
      && forall i :: 0 <= i < |s| - |r| ==> IsNumberWhite(s[i])
  {
    if |s| > 0 && IsNumberWhite(s[0]) {
      StripLeadingShape(s[1..]);
    }
  }

  /** StripTrailing drops exactly the trailing number white space. */
  lemma {:induction false} StripTrailingShape(s: string)
    ensures var r := StripTrailing(s);
      && |r| <= |s| && r == s[..|r|]
      && (r == [] || !IsNumberWhite(r[|r| - 1]))
      && forall i :: |r| <= i < |s| ==> IsNumberWhite(s[i])
  {
    if |s| > 0 && IsNumberWhite(s[|s| - 1]) {
      StripTrailingShape(s[..|s| - 1]);
    }
  }

  /** A string whose ends are not white space needs no stripping. */
  lemma StripNothing(s: string)
    requires s != [] && !IsNumberWhite(s[0]) && !IsNumberWhite(s[|s| - 1])
    ensures StripNumberWhite(s) == s
  {
  }

  lemma {:induction false} ParseUnsignedShowNat(n: nat)
    ensures ParseUnsigned(ShowNat(n)) == Some(n as real)
  {
    var s := ShowNat(n);
    assert Avoids(s, {'.'});
    SplitWhole(s, {'.'});
    DigitsValueShowNat(n);
  }

  /** Printing an integer in decimal and parsing it as a float gives the integer back. */
  lemma {:induction false} ParseNumberShowInt(n: int)
    ensures ParseNumber(ShowInt(n)) == Some(n as real)
  {
    var s := ShowInt(n);
    StripNothing(s);
    if n < 0 {
      assert s[1..] == ShowNat(-n);
      ParseUnsignedShowNat(-n);
    } else {
      ParseUnsignedShowNat(n);
    }
  }

  /** Printing an Int32 in decimal and parsing it back with int.Parse gives it back. */
  lemma {:induction false} ParseIntegerShowInt(n: int)
    requires Int32Min <= n <= Int32Max
    ensures ParseInteger(ShowInt(n)) == Some(n)
  {
    var s := ShowInt(n);
    StripNothing(s);
    if n < 0 {
      assert s[1..] == ShowNat(-n);
      DigitsValueShowNat(-n);
    } else {
      DigitsValueShowNat(n);
    }
  }

  /** The characters a float literal can be made of. */
  predicate IsLiteralChar(c: char) {
    IsDigit(c) || c == '.' || c == '-' || c == '+' || IsNumberWhite(c)
  }

  lemma {:induction false} UnsignedCharacters(s: string)
    requires ParseUnsigned(s).Some?
    ensures forall i :: 0 <= i < |s| ==> IsDigit(s[i]) || s[i] == '.'
  {
    var parts := Split(s, '.');
    JoinSplit(s, '.');
    if |parts| == 2 {
      assert s == parts[0] + "." + parts[1];
      forall i | 0 <= i < |s| ensures IsDigit(s[i]) || s[i] == '.' {
        if i > |parts[0]| { assert s[i] == parts[1][i - |parts[0]| - 1]; }
      }
    }
  }

  /** Anything float parsing accepts consists of digits, '.', signs and white space only. */
  lemma {:induction false} LiteralCharacters(s: string)
    requires ParseNumber(s).Some?
    ensures forall i :: 0 <= i < |s| ==> IsLiteralChar(s[i])
  {
    var lead := StripLeading(s);
    var t := StripTrailing(lead);
    StripLeadingShape(s);
    StripTrailingShape(lead);
    var a := |s| - |lead|;
    assert t == s[a..a + |t|];
    var body := if |t| > 0 && (t[0] == '-' || t[0] == '+') then t[1..] else t;
    UnsignedCharacters(body);
    forall i | 0 <= i < |s| ensures IsLiteralChar(s[i]) {
      if a <= i < a + |t| {
        assert s[i] == t[i - a];
        if |t| > 0 && (t[0] == '-' || t[0] == '+') && i > a {
          assert t[i - a] == body[i - a - 1];
        }
      } else if i >= a + |t| {
        assert s[i] == lead[i - a];
      }
    }
  }
}
