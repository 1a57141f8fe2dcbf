/** `Number(x)` applied to a string, following the StringToNumber grammar of
    ECMAScript (section 7.1.4.1.1 of ECMA-262): surrounding white space is
    ignored, the empty string is 0, decimal literals may carry a sign, a
    fraction and an exponent, `0x`/`0o`/`0b` literals carry no sign, and
    anything else is NaN. Values are exact; the rounding of large or long
    literals to doubles (and overflow to Infinity) is not modelled. */
module JsNumber {
  import opened Js

  /** ECMAScript WhiteSpace and LineTerminator code points. */
  predicate IsWhiteSpace(c: char)
  {
    c == '\t' || c == '\n' || c == '\U{000B}' || c == '\U{000C}' || c == '\r' || c == ' '
    || c == '\U{00A0}' || c == '\U{1680}' || ('\U{2000}' <= c <= '\U{200A}')
    || c == '\U{2028}' || c == '\U{2029}' || c == '\U{202F}' || c == '\U{205F}'
    || c == '\U{3000}' || c == '\U{FEFF}'
  }

  function TrimStart(s: string): (r: string)
    ensures |r| <= |s| && r == s[|s| - |r|..]
    ensures r == "" || !IsWhiteSpace(r[0])
    ensures s != "" && !IsWhiteSpace(s[0]) ==> r == s
  {
    if s != "" && IsWhiteSpace(s[0]) then TrimStart(s[1..]) else s
  }

  function TrimEnd(s: string): (r: string)
    ensures |r| <= |s| && r == s[..|r|]
    ensures r == "" || !IsWhiteSpace(r[|r| - 1])
    ensures s != "" && !IsWhiteSpace(s[|s| - 1]) ==> r == s
  {
    if s != "" && IsWhiteSpace(s[|s| - 1]) then TrimEnd(s[..|s| - 1]) else s
  }

  /** `s` without leading and trailing white space: the result neither
      starts nor ends with white space, and a string that already does
      neither is its own trim. */
  function Trim(s: string): (r: string)
    ensures |r| <= |s|
    ensures r == "" || (!IsWhiteSpace(r[0]) && !IsWhiteSpace(r[|r| - 1]))
    ensures s == "" || (!IsWhiteSpace(s[0]) && !IsWhiteSpace(s[|s| - 1])) ==> r == s
  {
    TrimEnd(TrimStart(s))
  }

  /** The value of a digit character in bases up to 16, or -1. */
  function DigitValue(c: char): int
  {
    if '0' <= c <= '9' then c as int - '0' as int
    else if 'a' <= c <= 'f' then c as int - 'a' as int + 10
    else if 'A' <= c <= 'F' then c as int - 'A' as int + 10
    else -1
  }

  predicate IsRadixDigits(s: string, radix: nat)
  {
    forall i :: 0 <= i < |s| ==> 0 <= DigitValue(s[i]) < radix
  }

  function RadixValue(s: string, radix: nat): (v: nat)
    requires IsRadixDigits(s, radix)
  {
    if s == "" then 0 else RadixValue(s[..|s| - 1], radix) * radix + DigitValue(s[|s| - 1])
  }

  /** Ten to an integer power, as an exact real. */
  function Pow10(k: int): (p: real)
    ensures p > 0.0
    decreases if k < 0 then -k else k
  {
    if k == 0 then 1.0
    else if k > 0 then 10.0 * Pow10(k - 1)
    else Pow10(k + 1) / 10.0
  }

  /** The index of the first character of `s` satisfying `isDelim`, or |s|. */
  function IndexOfExponentMark(s: string): (k: nat)
    ensures k <= |s|
    ensures forall i :: 0 <= i < k ==> s[i] != 'e' && s[i] != 'E'
    ensures k < |s| ==> s[k] == 'e' || s[k] == 'E'
  {
    if s == "" then 0
    else if s[0] == 'e' || s[0] == 'E' then 0
    else 1 + IndexOfExponentMark(s[1..])
  }

  function IndexOfDot(s: string): (k: nat)
    ensures k <= |s|
    ensures forall i :: 0 <= i < k ==> s[i] != '.'
    ensures k < |s| ==> s[k] == '.'
  {
    if s == "" then 0
    else if s[0] == '.' then 0
    else 1 + IndexOfDot(s[1..])
  }

  /** An exponent after `e`/`E`: an optional sign and at least one digit. */
  function ParseExponent(s: string): Option<int>
  {
    if s != "" && (s[0] == '+' || s[0] == '-') then
      var digits := s[1..];
      if digits != "" && IsRadixDigits(digits, 10) then
        var v: int := RadixValue(digits, 10);
        Some(if s[0] == '-' then -v else v)
      else None
    else if s != "" && IsRadixDigits(s, 10) then Some(RadixValue(s, 10))
    else None
  }

  /** StrUnsignedDecimalLiteral without `Infinity`: digits, an optional
      fraction (at least one digit on one side of the dot), an optional
      exponent. */
  function ParseUnsignedDecimal(s: string): Option<real>
  {
    var e := IndexOfExponentMark(s);
    var mantissa := s[..e];
    var exponent := if e < |s| then ParseExponent(s[e + 1..]) else Some(0);
    var d := IndexOfDot(mantissa);
    var whole := mantissa[..d];
    var fraction := if d < |mantissa| then mantissa[d + 1..] else "";
    if exponent.Some? && IsRadixDigits(whole, 10) && IsRadixDigits(fraction, 10)
       && |whole| + |fraction| > 0
    then
      assert IsRadixDigits(whole + fraction, 10);
      Some(RadixValue(whole + fraction, 10) as real * Pow10(exponent.value - |fraction|))
    else None
  }

  /** `0x`, `0o` or `0b` followed by at least one digit of that base. */
  function ParseNonDecimal(s: string): Option<nat>
  {
    if |s| > 2 && s[0] == '0' then
      var radix := if s[1] == 'x' || s[1] == 'X' then 16
                   else if s[1] == 'o' || s[1] == 'O' then 8
                   else if s[1] == 'b' || s[1] == 'B' then 2
                   else 0;
      if radix != 0 && IsRadixDigits(s[2..], radix) then Some(RadixValue(s[2..], radix)) else None
    else None
  }

  /** The numeric value of a trimmed, non-empty string literal. */
  function ParseNumericLiteral(t: string): Num
  {
    if t == "Infinity" || t == "+Infinity" then PosInf
    else if t == "-Infinity" then NegInf
    else if ParseNonDecimal(t).Some? then Finite(ParseNonDecimal(t).value as real)
    else
      var negative := t != "" && t[0] == '-';
      var unsigned := if t != "" && (t[0] == '-' || t[0] == '+') then t[1..] else t;
      match ParseUnsignedDecimal(unsigned)
      case Some(v) => Finite(if negative then -v else v)
      case None => NaN
  }

  /** `Number(s)` for a string `s`: a blank string is 0, and the only
      infinite values come from the `Infinity` literals. */
  function StringToNumber(s: string): (r: Num)
    ensures Trim(s) == "" ==> r == Finite(0.0)
    ensures r == PosInf <==> Trim(s) == "Infinity" || Trim(s) == "+Infinity"
    ensures r == NegInf <==> Trim(s) == "-Infinity"
  {
    var t := Trim(s);
    if t == "" then Finite(0.0) else ParseNumericLiteral(t)
  }

  /** Surrounding white space does not change the value. */
  lemma SurroundingWhiteSpaceIgnored(s: string)
    ensures StringToNumber(s) == StringToNumber(Trim(s))
  {
    assert Trim(Trim(s)) == Trim(s);
  }

  /** `Number(x)` for a value that is a string or `undefined` (a query
      parameter). `Number(undefined)` is NaN. */
  function QueryToNumber(q: Option<string>): Num
  {
    match q
    case None => NaN
    case Some(s) => StringToNumber(s)
  }

  /** The decimal digits of a natural number, most significant first, with
      no leading zero: how JavaScript prints a non-negative integer. */
  function NatToDecimal(n: nat): (s: string)
    ensures s != "" && IsRadixDigits(s, 10)
    ensures |s| > 1 ==> s[0] != '0'
  {
    var digit := ['0' + (n % 10) as char];
    if n < 10 then digit else NatToDecimal(n / 10) + digit
  }

  lemma {:induction false} DecimalValue(n: nat)
    ensures RadixValue(NatToDecimal(n), 10) == n
  {
    var s := NatToDecimal(n);
    if n >= 10 {
      DecimalValue(n / 10);
      assert s[..|s| - 1] == NatToDecimal(n / 10);
    }
  }

  lemma DecimalDigitChar(c: char)
    requires 0 <= DigitValue(c) < 10
    ensures '0' <= c <= '9'
  {
  }

  lemma NoMarksInDigits(s: string)
    requires IsRadixDigits(s, 10)
    ensures IndexOfExponentMark(s) == |s| && IndexOfDot(s) == |s|
    ensures Trim(s) == s
  {
    NoExponentMarkInDigits(s);
    NoDotInDigits(s);
    DigitsAreTrimmed(s);
  }

  lemma {:induction false} NoExponentMarkInDigits(s: string)
    requires IsRadixDigits(s, 10)
    ensures IndexOfExponentMark(s) == |s|
  {
    var e := IndexOfExponentMark(s);
    if e < |s| {
      DecimalDigitChar(s[e]);
    }
  }

  lemma {:induction false} NoDotInDigits(s: string)
    requires IsRadixDigits(s, 10)
    ensures IndexOfDot(s) == |s|
  {
    var d := IndexOfDot(s);
    if d < |s| {
      DecimalDigitChar(s[d]);
    }
  }

  lemma {:induction false} DigitsAreTrimmed(s: string)
    requires IsRadixDigits(s, 10)
    ensures Trim(s) == s
  {
    if s != "" {
      DecimalDigitChar(s[0]);
      DigitIsNotWhiteSpace(s[0]);
      assert TrimStart(s) == s;
      DecimalDigitChar(s[|s| - 1]);
      DigitIsNotWhiteSpace(s[|s| - 1]);
    }
  }

  lemma DigitIsNotWhiteSpace(c: char)
    requires '0' <= c <= '9'
    ensures !IsWhiteSpace(c)
  {
  }

  /** A plain digit string is an unsigned decimal literal of its value. */
  lemma {:induction false} DigitsAreDecimal(s: string)
    requires s != "" && IsRadixDigits(s, 10)
    ensures ParseUnsignedDecimal(s) == Some(RadixValue(s, 10) as real)
  {
    NoMarksInDigits(s);
    assert s[..|s|] == s;
    assert s + "" == s;
  }

  /** A plain digit string denotes its decimal value. */
  lemma {:induction false} DigitsAreNumericLiteral(s: string)
    requires s != "" && IsRadixDigits(s, 10)
    ensures ParseNumericLiteral(s) == Finite(RadixValue(s, 10) as real)
  {
    DigitsAreDecimal(s);
    DecimalDigitChar(s[0]);
    assert s != "Infinity" && s != "+Infinity" && s != "-Infinity" by {
      assert "Infinity"[0] == 'I' && "+Infinity"[0] == '+' && "-Infinity"[0] == '-';
    }
    assert ParseNonDecimal(s) == None by {
      if |s| > 2 {
        DecimalDigitChar(s[1]);
      }
    }
  }

  /** Reading back the decimal rendering of a natural number gives that
      number: `Number(String(n)) === n`. */
  lemma NumberOfDecimal(n: nat)
    ensures StringToNumber(NatToDecimal(n)) == Finite(n as real)
  {
    var s := NatToDecimal(n);
    NoMarksInDigits(s);
    DecimalValue(n);
    DigitsAreNumericLiteral(s);
  }

  /** `Number("")` and `Number("   ")` are 0; `Number(undefined)` is NaN. */
  lemma EmptyStringIsZero(w: string)
    requires forall i :: 0 <= i < |w| ==> IsWhiteSpace(w[i])
    ensures StringToNumber(w) == Finite(0.0)
    ensures QueryToNumber(None) == NaN
  {
    if w != "" {
      TrimOfWhiteSpace(w);
    }
  }

  lemma {:induction false} TrimOfWhiteSpace(w: string)
    requires forall i :: 0 <= i < |w| ==> IsWhiteSpace(w[i])
    ensures TrimStart(w) == ""
  {
    if w != "" {
      TrimOfWhiteSpace(w[1..]);
    }
  }
}
