/** The price-text rule shared by the workshop list and the enrolment form:
    `s.replace(/[^0-9.-]+/g, "").replace(",", "")`, the string handed to
    `parseFloat`. The regular expression deletes every run of characters
    other than ASCII digits, `.` and `-`; the second call deletes the first
    `,` if there is one. `parseFloat` itself is not modelled. */
module PriceText {

  /** The characters the character class `[0-9.-]` matches. */
  predicate IsNumericChar(c: char)
  {
    ('0' <= c <= '9') || c == '.' || c == '-'
  }

  /** `s.replace(/[^0-9.-]+/g, "")`: the numeric characters of `s`, in
      their original order. */
  function StripNonNumeric(s: string): (r: string)
    ensures |r| <= |s|
    ensures forall i :: 0 <= i < |r| ==> IsNumericChar(r[i])
  {
    if s == "" then ""
    else if IsNumericChar(s[0]) then [s[0]] + StripNonNumeric(s[1..])
    else StripNonNumeric(s[1..])
  }

  /** `s.replace(c, "")` with a one-character string pattern: only the first
      occurrence is deleted. */
  function ReplaceFirst(s: string, c: char): (r: string)
    ensures c !in s ==> r == s
    ensures c in s ==> |r| == |s| - 1
  {
    if s == "" then ""
    else if s[0] == c then s[1..]
    else [s[0]] + ReplaceFirst(s[1..], c)
  }

  /** The text `parseFloat` receives: numeric characters only, and no
      longer than the input. */
  function PriceText(s: string): (r: string)
    ensures |r| <= |s|
    ensures forall i :: 0 <= i < |r| ==> IsNumericChar(r[i])
  {
    assert !IsNumericChar(',');
    ReplaceFirst(StripNonNumeric(s), ',')
  }

  /** Stripping keeps exactly the numeric characters: a character occurs
      in the result as often as in the input if it is numeric, and not at
      all otherwise. */
  lemma {:induction false} StripKeepsExactly(s: string, c: char)
    ensures multiset(StripNonNumeric(s))[c] == if IsNumericChar(c) then multiset(s)[c] else 0
  {
    if s != "" {
      StripKeepsExactly(s[1..], c);
      assert s == [s[0]] + s[1..];
      assert multiset(s) == multiset([s[0]]) + multiset(s[1..]);
    }
  }

  /** The comma replacement is a no-op: stripping already removed every
      comma, so the text is exactly the numeric characters of the input. */
  lemma CommaReplaceIsNoOp(s: string)
    ensures PriceText(s) == StripNonNumeric(s)
    ensures ',' !in PriceText(s)
  {
    assert !IsNumericChar(',');
  }

  /** Stripping works character by character: it distributes over `+`. */
  lemma {:induction false} StripDistributes(a: string, b: string)
    ensures StripNonNumeric(a + b) == StripNonNumeric(a) + StripNonNumeric(b)
  {
    if a == "" {
      assert a + b == b;
    } else {
      assert (a + b)[0] == a[0];
      assert (a + b)[1..] == a[1..] + b;
      StripDistributes(a[1..], b);
    }
  }

  /** Stripping twice is stripping once. */
  lemma {:induction false} StripIdempotent(s: string)
    ensures StripNonNumeric(StripNonNumeric(s)) == StripNonNumeric(s)
  {
    if s != "" {
      StripIdempotent(s[1..]);
      if IsNumericChar(s[0]) {
        var rest := StripNonNumeric(s[1..]);
        assert ([s[0]] + rest)[0] == s[0];
        assert ([s[0]] + rest)[1..] == rest;
      }
    }
  }

  /** A string of numeric characters is left as it is. */
  lemma {:induction false} StripKeepsNumeric(s: string)
    requires forall i :: 0 <= i < |s| ==> IsNumericChar(s[i])
    ensures StripNonNumeric(s) == s
  {
    if s != "" {
      StripKeepsNumeric(s[1..]);
    }
  }

  /** "1,999 Rs" becomes "1999". */
  lemma Example(s: string)
    requires s == "1,999 Rs"
    ensures PriceText(s) == "1999"
  {
    CommaReplaceIsNoOp(s);
    var digits, unit := s[2..5], s[5..];
    assert s == s[..2] + (digits + unit);
    StripDistributes(s[..2], digits + unit);
    StripDistributes(digits, unit);
    StripKeepsNumeric(digits);
    assert StripNonNumeric(s[..2]) == "1";
    assert StripNonNumeric(unit) == "" by {
      assert unit == [s[5], s[6], s[7]];
      assert s[5] == ' ' && s[6] == 'R' && s[7] == 's';
      assert unit[1..][1..] == unit[2..] && unit[2..][1..] == "";
      assert StripNonNumeric(unit[2..]) == "";
      assert StripNonNumeric(unit[1..]) == "";
    }
  }
}
