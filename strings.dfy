/**
 * The few string builtins of Python that the test runner relies on:
 * `str.join`, `str.strip`, `str(int)` and `int(str)`.
 * Strings are sequences of Unicode scalar values (Dafny's `string`).
 */
module Strings {

  datatype Option<+T> = None | Some(value: T)

  /** Python's `str.isspace` for one character (the whitespace set of `str.strip()`). */
  predicate IsSpace(c: char) {
    || '\t' <= c <= '\r'                          // \t \n \x0b \x0c \r
    || '\U{1C}' <= c <= '\U{1F}' || c == ' '
    || c == '\U{85}' || c == '\U{A0}' || c == '\U{1680}'
    || '\U{2000}' <= c <= '\U{200A}'
    || c == '\U{2028}' || c == '\U{2029}' || c == '\U{202F}' || c == '\U{205F}' || c == '\U{3000}'
  }

  predicate AllSpace(s: string) {
    forall i :: 0 <= i < |s| ==> IsSpace(s[i])
  }

  function LStrip(s: string): string
    decreases |s|
  {
    if s != [] && IsSpace(s[0]) then LStrip(s[1..]) else s
  }

  function RStrip(s: string): string
    decreases |s|
  {
    if s != [] && IsSpace(s[|s| - 1]) then RStrip(s[..|s| - 1]) else s
  }

  /** `s.strip()`: drop leading and trailing whitespace. */
  function Strip(s: string): string {
    RStrip(LStrip(s))
  }

  /** `sep.join(parts)` */
  function Join(sep: string, parts: seq<string>): string
    decreases |parts|
  {
    if |parts| == 0 then ""
    else if |parts| == 1 then parts[0]
    else parts[0] + sep + Join(sep, parts[1..])
  }

  predicate IsDigit(c: char) {
    '0' <= c <= '9'
  }

  function DigitChar(d: nat): char
    requires d < 10
  {
    ['0', '1', '2', '3', '4', '5', '6', '7', '8', '9'][d]
  }

  function DigitValue(c: char): nat
    requires IsDigit(c)
  {
    (c as int - '0' as int) as nat
  }

  /** Decimal digits of a natural number, without leading zeros. */
  function NatToDecimal(n: nat): string
    decreases n
  {
    if n < 10 then [DigitChar(n)] else NatToDecimal(n / 10) + [DigitChar(n % 10)]
  }

  /** `str(n)` for a Python `int`. */
  function IntToDecimal(n: int): string {
    if n < 0 then "-" + NatToDecimal(-n) else NatToDecimal(n)
  }

  /**
   * The digit part accepted by `int(s)` in base 10: one or more ASCII digits,
   * with single underscores allowed between two digits.
   */
  predicate WellFormedDigits(d: string) {
    && |d| > 0
    && IsDigit(d[0])
    && DigitsOrUnderscores(d)
    && forall i :: 0 <= i < |d| && d[i] == '_' ==> i + 1 < |d| && IsDigit(d[i + 1])
  }

  predicate DigitsOrUnderscores(d: string) {
    forall i :: 0 <= i < |d| ==> IsDigit(d[i]) || d[i] == '_'
  }

  /** The value of a digit string, underscores ignored. */
  function DigitsValue(d: string): nat
    requires DigitsOrUnderscores(d)
    decreases |d|
  {
    if d == [] then 0
    else if d[|d| - 1] == '_' then DigitsValue(d[..|d| - 1])
    else DigitsValue(d[..|d| - 1]) * 10 + DigitValue(d[|d| - 1])
  }

  /**
   * `int(s)` for a string: surrounding whitespace is ignored, an optional sign,
   * then well-formed digits; anything else is a `ValueError`, here `None`.
   */
  function ParseInt(s: string): Option<int> {
    var t := Strip(s);
    if |t| > 0 && (t[0] == '-' || t[0] == '+') then
      if WellFormedDigits(t[1..]) then
        var v: int := DigitsValue(t[1..]);
        Some(if t[0] == '-' then -v else v)
      else None
    else if WellFormedDigits(t) then Some(DigitsValue(t))
    else None
  }

  // ---------------------------------------------------------------------------
  // Properties

  lemma {:induction false} LStripNoSpace(s: string)
    requires |s| == 0 || !IsSpace(s[0])
    ensures LStrip(s) == s
  {
  }

  lemma {:induction false} RStripNoSpace(s: string)
    requires |s| == 0 || !IsSpace(s[|s| - 1])
    ensures RStrip(s) == s
  {
  }

  /** Stripping removes exactly the surrounding whitespace and nothing else. */
  lemma {:induction false} StripSurrounded(lead: string, body: string, trail: string)
    requires AllSpace(lead) && AllSpace(trail)
    requires body != [] && !IsSpace(body[0]) && !IsSpace(body[|body| - 1])
    ensures Strip(lead + body + trail) == body
  {
    LStripAllSpacePrefix(lead, body + trail);
    assert lead + body + trail == lead + (body + trail);
    RStripAllSpaceSuffix(body, trail);
  }

  lemma {:induction false} LStripAllSpacePrefix(lead: string, rest: string)
    requires AllSpace(lead)
    requires rest != [] && !IsSpace(rest[0])
    ensures LStrip(lead + rest) == rest
    decreases |lead|
  {
    if lead == [] {
      assert lead + rest == rest;
    } else {
      assert (lead + rest)[1..] == lead[1..] + rest;
      LStripAllSpacePrefix(lead[1..], rest);
    }
  }

  lemma {:induction false} RStripAllSpaceSuffix(rest: string, trail: string)
    requires AllSpace(trail)
    requires rest != [] && !IsSpace(rest[|rest| - 1])
    ensures RStrip(rest + trail) == rest
    decreases |trail|
  {
    if trail == [] {
      assert rest + trail == rest;
    } else {
      var t := rest + trail;
      assert t[..|t| - 1] == rest + trail[..|trail| - 1];
      RStripAllSpaceSuffix(rest, trail[..|trail| - 1]);
    }
  }

  /** `s.strip()` is empty exactly when `s` is all whitespace. */
  lemma {:induction false} StripEmptyIffAllSpace(s: string)
    ensures Strip(s) == "" <==> AllSpace(s)
  {
    LStripShape(s);
    var l := LStrip(s);
    RStripShape(l);
    var k := |s| - |l|;
    if Strip(s) == "" {
      // every character dropped on either side was whitespace
      forall i | 0 <= i < |s| ensures IsSpace(s[i]) {
        assert s[..k][i] == s[i];
      }
    } else {
      // a non-space character survives
      assert !IsSpace(Strip(s)[0]);
      assert Strip(s)[0] == l[0] == s[k];
    }
  }

  lemma {:induction false} LStripShape(s: string)
    ensures |LStrip(s)| <= |s|
    ensures LStrip(s) == s[|s| - |LStrip(s)|..]
    ensures AllSpace(s[..|s| - |LStrip(s)|])
    ensures LStrip(s) != [] ==> !IsSpace(LStrip(s)[0])
    decreases |s|
  {
    if s != [] && IsSpace(s[0]) {
      LStripShape(s[1..]);
      var k := |s| - |LStrip(s)|;
      assert s[..k] == [s[0]] + s[1..][..k - 1];
    }
  }

  lemma {:induction false} RStripShape(s: string)
    ensures |RStrip(s)| <= |s|
    ensures RStrip(s) == s[..|RStrip(s)|]
    ensures AllSpace(s[|RStrip(s)|..])
    ensures RStrip(s) == [] ==> AllSpace(s)
    decreases |s|
  {
    if s != [] && IsSpace(s[|s| - 1]) {
      var p := s[..|s| - 1];
      RStripShape(p);
      var k := |RStrip(s)|;
      assert s[k..] == p[k..] + [s[|s| - 1]];
    }
  }

  lemma {:induction false} NatToDecimalShape(n: nat)
    ensures WellFormedDigits(NatToDecimal(n))
    ensures forall i :: 0 <= i < |NatToDecimal(n)| ==> IsDigit(NatToDecimal(n)[i])
    ensures DigitsValue(NatToDecimal(n)) == n
    decreases n
  {
    if n >= 10 {
      NatToDecimalShape(n / 10);
      var p := NatToDecimal(n / 10);
      var d := NatToDecimal(n);
      assert d[..|d| - 1] == p;
    }
  }

  /** Parsing what `str(n)` prints gives `n` back: `int(str(n)) == n`. */
  lemma {:induction false} ParseIntOfDecimal(n: int)
    ensures ParseInt(IntToDecimal(n)) == Some(n)
  {
    var s := IntToDecimal(n);
    var m := if n < 0 then -n else n;
    NatToDecimalShape(m);
    var d := NatToDecimal(m);
    assert forall i :: 0 <= i < |s| ==> !IsSpace(s[i]) by {
      forall i | 0 <= i < |s| ensures !IsSpace(s[i]) {
        if n < 0 && i > 0 {
          assert s[i] == d[i - 1];
        }
      }
    }
    LStripNoSpace(s);
    RStripNoSpace(s);
    assert Strip(s) == s;
    if n < 0 {
      assert s[1..] == d;
    }
  }

  /** `int(s)` ignores the whitespace around the number, as in `int(" 4 ") == 4`. */
  lemma ParseIntIgnoresSurroundingSpace(lead: string, body: string, trail: string)
    requires AllSpace(lead) && AllSpace(trail)
    requires body != [] && !IsSpace(body[0]) && !IsSpace(body[|body| - 1])
    ensures ParseInt(lead + body + trail) == ParseInt(body)
  {
    StripSurrounded(lead, body, trail);
    LStripNoSpace(body);
    RStripNoSpace(body);
  }
}
