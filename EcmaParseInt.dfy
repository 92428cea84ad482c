/**
 * The global `parseInt(string, 10)` of the ECMAScript Language Specification
 * (ECMA-262, section 19.2.5), restricted to radix 10 as the path controller
 * calls it: skip leading white space, read an optional sign, then the longest
 * prefix of decimal digits; no digit at all gives NaN.
 *
 * The result is `Option<int>`: `None` is NaN. The value -0 (from "-0") is
 * folded into 0; every caller here treats both as falsy.
 */
module EcmaParseInt {
  import opened Wrappers

  /** WhiteSpace (section 12.2) and LineTerminator (section 12.3) code points, which TrimString removes. */
  predicate IsWhiteSpace(c: char) {
    c == '\t' || c == '\U{0B}' || c == '\U{0C}' || c == ' ' || c == '\U{A0}' || c == '\U{FEFF}'
    || c == '\n' || c == '\r' || c == '\U{2028}' || c == '\U{2029}'
    // the remaining members of the Unicode category Zs
    || c == '\U{1680}' || ('\U{2000}' <= c <= '\U{200A}') || c == '\U{202F}' || c == '\U{205F}' || c == '\U{3000}'
  }

  predicate IsDigit(c: char) {
    '0' <= c <= '9'
  }

  predicate AllDigits(s: string) {
    forall i :: 0 <= i < |s| ==> IsDigit(s[i])
  }

  predicate AllWhiteSpace(s: string) {
    forall i :: 0 <= i < |s| ==> IsWhiteSpace(s[i])
  }

  function DigitValue(c: char): (d: nat)
    requires IsDigit(c)
    ensures d < 10
  {
    c as int - '0' as int
  }

  function DigitChar(d: nat): (c: char)
    requires d < 10
    ensures IsDigit(c) && DigitValue(c) == d
  {
    ('0' as int + d) as char
  }

  /** Step 2: the string with its leading white space removed. */
  function TrimStart(s: string): (r: string)
    ensures |r| <= |s| && r == s[|s| - |r|..]
    ensures AllWhiteSpace(s[..|s| - |r|])
    ensures r == [] || !IsWhiteSpace(r[0])
  {
    if s != [] && IsWhiteSpace(s[0]) then TrimStart(s[1..]) else s
  }

  /** Whether the number is negative, and the text after its sign. */
  datatype Signed = Signed(negative: bool, rest: string)

  /** Steps 3 and 4: a leading '-' makes the number negative; one '+' or '-' is removed. */
  function SplitSign(t: string): (r: Signed)
    ensures r.negative <==> t != [] && t[0] == '-'
    ensures r.rest == if t != [] && (t[0] == '-' || t[0] == '+') then t[1..] else t
  {
    if t != [] && t[0] == '-' then Signed(true, t[1..])
    else if t != [] && t[0] == '+' then Signed(false, t[1..])
    else Signed(false, t)
  }

  /** Step 6: the longest prefix of `s` made of decimal digits. */
  function DigitPrefix(s: string): (r: string)
    ensures |r| <= |s| && r == s[..|r|]
    ensures AllDigits(r)
    ensures |r| == |s| || !IsDigit(s[|r|])
  {
    if s != [] && IsDigit(s[0]) then [s[0]] + DigitPrefix(s[1..]) else []
  }

  /** Step 8: the mathematical value of a string of decimal digits. */
  function DecimalValue(ds: string): (n: nat)
    requires AllDigits(ds)
    ensures n == 0 <==> forall i :: 0 <= i < |ds| ==> ds[i] == '0'
  {
    if ds == [] then 0 else 10 * DecimalValue(ds[..|ds| - 1]) + DigitValue(ds[|ds| - 1])
  }

  /** `parseInt(s, 10)`, with `None` standing for NaN. */
  function ParseInt(s: string): (r: Option<int>)
    ensures r.None? <==>
      var rest := SplitSign(TrimStart(s)).rest;
      rest == [] || !IsDigit(rest[0])
    ensures r.Some? && r.value < 0 ==> TrimStart(s)[0] == '-'
  {
    ParseSigned(SplitSign(TrimStart(s)))
  }

  /** Steps 7 to 10: NaN without digits, otherwise the signed value of the digit prefix. */
  function ParseSigned(signed: Signed): (r: Option<int>)
    ensures r.None? <==> signed.rest == [] || !IsDigit(signed.rest[0])
    ensures r.Some? && r.value < 0 ==> signed.negative
    ensures r.Some? && r.value > 0 ==> !signed.negative
  {
    var z := DigitPrefix(signed.rest);
    if z == [] then None
    else if signed.negative then Some(-(DecimalValue(z) as int))
    else Some(DecimalValue(z))
  }

  /** The shortest decimal numeral of `n`, without sign or leading zeros. */
  function DecimalString(n: nat): (s: string)
    ensures |s| > 0 && AllDigits(s)
    ensures |s| > 1 ==> s[0] != '0'
  {
    if n < 10 then [DigitChar(n)] else DecimalString(n / 10) + [DigitChar(n % 10)]
  }

  /** The decimal notation of an integer, with a '-' before a negative one. */
  function DecimalNotation(n: int): (s: string)
    ensures |s| > 0 && (IsDigit(s[0]) || s[0] == '-')
  {
    if n < 0 then "-" + DecimalString(-n) else DecimalString(n)
  }

  lemma {:induction false} DecimalValueOfString(n: nat)
    ensures DecimalValue(DecimalString(n)) == n
  {
    if n >= 10 {
      var s := DecimalString(n);
      assert s[..|s| - 1] == DecimalString(n / 10);
      DecimalValueOfString(n / 10);
    }
  }

  /** A leading zero does not change the value of a digit string. */
  lemma {:induction false} DecimalValueLeadingZero(ds: string)
    requires AllDigits(ds)
    ensures DecimalValue("0" + ds) == DecimalValue(ds)
  {
    if ds != [] {
      assert ("0" + ds)[..|"0" + ds| - 1] == "0" + ds[..|ds| - 1];
      DecimalValueLeadingZero(ds[..|ds| - 1]);
    }
  }

  /** Digits followed by anything that does not begin with a digit: the digit prefix is exactly those digits. */
  lemma {:induction false} DigitPrefixOfDigits(ds: string, tail: string)
    requires AllDigits(ds)
    requires tail == [] || !IsDigit(tail[0])
    ensures DigitPrefix(ds + tail) == ds
  {
    if ds != [] {
      assert (ds + tail)[1..] == ds[1..] + tail;
      DigitPrefixOfDigits(ds[1..], tail);
    }
  }

  /** Leading white space never changes what parseInt returns. */
  lemma {:induction false} TrimStartSkipsWhiteSpace(ws: string, s: string)
    requires AllWhiteSpace(ws)
    ensures TrimStart(ws + s) == TrimStart(s)
  {
    if ws != [] {
      assert (ws + s)[0] == ws[0] && IsWhiteSpace(ws[0]);
      assert (ws + s)[1..] == ws[1..] + s;
      TrimStartSkipsWhiteSpace(ws[1..], s);
    } else {
      assert ws + s == s;
    }
  }

  lemma ParseIntIgnoresLeadingWhiteSpace(ws: string, s: string)
    requires AllWhiteSpace(ws)
    ensures ParseInt(ws + s) == ParseInt(s)
  {
    TrimStartSkipsWhiteSpace(ws, s);
  }

  /** A signed string of digits followed by a non-digit parses to the value of those digits. */
  lemma ParseIntOfDigits(s: string, negative: bool, ds: string, tail: string)
    requires SplitSign(TrimStart(s)) == Signed(negative, ds + tail)
    requires ds != [] && AllDigits(ds)
    requires tail == [] || !IsDigit(tail[0])
    ensures ParseInt(s) == Some(if negative then -(DecimalValue(ds) as int) else DecimalValue(ds))
  {
    var signed := SplitSign(TrimStart(s));
    DigitPrefixOfDigits(ds, tail);
    assert DigitPrefix(signed.rest) == ds;
  }

  lemma NotationHasNoLeadingWhiteSpace(n: int, tail: string)
    ensures TrimStart(DecimalNotation(n) + tail) == DecimalNotation(n) + tail
  {
    var s := DecimalNotation(n) + tail;
    var c := DecimalNotation(n)[0];
    assert s[0] == c;
    assert IsDigit(c) || c == '-';
    assert !IsWhiteSpace(c);
  }

  /** After trimming and sign splitting, a notation leaves its sign and its digits followed by the tail. */
  lemma SplitNotation(n: int, tail: string)
    ensures SplitSign(TrimStart(DecimalNotation(n) + tail)) ==
      Signed(n < 0, DecimalString(if n < 0 then -n else n) + tail)
  {
    var s := DecimalNotation(n) + tail;
    NotationHasNoLeadingWhiteSpace(n, tail);
    var ds := DecimalString(if n < 0 then -n else n);
    if n < 0 {
      assert s == ['-'] + (ds + tail);
    } else {
      assert s == ds + tail;
    }
  }

  /**
   * The decimal notation of any integer, followed by text that does not
   * continue the digits (such as "abc" in "12abc"), parses back to that integer.
   */
  lemma ParseIntOfNotation(n: int, tail: string)
    requires tail == [] || !IsDigit(tail[0])
    ensures ParseInt(DecimalNotation(n) + tail) == Some(n)
  {
    var m: nat := if n < 0 then -n else n;
    SplitNotation(n, tail);
    DecimalValueOfString(m);
    ParseIntOfDigits(DecimalNotation(n) + tail, n < 0, DecimalString(m), tail);
  }

  lemma ParseIntRoundTrip(n: int)
    ensures ParseInt(DecimalNotation(n)) == Some(n)
  {
    ParseIntOfNotation(n, []);
    assert DecimalNotation(n) + [] == DecimalNotation(n);
  }
}
