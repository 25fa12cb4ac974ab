/**
 * String operations that both tiers rely on: rendering integers as decimal
 * text (JavaScript `String(n)`, Python `str(n)`), JavaScript `parseInt`, the
 * stricter Python `int(...)` that Django applies to primary-key lookups,
 * `Array.prototype.join`, whitespace trimming and JavaScript truthiness of
 * an optional string.
 */
module Text {
  import opened Wrappers

  predicate IsDigit(c: char) { '0' <= c <= '9' }

  /** ASCII white space: space, tab, line feed, vertical tab, form feed, carriage return. */
  predicate IsSpace(c: char) { c == ' ' || c == '\t' || c == '\n' || c == '\r' || c as int == 11 || c as int == 12 }

  predicate AllDigits(s: string) { forall i :: 0 <= i < |s| ==> IsDigit(s[i]) }

  function DigitValue(c: char): (d: nat)
    requires IsDigit(c)
    ensures d < 10
  {
    (c as int) - ('0' as int)
  }

  function DigitChar(d: nat): (c: char)
    requires d < 10
    ensures IsDigit(c) && DigitValue(c) == d
  {
    ('0' as int + d) as char
  }

  /** Decimal digits of a natural number, most significant first, no leading zeros. */
  function NatString(n: nat): (s: string)
    ensures |s| > 0 && AllDigits(s)
    decreases n
  {
    if n < 10 then [DigitChar(n)] else NatString(n / 10) + [DigitChar(n % 10)]
  }

  /** The decimal text of an integer, as `String(n)` and `str(n)` render it. */
  function IntString(n: int): (s: string)
    ensures |s| > 0
    ensures n >= 0 ==> AllDigits(s)
    ensures n < 0 ==> s[0] == '-' && AllDigits(s[1..])
  {
    if n < 0 then "-" + NatString(-n) else NatString(n)
  }

  /** The value of a string of decimal digits. */
  function DigitsValue(s: string): nat
    requires AllDigits(s)
    decreases |s|
  {
    if s == [] then 0 else DigitsValue(s[..|s| - 1]) * 10 + DigitValue(s[|s| - 1])
  }

  lemma {:induction false} DigitsValueOfNatString(n: nat)
    ensures DigitsValue(NatString(n)) == n
    decreases n
  {
    var s := NatString(n);
    if n >= 10 {
      DigitsValueOfNatString(n / 10);
      assert s[..|s| - 1] == NatString(n / 10);
    } else {
      assert s[..|s| - 1] == [];
    }
  }

  /** `s` without its leading white space. */
  function SkipSpaces(s: string): (r: string)
    ensures |r| <= |s| && r == s[|s| - |r|..]
    ensures r == [] || !IsSpace(r[0])
    ensures forall i :: 0 <= i < |s| - |r| ==> IsSpace(s[i])
    decreases |s|
  {
    if s != [] && IsSpace(s[0]) then SkipSpaces(s[1..]) else s
  }

  /** `s` without its trailing white space. */
  function DropTrailingSpaces(s: string): (r: string)
    ensures |r| <= |s| && r == s[..|r|]
    ensures r == [] || !IsSpace(r[|r| - 1])
    ensures forall i :: |r| <= i < |s| ==> IsSpace(s[i])
    decreases |s|
  {
    if s != [] && IsSpace(s[|s| - 1]) then DropTrailingSpaces(s[..|s| - 1]) else s
  }

  /** Python's `str.strip()` restricted to ASCII white space. */
  function Strip(s: string): (r: string)
    ensures r == [] || (!IsSpace(r[0]) && !IsSpace(r[|r| - 1]))
  {
    DropTrailingSpaces(SkipSpaces(s))
  }

  /** The longest prefix of `s` made of decimal digits. */
  function LeadingDigits(s: string): (r: string)
    ensures |r| <= |s| && r == s[..|r|] && AllDigits(r)
    ensures |r| < |s| ==> !IsDigit(s[|r|])
    decreases |s|
  {
    if s != [] && IsDigit(s[0]) then [s[0]] + LeadingDigits(s[1..]) else []
  }

  /** Splits an optional leading '+' or '-' off `s`; the flag is true for '-'. */
  function SplitSign(s: string): (r: (bool, string))
    ensures r.1 == s || (|s| > 0 && (s[0] == '+' || s[0] == '-') && r.1 == s[1..])
    ensures r.0 <==> |s| > 0 && s[0] == '-'
  {
    if |s| > 0 && s[0] == '-' then (true, s[1..])
    else if |s| > 0 && s[0] == '+' then (false, s[1..])
    else (false, s)
  }

  /**
   * JavaScript `parseInt(s)` without a radix, on decimal input: leading white
   * space is skipped, one optional sign is read, then the longest run of
   * digits; anything after the digits is ignored. No digit at all gives NaN,
   * which is `None` here (NaN equals no number under `===`).
   */
  function ParseInt(s: string): Option<int> {
    var signed := SplitSign(SkipSpaces(s));
    SignedValue(signed.0, LeadingDigits(signed.1))
  }

  /** The number a sign flag and a run of digits denote; no number without a digit. */
  function SignedValue(negative: bool, digits: string): Option<int>
    requires AllDigits(digits)
  {
    if digits == [] then None
    else var magnitude: int := DigitsValue(digits); Some(if negative then -magnitude else magnitude)
  }

  /**
   * Python `int(s)` on a string: white space around the number is allowed,
   * then an optional sign and one or more digits and nothing else; any other
   * text is rejected (`None`, where Python raises `ValueError`).
   */
  function ParseStrictInt(s: string): Option<int> {
    var signed := SplitSign(Strip(s));
    if !AllDigits(signed.1) then None else SignedValue(signed.0, signed.1)
  }

  lemma {:induction false} LeadingDigitsOfDigits(d: string, rest: string)
    requires AllDigits(d)
    requires rest == [] || !IsDigit(rest[0])
    ensures LeadingDigits(d + rest) == d
    decreases |d|
  {
    if d != [] {
      assert (d + rest)[0] == d[0];
      assert (d + rest)[1..] == d[1..] + rest;
      LeadingDigitsOfDigits(d[1..], rest);
    }
  }

  /** How `parseInt` sees a run of digits followed by non-digit text: no space, no sign, and the run. */
  lemma {:induction false} UnsignedParts(digits: string, rest: string)
    requires digits != [] && AllDigits(digits)
    requires rest == [] || !IsDigit(rest[0])
    ensures SkipSpaces(digits + rest) == digits + rest
    ensures SplitSign(digits + rest) == (false, digits + rest)
    ensures LeadingDigits(digits + rest) == digits
  {
    FirstOfConcat(digits, rest);
    LeadingDigitsOfDigits(digits, rest);
  }

  /** The first character of `a + b` is that of `a`, and a digit when `a` is all digits. */
  lemma FirstOfConcat(a: string, b: string)
    requires a != [] && AllDigits(a)
    ensures (a + b)[0] == a[0] && IsDigit((a + b)[0])
  {
  }

  /** `parseInt` of the digits of `m` followed by non-digit text reads `m`. */
  lemma {:induction false} ParseIntOfUnsigned(s: string, m: nat, rest: string)
    requires rest == [] || !IsDigit(rest[0])
    requires s == NatString(m) + rest
    ensures ParseInt(s) == Some(m)
  {
    UnsignedParts(NatString(m), rest);
    DigitsValueOfNatString(m);
  }

  /** The first character of `[c] + t` is `c`, and the rest is `t`. */
  lemma SignedConcat(c: char, t: string)
    ensures ([c] + t)[0] == c && ([c] + t)[1..] == t
  {
  }

  /** How `parseInt` sees a minus sign, a run of digits and non-digit text. */
  lemma {:induction false} NegativeParts(digits: string, rest: string)
    requires digits != [] && AllDigits(digits)
    requires rest == [] || !IsDigit(rest[0])
    ensures SplitSign(SkipSpaces("-" + (digits + rest))).0
    ensures LeadingDigits(SplitSign(SkipSpaces("-" + (digits + rest))).1) == digits
  {
    SignedConcat('-', digits + rest);
    assert SkipSpaces("-" + (digits + rest)) == "-" + (digits + rest);
    LeadingDigitsOfDigits(digits, rest);
  }

  /** `parseInt` of a minus sign, the digits of `m` and non-digit text reads `-m`. */
  lemma {:induction false} ParseIntOfNegative(s: string, m: nat, rest: string)
    requires rest == [] || !IsDigit(rest[0])
    requires s == "-" + (NatString(m) + rest)
    ensures ParseInt(s) == Some(-(m as int))
  {
    NegativeParts(NatString(m), rest);
    DigitsValueOfNatString(m);
  }

  /** `parseInt` reads back the text of a negative number, whatever non-digit text follows it. */
  lemma {:induction false} ParseIntReadsNegative(n: int, rest: string)
    requires n < 0
    requires rest == [] || !IsDigit(rest[0])
    ensures ParseInt(IntString(n) + rest) == Some(n)
  {
    var d := NatString(-n);
    assert IntString(n) == "-" + d;
    ConcatAssociates("-", d, rest);
    ParseIntOfNegative(IntString(n) + rest, -n, rest);
  }

  lemma ConcatAssociates(a: string, b: string, c: string)
    ensures (a + b) + c == a + (b + c)
  {
  }

  /** `parseInt` reads back the text of a non-negative number, whatever non-digit text follows it. */
  lemma {:induction false} ParseIntReadsNatural(n: int, rest: string)
    requires n >= 0
    requires rest == [] || !IsDigit(rest[0])
    ensures ParseInt(IntString(n) + rest) == Some(n)
  {
    ParseIntOfUnsigned(IntString(n) + rest, n, rest);
  }

  /**
   * `parseInt` reads back the number that `String(n)` wrote, whatever
   * non-digit text follows it.
   */
  lemma {:induction false} ParseIntReadsIntString(n: int, rest: string)
    requires rest == [] || !IsDigit(rest[0])
    ensures ParseInt(IntString(n) + rest) == Some(n)
  {
    if n < 0 {
      ParseIntReadsNegative(n, rest);
    } else {
      ParseIntReadsNatural(n, rest);
    }
  }

  /** A string with no digit anywhere is never a number to `parseInt`. */
  lemma ParseIntWithoutDigits(s: string)
    requires forall i :: 0 <= i < |s| ==> !IsDigit(s[i])
    ensures ParseInt(s) == None
  {
    var t := SkipSpaces(s);
    var rest := SplitSign(t).1;
    if rest != [] {
      assert rest[0] == s[|s| - |rest|];
    }
  }

  /** A string that neither starts nor ends with white space is its own strip. */
  lemma StripUnspaced(s: string)
    requires s != [] && !IsSpace(s[0]) && !IsSpace(s[|s| - 1])
    ensures Strip(s) == s
  {
    assert SkipSpaces(s) == s;
  }

  /** How Python's `int` sees a run of digits: no space to strip and no sign. */
  lemma StrictDigitsParts(d: string)
    requires d != [] && AllDigits(d)
    ensures SplitSign(Strip(d)) == (false, d)
  {
    StripUnspaced(d);
  }

  /** How Python's `int` sees a minus sign and a run of digits. */
  lemma StrictNegatedParts(d: string)
    requires d != [] && AllDigits(d)
    ensures SplitSign(Strip("-" + d)) == (true, d)
  {
    SignedConcat('-', d);
    LastOfConcat("-", d);
    StripUnspaced("-" + d);
  }

  /** The last character of `a + b` is that of `b` when `b` is not empty. */
  lemma LastOfConcat(a: string, b: string)
    requires b != []
    ensures (a + b)[|a + b| - 1] == b[|b| - 1]
  {
  }

  /** Python's `int` reads the digits of `m` as `m`. */
  lemma {:induction false} StrictIntOfDigits(s: string, m: nat)
    requires s == NatString(m)
    ensures ParseStrictInt(s) == Some(m)
  {
    StrictDigitsParts(s);
    DigitsValueOfNatString(m);
  }

  /** Python's `int` reads a minus sign and the digits of `m` as `-m`. */
  lemma {:induction false} StrictIntOfNegatedDigits(s: string, m: nat)
    requires s == "-" + NatString(m)
    ensures ParseStrictInt(s) == Some(-(m as int))
  {
    StrictNegatedParts(NatString(m));
    DigitsValueOfNatString(m);
  }

  /** Python's `int` reads back the number that `str(n)` wrote. */
  lemma {:induction false} ParseStrictIntReadsIntString(n: int)
    ensures ParseStrictInt(IntString(n)) == Some(n)
  {
    if n < 0 {
      StrictIntOfNegatedDigits(IntString(n), -n);
    } else {
      StrictIntOfDigits(IntString(n), n);
    }
  }

  /** `t` is its trailing-space-free prefix followed by text that is empty or starts with white space. */
  lemma SpacesAfterStrip(t: string) returns (tail: string)
    ensures t == DropTrailingSpaces(t) + tail
    ensures tail == [] || IsSpace(tail[0])
  {
    var u := DropTrailingSpaces(t);
    tail := t[|u|..];
    if tail != [] {
      assert tail[0] == t[|u|];
    }
  }

  /** A sign at the front of `u` is split off the same way when more text follows. */
  lemma SignSplitsPrefix(u: string, tail: string)
    requires u != []
    ensures SplitSign(u + tail).0 == SplitSign(u).0
    ensures SplitSign(u + tail).1 == SplitSign(u).1 + tail
  {
    assert (u + tail)[0] == u[0];
    if u[0] == '-' || u[0] == '+' {
      assert (u + tail)[1..] == u[1..] + tail;
    }
  }

  /**
   * When Python's `int` accepts `s`, `parseInt` sees the same sign and
   * reads the same digits: after them comes only white space.
   */
  lemma StrictDigitsThenSpaces(s: string)
    requires ParseStrictInt(s).Some?
    ensures SplitSign(SkipSpaces(s)).0 == SplitSign(Strip(s)).0
    ensures LeadingDigits(SplitSign(SkipSpaces(s)).1) == SplitSign(Strip(s)).1
  {
    var tail := SpacesAfterStrip(SkipSpaces(s));
    var u := Strip(s);
    SignSplitsPrefix(u, tail);
    LeadingDigitsOfDigits(SplitSign(u).1, tail);
  }

  /**
   * Every id that Python's `int` accepts is read the same way by
   * `parseInt`: the two tiers agree on every well-formed id.
   */
  lemma ParseIntAgreesWithStrict(s: string)
    requires ParseStrictInt(s).Some?
    ensures ParseInt(s) == ParseStrictInt(s)
  {
    StrictDigitsThenSpaces(s);
  }

  /** `Array.prototype.join`: the parts with `sep` between neighbours. */
  function Join(sep: string, parts: seq<string>): (r: string)
    ensures |parts| == 1 ==> r == parts[0]
    decreases |parts|
  {
    if |parts| == 0 then "" else if |parts| == 1 then parts[0] else parts[0] + sep + Join(sep, parts[1..])
  }

  /** Joining non-empty parts gives the empty string exactly when there are no parts. */
  lemma {:induction false} JoinEmptyIff(sep: string, parts: seq<string>)
    requires forall i :: 0 <= i < |parts| ==> parts[i] != ""
    ensures Join(sep, parts) == "" <==> parts == []
  {
    if |parts| > 1 {
      assert |Join(sep, parts)| >= |parts[0]|;
    }
  }

  /** JavaScript truthiness of a value that is a string or undefined/null: only "" is a falsy string. */
  predicate Truthy(s: Option<string>) { s.Some? && s.value != "" }

  /** The JavaScript expression `s || fallback` for `s` a string or undefined/null. */
  function OrElse(s: Option<string>, fallback: string): (r: string)
    ensures Truthy(s) ==> r == s.value
    ensures !Truthy(s) ==> r == fallback
  {
    if Truthy(s) then s.value else fallback
  }
}
