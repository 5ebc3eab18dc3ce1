/**
 * `parseInt(string, 10)` as defined in section 19.2.5 of ECMA-262
 * (parseInt ( string, radix )), with the Number result replaced by an
 * unbounded integer and `NaN` by `None`.
 */
module ParseInt {
  import opened Wrappers
  import opened JsString

  predicate IsDigit(c: char) {
    '0' <= c <= '9'
  }

  predicate AllDigits(s: string) {
    forall k :: 0 <= k < |s| ==> IsDigit(s[k])
  }

  function DigitValue(c: char): (d: nat)
    requires IsDigit(c)
    ensures d < 10
  {
    c as int - '0' as int
  }

  function DigitChar(d: nat): (c: char)
    requires d < 10
    ensures IsDigit(c) && DigitValue(c) == d
  {
    ('0' as int + d) as char
  }

  /** The longest prefix of `s` made of decimal digits (the `Z` of the standard's step 11). */
  function LeadingDigits(s: string): (z: string)
    ensures |z| <= |s| && z == s[..|z|]
    ensures AllDigits(z)
    ensures |z| == |s| || !IsDigit(s[|z|])
  {
    if s != [] && IsDigit(s[0]) then
      var z := LeadingDigits(s[1..]);
      assert [s[0]] + z == s[..|z| + 1];
      [s[0]] + z
    else []
  }

  /** The mathematical value of a string of decimal digits, most significant first. */
  function DigitsValue(z: string): nat
    requires AllDigits(z)
  {
    if z == [] then 0
    else DigitsValue(z[..|z| - 1]) * 10 + DigitValue(z[|z| - 1])
  }

  /** Steps 11 to 13 of the standard: the value of the leading digits of `u`, if there are any. */
  function ParseDigits(u: string): Option<nat>
  {
    var z := LeadingDigits(u);
    if z == [] then None else Some(DigitsValue(z))
  }

  /** Steps 3 to 15, after the leading white space is gone: an optional sign, then digits. */
  function ParseSigned(t: string): Option<int>
  {
    if t != [] && t[0] == '-' then
      match ParseDigits(t[1..])
      case None => None
      case Some(m) => Some(-(m as int))
    else if t != [] && t[0] == '+' then
      match ParseDigits(t[1..])
      case None => None
      case Some(m) => Some(m)
    else
      match ParseDigits(t)
      case None => None
      case Some(m) => Some(m)
  }

  /**
   * `parseInt(s, 10)`; `None` stands for `NaN`, and `-0` is the integer 0.
   * After the leading white space and an optional sign `u` remains: the
   * result is `NaN` exactly when `u` does not start with a digit, and
   * otherwise its magnitude is the value of the leading digits of `u`, with
   * the sign `-` makes negative.
   */
  function Parse(s: string): (r: Option<int>)
    ensures var t := TrimStart(s);
      var signed := t != [] && (t[0] == '-' || t[0] == '+');
      var u := if signed then t[1..] else t;
      && (r.None? <==> u == [] || !IsDigit(u[0]))
      && (r.Some? && t[0] == '-' ==> r.value == -(DigitsValue(LeadingDigits(u)) as int))
      && (r.Some? && t[0] != '-' ==> r.value == DigitsValue(LeadingDigits(u)))
  {
    ParseSigned(TrimStart(s))
  }

  /** The decimal numeral of `n`, without leading zeros. */
  function NatToString(n: nat): (s: string)
    ensures s != [] && AllDigits(s)
  {
    if n < 10 then [DigitChar(n)] else NatToString(n / 10) + [DigitChar(n % 10)]
  }

  /** `String(n)` for an integer `n`. */
  function IntToString(n: int): string
  {
    if n < 0 then "-" + NatToString(-n) else NatToString(n)
  }

  lemma {:induction false} NatToStringValue(n: nat)
    ensures DigitsValue(NatToString(n)) == n
  {
    if n >= 10 {
      var s := NatToString(n);
      assert s[..|s| - 1] == NatToString(n / 10);
      NatToStringValue(n / 10);
    }
  }

  lemma {:induction false} LeadingDigitsOfDigits(z: string, rest: string)
    requires AllDigits(z)
    requires rest == [] || !IsDigit(rest[0])
    ensures LeadingDigits(z + rest) == z
  {
    if z != [] {
      assert (z + rest)[1..] == z[1..] + rest;
      LeadingDigitsOfDigits(z[1..], rest);
    }
  }

  lemma NoLeadingWhiteSpace(s: string)
    requires s != [] && (IsDigit(s[0]) || s[0] == '-')
    ensures TrimStart(s) == s
  {
    assert !IsWhiteSpace(s[0]);
  }

  lemma {:induction false} ParseDigitsOfNumeral(n: nat, rest: string)
    requires rest == [] || !IsDigit(rest[0])
    ensures ParseDigits(NatToString(n) + rest) == Some(n)
  {
    NatToStringValue(n);
    LeadingDigitsOfDigits(NatToString(n), rest);
  }

  /**
   * `parseInt` reads back what `String` writes, and ignores whatever follows
   * the numeral once a non-digit is reached (`parseInt("3000abc", 10)` is 3000).
   */
  lemma {:induction false} ParseIntToString(n: int, rest: string)
    requires rest == [] || !IsDigit(rest[0])
    ensures Parse(IntToString(n) + rest) == Some(n)
  {
    var s := IntToString(n) + rest;
    if n < 0 {
      var m: nat := -n;
      assert s == "-" + NatToString(m) + rest;
      ParseNegative(m, rest);
      assert -(m as int) == n;
    } else {
      assert s == NatToString(n) + rest;
      ParseNonNegative(n, rest);
    }
  }

  lemma {:induction false} ParseNonNegative(n: nat, rest: string)
    requires rest == [] || !IsDigit(rest[0])
    ensures Parse(NatToString(n) + rest) == Some(n)
  {
    var s := NatToString(n) + rest;
    assert IsDigit(s[0]);
    NoLeadingWhiteSpace(s);
    ParseDigitsOfNumeral(n, rest);
    assert s[0] != '-' && s[0] != '+';
  }

  lemma {:induction false} ParseNegative(n: nat, rest: string)
    requires rest == [] || !IsDigit(rest[0])
    ensures Parse("-" + NatToString(n) + rest) == Some(-(n as int))
  {
    var u := NatToString(n) + rest;
    var s := "-" + u;
    assert s[0] == '-' && s[1..] == u;
    NoLeadingWhiteSpace(s);
    ParseDigitsOfNumeral(n, rest);
    assert "-" + NatToString(n) + rest == s;
  }

  /** Leading white space is skipped before the sign and the digits. */
  lemma {:induction false} ParseSkipsWhiteSpace(ws: string, s: string)
    requires AllWhiteSpace(ws)
    ensures Parse(ws + s) == Parse(s)
  {
    TrimStartSkipsWhiteSpace(ws, s);
  }

  /** A string with no digit in it has no value: `Parse` gives `NaN`. */
  lemma {:induction false} NoDigitsIsNaN(s: string)
    requires forall k :: 0 <= k < |s| ==> !IsDigit(s[k])
    ensures Parse(s) == None
  {
    var t := TrimStart(s);
    assert forall k :: 0 <= k < |t| ==> t[k] == s[|s| - |t| + k];
    if t != [] && (t[0] == '-' || t[0] == '+') {
      assert LeadingDigits(t[1..]) == [];
    } else {
      assert LeadingDigits(t) == [];
    }
  }

  /** `parseInt(undefined, 10)` converts its argument to `"undefined"` and gives `NaN`. */
  lemma {:induction false} UndefinedIsNaN()
    ensures Parse("undefined") == None
  {
    NoDigitsIsNaN("undefined");
  }
}
