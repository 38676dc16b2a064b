/**
 * The pieces of JavaScript's string semantics that the mint script relies on:
 * `String.prototype.trim`, the global `parseInt` with no radix argument, and
 * the decimal rendering of an integer in a template literal. A string is a
 * sequence of `char`, which in Dafny is a Unicode scalar value: characters
 * outside the Basic Multilingual Plane are one `char` here but two UTF-16
 * code units in JavaScript, and lone surrogates are not represented. Nothing
 * below depends on the difference, since every character the script tests
 * for lies in the Basic Multilingual Plane.
 */
module JsText {
  import opened Wrappers

  /** WhiteSpace and LineTerminator code points of ECMAScript (sections 12.2 and 12.3 of ECMA-262). */
  predicate IsJsWhitespace(c: char) {
    var u := c as int;
    u == 0x09 || u == 0x0B || u == 0x0C || u == 0x20 || u == 0xA0 || u == 0xFEFF
    || u == 0x1680 || (0x2000 <= u <= 0x200A) || u == 0x202F || u == 0x205F || u == 0x3000
    || u == 0x0A || u == 0x0D || u == 0x2028 || u == 0x2029
  }

  ghost predicate AllWhitespace(s: string) {
    forall i :: 0 <= i < |s| ==> IsJsWhitespace(s[i])
  }

  /** The input without its leading white space. */
  function TrimStart(s: string): string {
    if s != [] && IsJsWhitespace(s[0]) then TrimStart(s[1..]) else s
  }

  /** The input without its trailing white space. */
  function TrimEnd(s: string): string {
    if s != [] && IsJsWhitespace(s[|s| - 1]) then TrimEnd(s[..|s| - 1]) else s
  }

  /** `s.trim()`: white space removed from both ends. */
  function Trim(s: string): string {
    TrimEnd(TrimStart(s))
  }

  /** `TrimStart` drops a run of white space from the front and stops at the first other character. */
  lemma {:induction false} TrimStartSpec(s: string)
    ensures var r := TrimStart(s);
      && |r| <= |s| && r == s[|s| - |r|..]
      && AllWhitespace(s[..|s| - |r|])
      && (r != [] ==> !IsJsWhitespace(r[0]))
  {
    if s != [] && IsJsWhitespace(s[0]) {
      TrimStartSpec(s[1..]);
      var r := TrimStart(s);
      assert s[..|s| - |r|] == [s[0]] + s[1..][..|s| - 1 - |r|];
    }
  }

  /** `TrimEnd` drops a run of white space from the back and stops at the last other character. */
  lemma {:induction false} TrimEndSpec(s: string)
    ensures var r := TrimEnd(s);
      && |r| <= |s| && r == s[..|r|]
      && AllWhitespace(s[|r|..])
      && (r != [] ==> !IsJsWhitespace(r[|r| - 1]))
  {
    if s != [] && IsJsWhitespace(s[|s| - 1]) {
      var t := s[..|s| - 1];
      TrimEndSpec(t);
      var r := TrimEnd(s);
      assert s[|r|..] == t[|r|..] + [s[|s| - 1]];
    }
  }

  /** What `trim` keeps: nothing when the input is all white space, otherwise a string that neither starts nor ends with it. */
  lemma TrimSpec(s: string)
    ensures var r := Trim(s);
      && |r| <= |s|
      && (r != [] ==> !IsJsWhitespace(r[0]) && !IsJsWhitespace(r[|r| - 1]))
      && (r == [] <==> AllWhitespace(s))
  {
    var t := TrimStart(s);
    TrimStartSpec(s);
    TrimEndSpec(t);
    var r := TrimEnd(t);
    if r != [] {
      assert r[0] == t[0];
    }
    if t == [] {
      assert s[..|s|] == s;
    } else if AllWhitespace(s) {
      assert t[0] == s[|s| - |t|];
    }
  }

  lemma TrimStartSkips(pre: string, rest: string)
    requires AllWhitespace(pre)
    requires rest == [] || !IsJsWhitespace(rest[0])
    ensures TrimStart(pre + rest) == rest
  {
    var s := pre + rest;
    TrimStartSpec(s);
    assert s[|pre|..] == rest;
  }

  lemma TrimEndSkips(rest: string, post: string)
    requires AllWhitespace(post)
    requires rest == [] || !IsJsWhitespace(rest[|rest| - 1])
    ensures TrimEnd(rest + post) == rest
  {
    var s := rest + post;
    TrimEndSpec(s);
    assert s[..|rest|] == rest;
  }

  /** Every string is some white space, a core that neither starts nor ends with white space, and more white space; `trim` returns that core. */
  lemma TrimStrips(pre: string, core: string, post: string)
    requires AllWhitespace(pre) && AllWhitespace(post)
    requires core != [] ==> !IsJsWhitespace(core[0]) && !IsJsWhitespace(core[|core| - 1])
    ensures Trim(pre + core + post) == core
  {
    if core == [] {
      assert pre + core + post == pre + post;
      assert AllWhitespace(pre + post) by {
        forall i | 0 <= i < |pre + post| ensures IsJsWhitespace((pre + post)[i]) {
          if i >= |pre| { assert (pre + post)[i] == post[i - |pre|]; }
        }
      }
      TrimSpec(pre + post);
    } else {
      assert pre + core + post == pre + (core + post);
      TrimStartSkips(pre, core + post);
      TrimEndSkips(core, post);
    }
  }

  lemma TrimIdempotent(s: string)
    ensures Trim(Trim(s)) == Trim(s)
  {
    TrimSpec(s);
    TrimStrips([], Trim(s), []);
    assert [] + Trim(s) + [] == Trim(s);
  }

  /** Trimming a string that starts with `0x` keeps the `0x` prefix: neither character is white space. */
  lemma TrimKeepsHexPrefix(s: string)
    requires "0x" <= s
    ensures "0x" <= Trim(s)
  {
    assert !IsJsWhitespace(s[0]);
    TrimStartSkips([], s);
    assert [] + s == s;
    TrimEndKeeps(s, 1);
    TrimEndSpec(s);
  }

  lemma {:induction false} TrimEndKeeps(s: string, k: nat)
    requires k < |s| && !IsJsWhitespace(s[k])
    ensures k < |TrimEnd(s)|
  {
    if s != [] && IsJsWhitespace(s[|s| - 1]) {
      TrimEndKeeps(s[..|s| - 1], k);
    }
  }

  // ---------------------------------------------------------------------------
  // Digits

  /** A digit of radix 10 or 16, as `parseInt` reads them. */
  predicate IsDigitIn(c: char, radix: nat) {
    ('0' <= c <= '9') || (radix == 16 && (('a' <= c <= 'f') || ('A' <= c <= 'F')))
  }

  function DigitValue(c: char): (v: nat)
    ensures v < 16
    ensures '0' <= c <= '9' ==> v < 10
  {
    if '0' <= c <= '9' then (c - '0') as nat
    else if 'a' <= c <= 'f' then (c - 'a') as nat + 10
    else if 'A' <= c <= 'F' then (c - 'A') as nat + 10
    else 0
  }

  ghost predicate AllDigits(s: string, radix: nat) {
    forall i :: 0 <= i < |s| ==> IsDigitIn(s[i], radix)
  }

  /** The longest prefix of `s` made of radix digits. */
  function DigitPrefix(s: string, radix: nat): (r: string)
    ensures r <= s
    ensures AllDigits(r, radix)
    ensures |r| < |s| ==> !IsDigitIn(s[|r|], radix)
  {
    if s == [] || !IsDigitIn(s[0], radix) then [] else [s[0]] + DigitPrefix(s[1..], radix)
  }

  /** The number a string of digits denotes, most significant digit first. */
  function DigitsValue(d: string, radix: nat): nat
  {
    if d == [] then 0 else DigitsValue(d[..|d| - 1], radix) * radix + DigitValue(d[|d| - 1])
  }

  // ---------------------------------------------------------------------------
  // parseInt and its inverse

  /**
   * `parseInt(s)` with no radix (section 19.2.5 of ECMA-262): skip leading
   * white space, read an optional sign, read a `0x`/`0X` prefix as radix 16,
   * then the longest run of digits; `None` is NaN (no digits at all).
   */
  function ParseInt(s: string): Option<int>
  {
    ParseSigned(TrimStart(s))
  }

  function ParseSigned(t: string): Option<int>
  {
    match ParseMagnitude(Unsigned(t))
    case None => None
    case Some(m) =>
      var v: int := m;
      Some(if IsNegative(t) then -v else v)
  }

  function ParseMagnitude(u: string): Option<nat>
  {
    var digits := DigitPrefix(Unprefixed(u), RadixOf(u));
    if digits == [] then None else Some(DigitsValue(digits, RadixOf(u)))
  }

  predicate IsNegative(t: string) { t != [] && t[0] == '-' }

  function Unsigned(t: string): string {
    if t != [] && (t[0] == '-' || t[0] == '+') then t[1..] else t
  }

  predicate HasHexPrefix(u: string) { |u| >= 2 && u[0] == '0' && (u[1] == 'x' || u[1] == 'X') }

  function RadixOf(u: string): nat { if HasHexPrefix(u) then 16 else 10 }

  function Unprefixed(u: string): string { if HasHexPrefix(u) then u[2..] else u }

  function DecimalDigit(n: nat): (c: char)
    requires n < 10
    ensures IsDigitIn(c, 10) && DigitValue(c) == n
  {
    ('0' as int + n) as char
  }

  /** The decimal numeral of a natural number, without leading zeros. */
  function NatToString(n: nat): (r: string)
    ensures r != [] && AllDigits(r, 10)
    ensures n > 0 ==> r[0] != '0'
    decreases n
  {
    if n < 10 then [DecimalDigit(n)] else NatToString(n / 10) + [DecimalDigit(n % 10)]
  }

  /** An integer as a template literal renders it: a `-` sign for negatives, then the numeral. */
  function IntToString(i: int): (r: string)
    ensures r != []
    ensures forall k :: 0 <= k < |r| ==> r[k] == '-' || IsDigitIn(r[k], 10)
  {
    if i < 0 then "-" + NatToString(-i) else NatToString(i)
  }

  lemma {:induction false} NatToStringValue(n: nat)
    ensures DigitsValue(NatToString(n), 10) == n
    decreases n
  {
    var r := NatToString(n);
    if n >= 10 {
      NatToStringValue(n / 10);
      assert r[..|r| - 1] == NatToString(n / 10);
    }
  }

  lemma {:induction false} DigitPrefixStops(d: string, tail: string, radix: nat)
    requires AllDigits(d, radix)
    requires tail == [] || !IsDigitIn(tail[0], radix)
    ensures DigitPrefix(d + tail, radix) == d
  {
    if d != [] {
      assert (d + tail)[1..] == d[1..] + tail;
      DigitPrefixStops(d[1..], tail, radix);
    } else {
      assert d + tail == tail;
    }
  }

  /**
   * `parseInt` reads back the numeral of any integer, after any leading white
   * space and before any tail that does not continue the numeral: `"3x"` is 3.
   */
  lemma ParseIntOfNumeral(ws: string, n: int, tail: string)
    requires AllWhitespace(ws)
    requires tail == [] || (!IsDigitIn(tail[0], 10) && (n == 0 ==> tail[0] != 'x' && tail[0] != 'X'))
    ensures ParseInt(ws + IntToString(n) + tail) == Some(n)
  {
    var body := IntToString(n) + tail;
    assert ws + IntToString(n) + tail == ws + body;
    assert IntToString(n)[0] == '-' || IsDigitIn(IntToString(n)[0], 10);
    TrimStartSkips(ws, body);
    SignedOfNumeral(n, tail);
  }

  lemma SignedOfNumeral(n: int, tail: string)
    requires tail == [] || (!IsDigitIn(tail[0], 10) && (n == 0 ==> tail[0] != 'x' && tail[0] != 'X'))
    ensures ParseSigned(IntToString(n) + tail) == Some(n)
  {
    var m: nat := if n < 0 then -n else n;
    var u := NatToString(m) + tail;
    MagnitudeOfNumeral(m, tail);
    if n < 0 {
      assert IntToString(n) + tail == ['-'] + u;
      MinusSign(u);
    } else {
      assert IntToString(n) + tail == u;
      assert IsDigitIn(u[0], 10);
    }
  }

  lemma MinusSign(u: string)
    ensures IsNegative(['-'] + u) && Unsigned(['-'] + u) == u
  {
    assert (['-'] + u)[1..] == u;
  }

  lemma MagnitudeOfNumeral(m: nat, tail: string)
    requires tail == [] || (!IsDigitIn(tail[0], 10) && (m == 0 ==> tail[0] != 'x' && tail[0] != 'X'))
    ensures ParseMagnitude(NatToString(m) + tail) == Some(m)
  {
    var u := NatToString(m) + tail;
    assert !HasHexPrefix(u) by {
      if m == 0 { assert NatToString(m) == "0"; assert u == ['0'] + tail; }
    }
    DigitPrefixStops(NatToString(m), tail, 10);
    NatToStringValue(m);
  }

  lemma ParseIntRoundTrip(n: int)
    ensures ParseInt(IntToString(n)) == Some(n)
  {
    var numeral := IntToString(n);
    assert numeral[0] == '-' || IsDigitIn(numeral[0], 10);
    assert [] + numeral == numeral + [] == numeral;
    TrimStartSkips([], numeral);
    SignedOfNumeral(n, []);
  }

  /** Without a radix argument a `0x` or `0X` prefix reads the digits after it as hexadecimal. */
  lemma ParseIntHex()
    ensures ParseInt("0x1A") == Some(26)
  {
    TrimStartSkips([], "0x1A");
    assert Unsigned("0x1A") == "0x1A" && Unprefixed("0x1A") == "1A" && DigitPrefix("1A", 16) == "1A";
    assert "1A"[..1] == "1" && DigitsValue("1", 16) == 1;
    assert DigitsValue("1A", 16) == 26;
  }

  /** The hexadecimal digits end at the first character that is not one. */
  lemma ParseIntHexStops()
    ensures ParseInt("0x1g") == Some(1)
  {
    TrimStartSkips([], "0x1g");
    assert Unsigned("0x1g") == "0x1g" && Unprefixed("0x1g") == "1g" && DigitPrefix("1g", 16) == "1";
  }

  /** The hexadecimal prefix comes after the blanks and the sign. */
  lemma ParseIntHexSigned()
    ensures ParseInt(" -0X10") == Some(-16)
  {
    assert " " + "-0X10" == " -0X10";
    TrimStartSkips(" ", "-0X10");
    assert Unsigned("-0X10") == "0X10" && IsNegative("-0X10");
    assert Unprefixed("0X10") == "10" && DigitPrefix("10", 16) == "10";
    assert "10"[..1] == "1" && DigitsValue("1", 16) == 1;
    assert DigitsValue("10", 16) == 16;
  }

  /** The prefix with no digit after it is NaN, not zero. */
  lemma ParseIntHexAlone()
    ensures ParseInt("0x") == None
  {
    TrimStartSkips([], "0x");
    assert Unsigned("0x") == "0x" && Unprefixed("0x") == "" && DigitPrefix("", 16) == "";
  }

  /** No digit after the white space, sign and radix prefix: `parseInt` yields NaN. */
  lemma ParseIntNaN(ws: string, sign: string, rest: string)
    requires AllWhitespace(ws)
    requires sign == "" || sign == "-" || sign == "+"
    requires rest == [] || (!IsDigitIn(rest[0], 10) && !IsJsWhitespace(rest[0]) && rest[0] != '-' && rest[0] != '+')
    ensures ParseInt(ws + sign + rest) == None
  {
    var body := sign + rest;
    assert ws + sign + rest == ws + body;
    TrimStartSkips(ws, body);
    assert Unsigned(body) == rest;
  }
}
