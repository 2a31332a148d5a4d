/**
 * Decimal rendering of integers (what a JavaScript template literal prints for an integer),
 * JavaScript's `parseInt(string)` without a radix argument, on integers only, and `trim`.
 */
module Numerals {
  import opened Common

  /** JavaScript's white-space and line-terminator code points (what `trim` and `parseInt` skip). */
  predicate IsJsSpace(c: char) {
    || ('\t' <= c <= '\r') || c == ' ' || c == '\U{00A0}' || c == '\U{1680}' || ('\U{2000}' <= c <= '\U{200A}')
    || ('\U{2028}' <= c <= '\U{2029}') || c == '\U{202F}' || c == '\U{205F}' || c == '\U{3000}' || c == '\U{FEFF}'
  }

  predicate IsDigit(c: char) {
    '0' <= c <= '9'
  }

  /** A digit in base 10, or in base 16 (either letter case). */
  predicate IsRadixDigit(c: char, radix: nat) {
    IsDigit(c) || (radix == 16 && ('a' <= c <= 'f' || 'A' <= c <= 'F'))
  }

  function RadixDigitValue(c: char, radix: nat): (d: nat)
    requires radix == 10 || radix == 16
    requires IsRadixDigit(c, radix)
    ensures d < radix
  {
    if IsDigit(c) then c as int - '0' as int
    else if 'a' <= c <= 'f' then c as int - 'a' as int + 10
    else c as int - 'A' as int + 10
  }

  predicate AllRadixDigits(s: string, radix: nat) {
    forall i :: 0 <= i < |s| ==> IsRadixDigit(s[i], radix)
  }

  function DigitChar(d: nat): (c: char)
    requires d < 10
    ensures IsDigit(c) && RadixDigitValue(c, 10) == d
  {
    ('0' as int + d) as char
  }

  /** The decimal digits of `n`, most significant first, without leading zeros. */
  function NatToString(n: nat): (s: string)
    ensures 1 <= |s| && AllRadixDigits(s, 10)
    ensures |s| > 1 ==> s[0] != '0'
    decreases n
  {
    if n < 10 then [DigitChar(n)] else NatToString(n / 10) + [DigitChar(n % 10)]
  }

  /** What `${n}` produces for an integer `n`. */
  function IntToString(n: int): (s: string)
    ensures |s| >= 1
    ensures s[0] == '-' <==> n < 0
  {
    if n < 0 then "-" + NatToString(-n) else NatToString(n)
  }

  /** The value of a string of digits read in the given radix, most significant digit first. */
  function RadixValue(s: string, radix: nat): nat
    requires radix == 10 || radix == 16
    requires AllRadixDigits(s, radix)
  {
    if s == [] then 0 else RadixValue(s[..|s| - 1], radix) * radix + RadixDigitValue(s[|s| - 1], radix)
  }

  /** The length of the longest prefix of `s` made of digits of the radix. */
  function DigitPrefixLength(s: string, radix: nat): (k: nat)
    ensures k <= |s|
    ensures AllRadixDigits(s[..k], radix)
    ensures k < |s| ==> !IsRadixDigit(s[k], radix)
  {
    if s == [] || !IsRadixDigit(s[0], radix) then 0
    else 1 + DigitPrefixLength(s[1..], radix)
  }

  /** Drops the leading white space. */
  function SkipSpaces(s: string): (t: string)
    ensures |t| <= |s|
    ensures t == [] || !IsJsSpace(t[0])
  {
    if s != [] && IsJsSpace(s[0]) then SkipSpaces(s[1..]) else s
  }

  /** Drops the trailing white space. */
  function DropTrailingSpaces(s: string): (t: string)
    ensures |t| <= |s| && t == s[..|t|]
    ensures t == [] || !IsJsSpace(t[|t| - 1])
  {
    if s != [] && IsJsSpace(s[|s| - 1]) then DropTrailingSpaces(s[..|s| - 1]) else s
  }

  /** `SkipSpaces` keeps a suffix and drops only white space. */
  lemma {:induction false} SkipsOnlySpaces(s: string)
    ensures SkipSpaces(s) == s[|s| - |SkipSpaces(s)|..]
    ensures forall i :: 0 <= i < |s| - |SkipSpaces(s)| ==> IsJsSpace(s[i])
    decreases |s|
  {
    if s != [] && IsJsSpace(s[0]) {
      SkipsOnlySpaces(s[1..]);
    }
  }

  /** What `DropTrailingSpaces` drops is white space. */
  lemma {:induction false} DropsOnlySpaces(s: string)
    ensures forall i :: |DropTrailingSpaces(s)| <= i < |s| ==> IsJsSpace(s[i])
    decreases |s|
  {
    if s != [] && IsJsSpace(s[|s| - 1]) {
      DropsOnlySpaces(s[..|s| - 1]);
    }
  }

  /** JavaScript's `String.prototype.trim`: white space is dropped at both ends. */
  function Trim(s: string): (t: string)
    ensures |t| <= |s|
    ensures t == [] || (!IsJsSpace(t[0]) && !IsJsSpace(t[|t| - 1]))
  {
    DropTrailingSpaces(SkipSpaces(s))
  }

  /** A string trims to nothing exactly when it is all white space (or empty). */
  lemma TrimEmpty(s: string)
    ensures Trim(s) == [] <==> forall i :: 0 <= i < |s| ==> IsJsSpace(s[i])
  {
    var u := SkipSpaces(s);
    var lead := |s| - |u|;
    SkipsOnlySpaces(s);
    DropsOnlySpaces(u);
    if Trim(s) == [] {
      assert |u| == 0;
    } else {
      assert u != [] && u[0] == s[lead];
    }
  }

  /** The trimmed text is a middle slice of the text, and only white space lies outside it. */
  lemma TrimMiddle(s: string)
    ensures exists a, b ::
      && 0 <= a <= b <= |s| && Trim(s) == s[a..b]
      && (forall i :: 0 <= i < a ==> IsJsSpace(s[i]))
      && (forall i :: b <= i < |s| ==> IsJsSpace(s[i]))
  {
    var u := SkipSpaces(s);
    var t := Trim(s);
    var a := |s| - |u|;
    var b := a + |t|;
    SkipsOnlySpaces(s);
    DropsOnlySpaces(u);
    assert t == u[..|t|];
    assert t == s[a..b];
    forall i | b <= i < |s|
      ensures IsJsSpace(s[i])
    {
      assert s[i] == u[i - a];
    }
  }

  /** Trimming twice is trimming once. */
  lemma TrimIdempotent(s: string)
    ensures Trim(Trim(s)) == Trim(s)
  {
    var t := Trim(s);
    assert SkipSpaces(t) == t;
    assert DropTrailingSpaces(t) == t;
  }

  /** The digits after the sign: a `0x`/`0X` prefix selects base 16; `None` when no digit follows. */
  function ParseMagnitude(u: string): (r: Option<nat>)
  {
    var hex := |u| >= 2 && u[0] == '0' && (u[1] == 'x' || u[1] == 'X');
    var radix := if hex then 16 else 10;
    var body := if hex then u[2..] else u;
    var k := DigitPrefixLength(body, radix);
    if k == 0 then None else Some(RadixValue(body[..k], radix))
  }

  /**
   * The mathematical value JavaScript's `parseInt(s)` reads, before it is rounded to a double:
   * leading white space is skipped, an optional sign is read, a `0x`/`0X`
   * prefix switches to base 16, and the longest run of digits that follows is the value; `None` is `NaN`
   * (no digit at all). Anything after the digits is ignored.
   */
  function ParseInt(s: string): (r: Option<int>)
  {
    var t := SkipSpaces(s);
    if |t| > 0 && t[0] == '-' then WithSign(ParseMagnitude(t[1..]), true)
    else if |t| > 0 && t[0] == '+' then WithSign(ParseMagnitude(t[1..]), false)
    else WithSign(ParseMagnitude(t), false)
  }

  function WithSign(m: Option<nat>, negative: bool): (r: Option<int>)
  {
    match m
    case None => None
    case Some(v) => var i: int := v; if negative then Some(-i) else Some(i)
  }

  /** 2^53: every integer of smaller magnitude is a double. */
  const TwoTo53: int := 0x20000000000000

  /** 2^1024: a magnitude that rounds to it or beyond is Infinity. */
  const TwoTo1024: int := 0x10000000000000000000000000000000000000000000000000000000000000000000000000000000000000000000000000000000000000000000000000000000000000000000000000000000000000000000000000000000000000000000000000000000000000000000000000000000000000000000000000000000000000000

  /** The spacing of the doubles around the magnitude `m`: 1 below 2^53, doubling with each binade above. */
  function Ulp(m: nat): (u: nat)
    ensures u >= 1
    decreases m
  {
    if m < TwoTo53 then 1 else 2 * Ulp(m / 2)
  }

  /** `m` rounded to a multiple of its spacing, to the nearer one and on a tie to the even one. */
  function RoundMagnitude(m: nat): nat {
    var u := Ulp(m);
    var q := m / u;
    if 2 * (m % u) < u || (2 * (m % u) == u && q % 2 == 0) then q * u else (q + 1) * u
  }

  /** The rounded magnitude is a nearest multiple of the spacing: at most half a spacing away. */
  lemma RoundNearest(m: nat)
    ensures 2 * (RoundMagnitude(m) - m) <= Ulp(m) && 2 * (m - RoundMagnitude(m)) <= Ulp(m)
  {
    var u := Ulp(m);
    var q := m / u;
    var r := m % u;
    var low := q * u;
    assert m == low + r && 0 <= r < u;
    assert (q + 1) * u == low + u;
    assert RoundMagnitude(m) == if 2 * r < u || (2 * r == u && q % 2 == 0) then low else low + u;
  }

  /** The double nearest to the integer `v`, ties to even, as a JavaScript number; `None` is plus or minus Infinity. */
  function ToDouble(v: int): (d: Option<int>)
    ensures -TwoTo53 < v < TwoTo53 ==> d == Some(v)
  {
    var m: nat := if v < 0 then -v else v;
    var r: int := RoundMagnitude(m);
    if r >= TwoTo1024 then None else Some(if v < 0 then -r else r)
  }

  /** What `parseInt(s)` returns: the value it reads, rounded to a double; `None` is `NaN` or Infinity. */
  function JsParseInt(s: string): Option<int> {
    match ParseInt(s)
    case None => None
    case Some(v) => ToDouble(v)
  }

  lemma {:induction false} NatToStringValue(n: nat)
    ensures RadixValue(NatToString(n), 10) == n
    decreases n
  {
    var s := NatToString(n);
    if n >= 10 {
      NatToStringValue(n / 10);
      assert s[..|s| - 1] == NatToString(n / 10);
    }
  }

  lemma {:induction false} DigitRunLength(s: string, rest: string)
    requires AllRadixDigits(s, 10)
    requires rest == [] || !IsDigit(rest[0])
    ensures DigitPrefixLength(s + rest, 10) == |s|
    decreases |s|
  {
    if s == [] {
      assert s + rest == rest;
    } else {
      assert (s + rest)[1..] == s[1..] + rest;
      DigitRunLength(s[1..], rest);
    }
  }

  lemma ParseMagnitudeOfDigits(m: nat, rest: string)
    requires rest == [] || !(IsDigit(rest[0]) || rest[0] == 'x' || rest[0] == 'X')
    ensures ParseMagnitude(NatToString(m) + rest) == Some(m)
  {
    var digits := NatToString(m);
    var u := digits + rest;
    assert !(|u| >= 2 && u[0] == '0' && (u[1] == 'x' || u[1] == 'X')) by {
      if |digits| == 1 && |u| >= 2 { assert u[1] == rest[0]; }
    }
    DigitRunLength(digits, rest);
    assert u[..|digits|] == digits;
    NatToStringValue(m);
  }

  /**
   * Reading back what `IntToString` writes gives the number again, even when other text that does not
   * continue the number follows it (`parseInt("12abc") == 12`).
   */
  lemma ParseIntOfIntToString(n: int, rest: string)
    requires rest == [] || !(IsDigit(rest[0]) || rest[0] == 'x' || rest[0] == 'X')
    ensures ParseInt(IntToString(n) + rest) == Some(n)
  {
    if n < 0 {
      ParseNegative(-n, rest);
    } else {
      ParseNonNegative(n, rest);
    }
  }

  /** Text that starts with neither white space nor a sign is read as a magnitude. */
  lemma ParseUnsigned(s: string)
    requires s != [] && !IsJsSpace(s[0]) && s[0] != '-' && s[0] != '+'
    ensures ParseInt(s) == WithSign(ParseMagnitude(s), false)
  {
    assert SkipSpaces(s) == s;
  }

  /** A minus sign followed by text is read as the negated magnitude of that text. */
  lemma ParseMinus(a: string, rest: string)
    ensures ParseInt("-" + a + rest) == WithSign(ParseMagnitude(a + rest), true)
  {
    var s := "-" + a + rest;
    assert s[0] == '-' && s[1..] == a + rest;
    assert SkipSpaces(s) == s;
  }

  lemma ParseNegative(m: nat, rest: string)
    requires m > 0
    requires rest == [] || !(IsDigit(rest[0]) || rest[0] == 'x' || rest[0] == 'X')
    ensures ParseInt("-" + NatToString(m) + rest) == Some(0 - m)
  {
    ParseMinus(NatToString(m), rest);
    ParseMagnitudeOfDigits(m, rest);
    assert WithSign(Some(m), true) == Some(0 - m);
  }

  lemma ParseNonNegative(m: nat, rest: string)
    requires rest == [] || !(IsDigit(rest[0]) || rest[0] == 'x' || rest[0] == 'X')
    ensures ParseInt(NatToString(m) + rest) == Some(m)
  {
    var s := NatToString(m) + rest;
    assert IsDigit(s[0]);
    ParseUnsigned(s);
    ParseMagnitudeOfDigits(m, rest);
  }
}
