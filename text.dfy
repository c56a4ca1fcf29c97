/**
 * The string operations the pipeline relies on: Python's `str.strip`,
 * `str.lstrip`, `str.upper`, `str(int)` and `", ".join`, restricted to ASCII.
 * Whitespace is the ASCII part of what both `str.strip` and the regular
 * expression class `\s` accept.
 */
module Text {

  /** Tab, newline, vertical tab, form feed, carriage return, the four separators 0x1C-0x1F, and space. */
  predicate IsSpace(c: char) {
    '\t' <= c <= '\r' || '\U{001C}' <= c <= '\U{001F}' || c == ' '
  }

  predicate IsDigit(c: char) {
    '0' <= c <= '9'
  }

  predicate IsLetter(c: char) {
    'a' <= c <= 'z' || 'A' <= c <= 'Z'
  }

  predicate IsBlank(s: string) {
    forall i :: 0 <= i < |s| ==> IsSpace(s[i])
  }

  predicate AllDigits(s: string) {
    forall i :: 0 <= i < |s| ==> IsDigit(s[i])
  }

  predicate AllLetters(s: string) {
    forall i :: 0 <= i < |s| ==> IsLetter(s[i])
  }

  predicate IsPrefix(p: string, s: string) {
    |p| <= |s| && s[..|p|] == p
  }

  predicate IsSuffix(t: string, s: string) {
    |t| <= |s| && s[|s| - |t|..] == t
  }

  /** Neither starts nor ends with whitespace: a fixed point of `strip`. */
  predicate IsStripped(s: string) {
    s == [] || (!IsSpace(s[0]) && !IsSpace(s[|s| - 1]))
  }

  function Min(a: int, b: int): int {
    if a <= b then a else b
  }

  /** The first index at or after `i` that holds no whitespace, or `|s|`. */
  function SkipSpaces(s: string, i: nat): (k: nat)
    requires i <= |s|
    ensures i <= k <= |s|
    ensures forall j :: i <= j < k ==> IsSpace(s[j])
    ensures k < |s| ==> !IsSpace(s[k])
    decreases |s| - i
  {
    if i == |s| || !IsSpace(s[i]) then i else SkipSpaces(s, i + 1)
  }

  /** The end of `s[..j]` once its trailing whitespace is dropped. */
  function TrimEnd(s: string, j: nat): (k: nat)
    requires j <= |s|
    ensures k <= j
    ensures forall i :: k <= i < j ==> IsSpace(s[i])
    ensures k > 0 ==> !IsSpace(s[k - 1])
  {
    if j == 0 || !IsSpace(s[j - 1]) then j else TrimEnd(s, j - 1)
  }

  /** Python's `s.lstrip()`. */
  function LStrip(s: string): string {
    s[SkipSpaces(s, 0)..]
  }

  /** `lstrip` drops exactly the leading whitespace. */
  lemma LStripFacts(s: string)
    ensures var r := LStrip(s);
      && IsSuffix(r, s) && IsBlank(s[..|s| - |r|]) && (r == [] || !IsSpace(r[0]))
  {
    var k := SkipSpaces(s, 0);
    assert s[..|s| - |s[k..]|] == s[..k];
  }

  /** Python's `s.strip()`. */
  function Strip(s: string): string {
    var a := SkipSpaces(s, 0);
    if a == |s| then "" else s[a..TrimEnd(s, |s|)]
  }

  /** `r` is `s` with some whitespace removed at its start and at its end, and nothing else removed. */
  predicate Trims(s: string, r: string) {
    exists a :: 0 <= a && a + |r| <= |s| && s[a..a + |r|] == r && IsBlank(s[..a]) && IsBlank(s[a + |r|..])
  }

  /** `strip` leaves no whitespace at either end, and nothing exactly when `s` is blank. */
  lemma StripFacts(s: string)
    ensures var r := Strip(s);
      && IsStripped(r) && (r == [] <==> IsBlank(s)) && |r| <= |s|
      && forall c :: c in r ==> c in s
  {
  }

  /** `strip` keeps the text of `s` and removes only whitespace, at either end. */
  lemma StripTrims(s: string)
    ensures Trims(s, Strip(s))
  {
    var r := Strip(s);
    var a := SkipSpaces(s, 0);
    if a == |s| {
      assert s[..a] == s;
      assert 0 + |r| <= |s| && s[0..0 + |r|] == r && IsBlank(s[..0]) && IsBlank(s[0 + |r|..]);
    } else {
      var z := TrimEnd(s, |s|);
      assert r == s[a..z];
      assert a + |r| == z;
      assert IsBlank(s[..a]) && IsBlank(s[z..]);
      assert a + |r| <= |s| && s[a..a + |r|] == r && IsBlank(s[..a]) && IsBlank(s[a + |r|..]);
    }
  }

  /** The first non-whitespace character after a blank prefix is where `SkipSpaces` stops. */
  lemma SkipSpacesAt(s: string, a: nat)
    requires a < |s| && IsBlank(s[..a]) && !IsSpace(s[a])
    ensures SkipSpaces(s, 0) == a
  {
    assert forall j :: 0 <= j < a ==> s[j] == s[..a][j];
  }

  /** The last non-whitespace character before a blank suffix is where `TrimEnd` stops. */
  lemma TrimEndAt(s: string, z: nat)
    requires 0 < z <= |s| && IsBlank(s[z..]) && !IsSpace(s[z - 1])
    ensures TrimEnd(s, |s|) == z
  {
    assert forall j :: z <= j < |s| ==> s[j] == s[z..][j - z];
  }

  /** `strip` is the only way to trim `s` that leaves no whitespace at either end. */
  lemma StripUnique(s: string, r: string)
    requires Trims(s, r) && IsStripped(r) && (r == [] <==> IsBlank(s))
    ensures r == Strip(s)
  {
    var a :| 0 <= a && a + |r| <= |s| && s[a..a + |r|] == r && IsBlank(s[..a]) && IsBlank(s[a + |r|..]);
    if r != [] {
      assert s[a] == r[0] && s[a + |r| - 1] == r[|r| - 1];
      SkipSpacesAt(s, a);
      TrimEndAt(s, a + |r|);
    }
  }

  /** A string already stripped is left as it is. */
  lemma StripStripped(s: string)
    requires IsStripped(s)
    ensures Strip(s) == s
  {
    if s != [] {
      assert SkipSpaces(s, 0) == 0;
      assert TrimEnd(s, |s|) == |s|;
    }
  }

  /** Stripping a non-blank tail `s[m..]` of `s` gives a tail of `s` stripped. */
  lemma StripOfTail(s: string, m: nat)
    requires m <= |s|
    requires !IsBlank(s[m..])
    ensures IsSuffix(Strip(s[m..]), Strip(s))
  {
    var t := s[m..];
    var a, at := SkipSpaces(s, 0), SkipSpaces(t, 0);
    var z, zt := TrimEnd(s, |s|), TrimEnd(t, |t|);
    assert at < |t|;
    assert t[at] == s[m + at];
    assert a <= m + at;
    assert t[zt - 1] == s[m + zt - 1];
    assert z == m + zt;
    assert Strip(t) == t[at..zt] == s[m + at..z];
    assert Strip(s) == s[a..z];
    assert s[a..z][m + at - a..] == s[m + at..z];
  }

  function UpperChar(c: char): char {
    if 'a' <= c <= 'z' then (c as int - 32) as char else c
  }

  /** Python's `s.upper()` on ASCII letters. */
  function Upper(s: string): (r: string)
    ensures |r| == |s|
    ensures forall i :: 0 <= i < |s| ==> r[i] == UpperChar(s[i])
  {
    seq(|s|, i requires 0 <= i < |s| => UpperChar(s[i]))
  }

  function DigitChar(d: nat): (c: char)
    requires d < 10
    ensures IsDigit(c)
  {
    ('0' as int + d) as char
  }

  function DigitValue(c: char): (d: nat)
    requires IsDigit(c)
    ensures d < 10 && DigitChar(d) == c
  {
    c as int - '0' as int
  }

  /** Python's `str(n)` for a non-negative integer: decimal, no leading zero. */
  function NatToString(n: nat): (r: string)
    ensures |r| >= 1 && AllDigits(r)
    ensures |r| > 1 ==> r[0] != '0'
  {
    if n < 10 then [DigitChar(n)] else NatToString(n / 10) + [DigitChar(n % 10)]
  }

  /** The value of a string of decimal digits. */
  function ParseNat(s: string): nat
    requires AllDigits(s)
  {
    if s == [] then 0 else ParseNat(s[..|s| - 1]) * 10 + DigitValue(s[|s| - 1])
  }

  lemma {:induction false} ParseNatToString(n: nat)
    ensures ParseNat(NatToString(n)) == n
  {
    if n >= 10 {
      var s := NatToString(n / 10);
      assert (s + [DigitChar(n % 10)])[..|s|] == s;
      ParseNatToString(n / 10);
    }
  }

  /** Distinct numbers have distinct decimal spellings. */
  lemma NatToStringInjective(a: nat, b: nat)
    requires NatToString(a) == NatToString(b)
    ensures a == b
  {
    ParseNatToString(a);
    ParseNatToString(b);
  }

  /** Python's `str(i)` for any integer. */
  function IntToString(i: int): string {
    if i < 0 then "-" + NatToString(-i) else NatToString(i)
  }

  /** Python's `sep.join(xs)`. */
  function Join(sep: string, xs: seq<string>): string {
    if |xs| == 0 then "" else if |xs| == 1 then xs[0] else xs[0] + sep + Join(sep, xs[1..])
  }
}
