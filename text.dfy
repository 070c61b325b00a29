/**
 * String primitives the services rely on: ASCII lower-casing (`toLowerCase`),
 * the wallet-address pattern `^0x[a-fA-F0-9]{40}$`, substring search
 * (`includes`), `substring`/`padEnd`, decimal rendering of numbers
 * (`toString`) and the character classes used by the schema patterns.
 */
module Text {

  /** One character lower-cased; only A-Z change. */
  function Lower(c: char): char {
    if 'A' <= c <= 'Z' then (c as int + 32) as char else c
  }

  function ToLower(s: string): (r: string)
    ensures |r| == |s|
    ensures forall i :: 0 <= i < |s| ==> r[i] == Lower(s[i])
  {
    if s == [] then [] else [Lower(s[0])] + ToLower(s[1..])
  }

  /** A string that lower-casing leaves alone. */
  predicate IsLowerCase(s: string) {
    ToLower(s) == s
  }

  /** The comparison `a.toLowerCase() === b.toLowerCase()`. */
  predicate EqualsIgnoreCase(a: string, b: string) {
    ToLower(a) == ToLower(b)
  }

  lemma ToLowerIsLowerCase(s: string)
    ensures IsLowerCase(ToLower(s))
  {
    var t := ToLower(s);
    assert forall i :: 0 <= i < |t| ==> ToLower(t)[i] == t[i];
  }

  predicate IsHexDigit(c: char) {
    '0' <= c <= '9' || 'a' <= c <= 'f' || 'A' <= c <= 'F'
  }

  /** The pattern `^0x[a-fA-F0-9]{40}$`. */
  predicate IsWalletAddress(s: string) {
    |s| == 42 && s[0] == '0' && s[1] == 'x' &&
    forall i :: 2 <= i < 42 ==> IsHexDigit(s[i])
  }

  /** Lower-casing keeps a string inside the wallet-address pattern. */
  lemma LowerWalletAddress(s: string)
    requires IsWalletAddress(s)
    ensures IsWalletAddress(ToLower(s)) && |ToLower(s)| == 42
  {
    var t := ToLower(s);
    forall i | 2 <= i < 42 ensures IsHexDigit(t[i]) {
      assert t[i] == Lower(s[i]);
    }
  }

  /** `s` begins with `prefix`. */
  predicate StartsWith(s: string, prefix: string) {
    |prefix| <= |s| && s[..|prefix|] == prefix
  }

  /** `s.includes(sub)`. */
  predicate Contains(s: string, sub: string)
    decreases |s|
  {
    StartsWith(s, sub) || (|s| > 0 && Contains(s[1..], sub))
  }

  /** `sub` occurs in `s` starting at index `i`. */
  predicate OccursAt(s: string, sub: string, i: int) {
    0 <= i <= |s| - |sub| && s[i..i + |sub|] == sub
  }

  /** `Contains` agrees with the positional definition of a substring. */
  lemma {:induction false} ContainsAt(s: string, sub: string)
    ensures Contains(s, sub) <==> exists i :: OccursAt(s, sub, i)
  {
    if StartsWith(s, sub) {
      assert OccursAt(s, sub, 0);
    } else if |s| > 0 {
      ContainsAt(s[1..], sub);
      if Contains(s[1..], sub) {
        var j :| OccursAt(s[1..], sub, j);
        assert s[j + 1..j + 1 + |sub|] == s[1..][j..j + |sub|];
        assert OccursAt(s, sub, j + 1);
      }
      if i :| OccursAt(s, sub, i) {
        assert i != 0;
        assert s[1..][i - 1..i - 1 + |sub|] == s[i..i + |sub|];
        assert OccursAt(s[1..], sub, i - 1);
      }
    }
  }

  /** `s.substring(0, n)` for `n >= 0`. */
  function Prefix(s: string, n: nat): (r: string)
  {
    if |s| <= n then s else s[..n]
  }

  /** `s.padEnd(n, [c])`. */
  function PadEnd(s: string, n: nat, c: char): (r: string)
  {
    if |s| >= n then s else s + seq(n - |s|, _ => c)
  }

  function DigitChar(d: nat): char
    requires d < 10
  {
    ('0' as int + d) as char
  }

  /** Decimal rendering of a natural number, as `Number.prototype.toString()` gives it. */
  function NatToString(n: nat): (r: string)
    decreases n
  {
    if n < 10 then [DigitChar(n)] else NatToString(n / 10) + [DigitChar(n % 10)]
  }

  /** Decimal rendering of an integer, with a leading '-' when negative. */
  function IntToString(i: int): (r: string)
  {
    if i < 0 then "-" + NatToString(-i) else NatToString(i)
  }

  /** Reads back a string of decimal digits. */
  function ParseDigits(s: string): int
  {
    if s == [] then 0 else 10 * ParseDigits(s[..|s| - 1]) + (s[|s| - 1] as int - '0' as int)
  }

  lemma {:induction false} NatToStringRoundTrip(n: nat)
    ensures ParseDigits(NatToString(n)) == n
    ensures |NatToString(n)| > 0 && '0' <= NatToString(n)[0] <= '9'
    decreases n
  {
    if n >= 10 {
      NatToStringRoundTrip(n / 10);
      var s := NatToString(n);
      assert s[..|s| - 1] == NatToString(n / 10);
    }
  }

  /** Distinct integers have distinct renderings, so distinct relay token ids give distinct record ids. */
  lemma IntToStringInjective(a: int, b: int)
    requires IntToString(a) == IntToString(b)
    ensures a == b
  {
    NatToStringRoundTrip(if a < 0 then -a else a);
    NatToStringRoundTrip(if b < 0 then -b else b);
    if a < 0 && b < 0 {
      assert NatToString(-a) == IntToString(a)[1..];
    }
  }

  /** The characters JavaScript's `\s` class matches. */
  predicate IsWhitespace(c: char) {
    c == ' ' || c == '\t' || c == '\n' || c == '\r' || c == '\U{000B}' || c == '\U{000C}' ||
    c == '\U{00A0}' || c == '\U{1680}' || ('\U{2000}' <= c <= '\U{200A}') ||
    c == '\U{2028}' || c == '\U{2029}' || c == '\U{202F}' || c == '\U{205F}' ||
    c == '\U{3000}' || c == '\U{FEFF}'
  }

  /** The pattern `^\S+@\S+\.\S+$`. */
  predicate IsEmailShape(s: string) {
    (forall i :: 0 <= i < |s| ==> !IsWhitespace(s[i])) &&
    exists a, d :: 0 < a && a + 2 <= d && d + 2 <= |s| && s[a] == '@' && s[d] == '.'
  }

  /** The pattern `^[a-zA-Z0-9]+$`. */
  predicate IsAlphanumeric(s: string) {
    |s| > 0 &&
    forall i :: 0 <= i < |s| ==> ('a' <= s[i] <= 'z' || 'A' <= s[i] <= 'Z' || '0' <= s[i] <= '9')
  }
}
