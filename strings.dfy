/** String helpers standing in for the JavaScript string methods the
    application calls: includes, startsWith, toLowerCase, replace (first
    occurrence) and number-to-decimal conversion in template literals. */
module Strings {

  /** `s.startsWith(p)` */
  predicate StartsWith(s: string, p: string)
  {
    |p| <= |s| && s[..|p|] == p
  }

  /** `s.includes(sub)`: some window of `s` equals `sub`. */
  predicate Contains(s: string, sub: string)
  {
    StartsWith(s, sub) || (s != [] && Contains(s[1..], sub))
  }

  /** Lower-casing of one character; only ASCII letters are mapped. */
  function LowerChar(c: char): (d: char)
    ensures 'A' <= c <= 'Z' ==> d as int == c as int + 32
    ensures !('A' <= c <= 'Z') ==> d == c
    ensures !('A' <= d <= 'Z')
  {
    if 'A' <= c <= 'Z' then (c as int + 32) as char else c
  }

  /** `s.toLowerCase()` restricted to ASCII. */
  function ToLower(s: string): (r: string)
    ensures |r| == |s|
    ensures forall i :: 0 <= i < |s| ==> r[i] == LowerChar(s[i])
  {
    if s == [] then [] else [LowerChar(s[0])] + ToLower(s[1..])
  }

  /** A string that lowers `s` character by character is `ToLower(s)`. */
  lemma ToLowerChars(s: string, r: string)
    requires |r| == |s| && forall i :: 0 <= i < |s| ==> r[i] == LowerChar(s[i])
    ensures ToLower(s) == r
  {
  }

  /** Lower-casing twice is lower-casing once. */
  lemma ToLowerIdempotent(s: string)
    ensures ToLower(ToLower(s)) == ToLower(s)
  {
    assert forall i :: 0 <= i < |s| ==> LowerChar(LowerChar(s[i])) == LowerChar(s[i]);
  }

  /** Index of the first `c` in `s`, or `|s|` when there is none. */
  function FirstIndex(s: string, c: char): (i: nat)
    ensures i <= |s|
    ensures i < |s| ==> s[i] == c
    ensures c !in s[..i]
  {
    if s == [] || s[0] == c then 0 else 1 + FirstIndex(s[1..], c)
  }

  /** The search for `c` runs past a prefix that does not hold it. */
  lemma {:induction false} FirstIndexSkips(a: string, b: string, c: char)
    requires c !in a
    ensures FirstIndex(a + b, c) == |a| + FirstIndex(b, c)
  {
    if a == [] {
      assert a + b == b;
    } else {
      assert (a + b)[1..] == a[1..] + b;
      FirstIndexSkips(a[1..], b, c);
    }
  }

  /** `s.replace(from, to)` with a one-character pattern: only the FIRST
      occurrence is replaced. */
  function ReplaceFirst(s: string, from: char, to: string): string
  {
    var i := FirstIndex(s, from);
    if i == |s| then s else s[..i] + to + s[i + 1..]
  }

  function DigitChar(d: nat): (c: char)
    requires d < 10
    ensures '0' <= c <= '9'
  {
    ('0' as int + d) as char
  }

  /** Decimal form of a natural number, as a template literal prints it. */
  function NatToString(n: nat): (s: string)
    ensures |s| >= 1
    ensures forall i :: 0 <= i < |s| ==> '0' <= s[i] <= '9'
  {
    if n < 10 then [DigitChar(n)] else NatToString(n / 10) + [DigitChar(n % 10)]
  }

  /** Distinct numbers print differently, so ids built from a counter are
      distinct. */
  lemma {:induction false} NatToStringInjective(m: nat, n: nat)
    requires NatToString(m) == NatToString(n)
    ensures m == n
  {
    var sm, sn := NatToString(m), NatToString(n);
    if m >= 10 && n >= 10 {
      assert sm[..|sm| - 1] == NatToString(m / 10);
      assert sn[..|sn| - 1] == NatToString(n / 10);
      NatToStringInjective(m / 10, n / 10);
      assert DigitChar(m % 10) == sm[|sm| - 1] == sn[|sn| - 1] == DigitChar(n % 10);
    }
  }

  /** Prefixing a common tag keeps the injectivity: `tag${m}` == `tag${n}`
      only when m == n. */
  lemma TaggedNatInjective(tag: string, m: nat, n: nat)
    requires tag + NatToString(m) == tag + NatToString(n)
    ensures m == n
  {
    assert NatToString(m) == (tag + NatToString(m))[|tag|..];
    assert NatToString(n) == (tag + NatToString(n))[|tag|..];
    NatToStringInjective(m, n);
  }
}
