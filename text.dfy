/** The few string operations of Python the chart code relies on. */
module Text {

  /** `c.lower()` for one ASCII character; other characters are left alone. */
  function LowerChar(c: char): char {
    if 'A' <= c <= 'Z' then (c as int + 32) as char else c
  }

  /** `s.lower()`, restricted to ASCII letters. */
  function Lower(s: string): string {
    seq(|s|, i requires 0 <= i < |s| => LowerChar(s[i]))
  }

  predicate IsPrefix(p: string, s: string) {
    |p| <= |s| && s[..|p|] == p
  }

  predicate EndsWith(s: string, suffix: string) {
    |suffix| <= |s| && s[|s| - |suffix|..] == suffix
  }

  lemma PrefixOfConcat(a: string, b: string)
    ensures IsPrefix(a, a + b)
  {
    assert (a + b)[..|a|] == a;
  }

  lemma SuffixOfConcat(a: string, b: string)
    ensures EndsWith(a + b, b)
  {
    assert (a + b)[|a|..] == b;
  }

  /** A string ending in `w` ends in the last two characters of `w`. */
  lemma EndsWithLastTwo(s: string, w: string)
    requires EndsWith(s, w) && |w| >= 2
    ensures s[|s| - 1] == w[|w| - 1] && s[|s| - 2] == w[|w| - 2]
  {
    assert s[|s| - |w|..][|w| - 1] == s[|s| - 1];
    assert s[|s| - |w|..][|w| - 2] == s[|s| - 2];
  }

  lemma EndsWithTransitive(s: string, t: string, w: string)
    requires EndsWith(s, t) && EndsWith(t, w)
    ensures EndsWith(s, w)
  {
    assert s[|s| - |w|..] == s[|s| - |t|..][|t| - |w|..];
  }

  /** `t` occurs in `s` starting at position `k`. */
  predicate OccursAt(s: string, t: string, k: nat) {
    k + |t| <= |s| && s[k..k + |t|] == t
  }

  /** Python's substring test `t in s`. */
  function Contains(s: string, t: string): (b: bool)
    ensures b <==> exists k: nat :: OccursAt(s, t, k)
    decreases |s|
  {
    if IsPrefix(t, s) then
      assert OccursAt(s, t, 0);
      true
    else if |s| == 0 then
      false
    else
      var b := Contains(s[1..], t);
      assert forall k: nat :: OccursAt(s[1..], t, k) ==> OccursAt(s, t, k + 1) by {
        forall k: nat | OccursAt(s[1..], t, k) ensures OccursAt(s, t, k + 1) {
          assert s[k + 1..k + 1 + |t|] == s[1..][k..k + |t|];
        }
      }
      assert forall k: nat :: OccursAt(s, t, k) && k > 0 ==> OccursAt(s[1..], t, k - 1) by {
        forall k: nat | OccursAt(s, t, k) && k > 0 ensures OccursAt(s[1..], t, k - 1) {
          assert s[1..][k - 1..k - 1 + |t|] == t by {
            forall j | 0 <= j < |t| ensures s[1..][k - 1..k - 1 + |t|][j] == t[j] {
              assert s[k..k + |t|][j] == t[j];
            }
          }
        }
      }
      b
  }

  /** A string lacking some character of `t` does not contain `t`. */
  lemma MissingCharNotContained(s: string, t: string, i: nat)
    requires i < |t| && t[i] !in s
    ensures !Contains(s, t)
  {
    forall k: nat ensures !OccursAt(s, t, k) {
      if k + |t| <= |s| {
        assert s[k..k + |t|][i] == s[k + i];
        assert s[k + i] in s;
      }
    }
  }

  /** `sep.join(parts)` */
  function Join(sep: string, parts: seq<string>): string {
    if |parts| == 0 then ""
    else if |parts| == 1 then parts[0]
    else parts[0] + sep + Join(sep, parts[1..])
  }

  function DigitChar(d: nat): char
    requires d < 10
  {
    "0123456789"[d]
  }

  predicate IsDigit(c: char) {
    '0' <= c <= '9'
  }

  /** The number a string of decimal digits denotes. */
  function DigitsValue(s: string): nat
    requires forall i :: 0 <= i < |s| ==> IsDigit(s[i])
  {
    if s == [] then 0
    else
      var last := s[|s| - 1];
      assert IsDigit(last);
      DigitsValue(s[..|s| - 1]) * 10 + (last as int - '0' as int)
  }

  /** `str(n)` for a natural number: its decimal digits, without leading zeros. */
  function NatToString(n: nat): (s: string)
    ensures |s| > 0 && (forall i :: 0 <= i < |s| ==> IsDigit(s[i]))
    ensures DigitsValue(s) == n
    ensures s[0] == '0' ==> n == 0
  {
    if n < 10 then [DigitChar(n)]
    else
      var s := NatToString(n / 10) + [DigitChar(n % 10)];
      assert s[..|s| - 1] == NatToString(n / 10);
      s
  }
}
