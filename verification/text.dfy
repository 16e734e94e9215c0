/** Character and string primitives the analyzer relies on: ASCII lower-casing
    (Python's `str.lower` restricted to ASCII letters), substring search (Python's
    `k in s`), repetition of a character (`"=" * 55`) and decimal rendering of
    counts (what an f-string does with an `int`). */
module Text {

  predicate IsUpper(c: char) {
    'A' <= c <= 'Z'
  }

  /** Lower-cases an ASCII capital; every other character is left as it is. */
  function LowerChar(c: char): (d: char)
    ensures !IsUpper(d)
    ensures !IsUpper(c) ==> d == c
    ensures IsUpper(c) ==> 'a' <= d <= 'z' && d as int == c as int + ('a' as int - 'A' as int)
  {
    if IsUpper(c) then (c as int + ('a' as int - 'A' as int)) as char else c
  }

  /** The string with every ASCII capital lower-cased, position by position. */
  function Lower(s: string): (r: string)
    ensures |r| == |s|
    ensures forall i :: 0 <= i < |s| ==> r[i] == LowerChar(s[i])
  {
    if |s| == 0 then "" else [LowerChar(s[0])] + Lower(s[1..])
  }

  /** `k` sits in `s` starting at position `i`. */
  predicate MatchesAt(s: string, i: nat, k: string) {
    i + |k| <= |s| && s[i..i + |k|] == k
  }

  /** The specification of Python's `k in s` on strings: some window of `s` equals `k`. */
  ghost predicate Occurs(k: string, s: string) {
    exists i: nat :: i <= |s| && MatchesAt(s, i, k)
  }

  /** A window of `s[1..]` is the window of `s` one position further on. */
  lemma MatchesAtTail(s: string, i: nat, k: string)
    requires |s| > 0
    ensures MatchesAt(s[1..], i, k) <==> MatchesAt(s, i + 1, k)
  {
    if i + 1 + |k| <= |s| {
      assert s[1..][i..i + |k|] == s[i + 1..i + 1 + |k|];
    }
  }

  /** Substring search by scanning start positions left to right. */
  function Contains(s: string, k: string): (b: bool)
    ensures b <==> Occurs(k, s)
    decreases |s|
  {
    if |s| < |k| then
      assert forall i: nat :: i <= |s| ==> !MatchesAt(s, i, k);
      false
    else if s[..|k|] == k then
      assert MatchesAt(s, 0, k);
      true
    else
      var rest := Contains(s[1..], k);
      assert Occurs(k, s) ==> Occurs(k, s[1..]) by {
        if Occurs(k, s) {
          var i: nat :| i <= |s| && MatchesAt(s, i, k);
          assert i != 0;
          MatchesAtTail(s, i - 1, k);
        }
      }
      assert Occurs(k, s[1..]) ==> Occurs(k, s) by {
        if Occurs(k, s[1..]) {
          var i: nat :| i <= |s[1..]| && MatchesAt(s[1..], i, k);
          MatchesAtTail(s, i, k);
        }
      }
      rest
  }

  /** Some keyword of `keys` occurs in `s`. */
  ghost predicate OccursAny(keys: seq<string>, s: string) {
    exists k :: k in keys && Occurs(k, s)
  }

  /** Python's `any(k in s for k in keys)`. */
  function ContainsAny(s: string, keys: seq<string>): (b: bool)
    ensures b <==> OccursAny(keys, s)
  {
    if |keys| == 0 then false
    else Contains(s, keys[0]) || ContainsAny(s, keys[1..])
  }

  /** Python's `c * n` for a one-character string `c`. */
  function Repeat(c: char, n: nat): (r: string)
    ensures |r| == n
    ensures forall i :: 0 <= i < n ==> r[i] == c
  {
    seq(n, _ => c)
  }

  predicate IsDigit(c: char) {
    '0' <= c <= '9'
  }

  predicate AllDigits(s: string) {
    forall i :: 0 <= i < |s| ==> IsDigit(s[i])
  }

  function DigitChar(d: nat): (c: char)
    requires d < 10
    ensures IsDigit(c)
    ensures c as int - '0' as int == d
  {
    ('0' as int + d) as char
  }

  /** `str(n)` for a non-negative integer: decimal digits, no leading zero. */
  function NatToString(n: nat): (s: string)
    ensures |s| >= 1
    ensures AllDigits(s)
    ensures |s| > 1 ==> s[0] != '0'
    decreases n
  {
    if n < 10 then [DigitChar(n)] else NatToString(n / 10) + [DigitChar(n % 10)]
  }

  /** Reads a string of decimal digits back as the number it denotes. */
  function ParseNat(s: string): nat
    requires AllDigits(s)
  {
    if |s| == 0 then 0
    else 10 * ParseNat(s[..|s| - 1]) + (s[|s| - 1] as int - '0' as int)
  }

  /** Reading back a rendered count gives the count. */
  lemma {:induction false} ParseNatToString(n: nat)
    ensures ParseNat(NatToString(n)) == n
    decreases n
  {
    var s := NatToString(n);
    if n >= 10 {
      var p := NatToString(n / 10);
      assert s[..|s| - 1] == p;
      ParseNatToString(n / 10);
    }
  }

  /** Different counts render differently. */
  lemma NatToStringInjective(m: nat, n: nat)
    requires NatToString(m) == NatToString(n)
    ensures m == n
  {
    ParseNatToString(m);
    ParseNatToString(n);
  }
}
