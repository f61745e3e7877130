/** Scanning of strings. */
module Strings {
  import opened Wrappers

  predicate IsDigit(c: char) { '0' <= c <= '9' }

  predicate AllDigits(s: string) { forall k :: 0 <= k < |s| ==> IsDigit(s[k]) }

  /** parseInt on a run of digits; None is NaN. */
  function ParseInt(s: string): Option<nat>
    requires AllDigits(s)
  {
    if s == "" then None else Some(DigitsValue(s))
  }

  function DigitsValue(s: string): nat
    requires AllDigits(s)
  {
    if s == "" then 0 else DigitsValue(s[..|s| - 1]) * 10 + (s[|s| - 1] - '0') as nat
  }

  predicate Number(digits: string, n: nat) { digits != "" && AllDigits(digits) && DigitsValue(digits) == n }

  /** The end of the run of digits that starts at i. */
  function DigitsEnd(s: string, i: nat): (r: nat)
    requires i <= |s|
    ensures i <= r <= |s| && AllDigits(s[i..r])
    ensures r < |s| ==> !IsDigit(s[r])
    decreases |s| - i
  {
    if i == |s| || !IsDigit(s[i]) then i else DigitsEnd(s, i + 1)
  }

  lemma {:induction false} DigitsEndAt(s: string, i: nat, j: nat)
    requires i <= j <= |s| && AllDigits(s[i..j]) && (j < |s| ==> !IsDigit(s[j]))
    ensures DigitsEnd(s, i) == j
    decreases j - i
  {
    if i < j {
      assert IsDigit(s[i..j][0]) && s[i..j][1..] == s[i + 1..j];
      DigitsEndAt(s, i + 1, j);
    }
  }

  /** startsWith(p, i). */
  predicate StartsAt(s: string, p: string, i: nat) { i + |p| <= |s| && s[i..i + |p|] == p }

  /** indexOf(p, i). */
  function Find(s: string, p: string, i: nat): (r: Option<nat>)
    ensures r.Some? ==> i <= r.value && StartsAt(s, p, r.value)
    ensures forall k :: i <= k && (r.Some? ==> k < r.value) ==> !StartsAt(s, p, k)
    decreases |s| - i
  {
    if i + |p| > |s| then None
    else if s[i..i + |p|] == p then Some(i)
    else Find(s, p, i + 1)
  }

  function Together(chunks: seq<string>): string {
    if chunks == [] then "" else chunks[0] + Together(chunks[1..])
  }

  /** Where the text of a form stands, its parts stand one after the other. */
  lemma {:induction false} PartsInPlace(s: string, i: nat, a: string, b: string, c: string)
    requires i + |a| + |b| + |c| <= |s| && s[i..i + |a| + |b| + |c|] == a + b + c
    ensures s[i..i + |a|] == a && s[i + |a|..i + |a| + |b|] == b
    ensures s[i + |a| + |b|..i + |a| + |b| + |c|] == c
  {
    var ab := a + b;
    var here := s[i..i + |ab| + |c|];
    assert here == ab + c && |ab| == |a| + |b|;
    assert s[i + |ab|..i + |ab| + |c|] == here[|ab|..] == c;
    assert s[i..i + |ab|] == here[..|ab|] == ab;
    assert s[i..i + |a|] == ab[..|a|] == a && s[i + |a|..i + |ab|] == ab[|a|..] == b;
  }

  /** A run of digits that stands between two parts of a form. */
  lemma {:induction false} DigitsInPlace(s: string, i: nat, a: string, digits: string, rest: string)
    requires i + |a| + |digits| + |rest| <= |s| && s[i..i + |a| + |digits| + |rest|] == a + digits + rest
    requires AllDigits(digits) && rest != "" && !IsDigit(rest[0])
    ensures var k := i + |a|; var j := k + |digits|;
      s[k..j] == digits && DigitsEnd(s, k) == j && s[j] == rest[0] && s[j..j + |rest|] == rest
  {
    hide DigitsEnd, AllDigits;
    PartsInPlace(s, i, a, digits, rest);
    var j := i + |a| + |digits|;
    assert s[j] == s[j..j + |rest|][0];
    DigitsEndAt(s, i + |a|, j);
  }
}
