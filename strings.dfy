/** The few `java.lang.String` operations the application relies on, over `seq<char>`. */
module Strings {

  /** `s.startsWith(prefix)` */
  predicate StartsWith(s: string, prefix: string) {
    |prefix| <= |s| && s[..|prefix|] == prefix
  }

  /** `s.endsWith(suffix)` */
  predicate EndsWith(s: string, suffix: string) {
    |suffix| <= |s| && s[|s| - |suffix|..] == suffix
  }

  /** Case folding of one character, restricted to ASCII letters. */
  function ToLower(c: char): char {
    if 'A' <= c <= 'Z' then (c as int + 32) as char else c
  }

  /** Character-by-character comparison after case folding, as
      `regionMatches(true, ...)` does for two strings of equal length. */
  function RegionMatchesIgnoreCase(a: string, b: string): bool
    requires |a| == |b|
  {
    a == [] || (ToLower(a[0]) == ToLower(b[0]) && RegionMatchesIgnoreCase(a[1..], b[1..]))
  }

  /** `a.equalsIgnoreCase(b)`: same length and equal characters up to case. */
  function EqualsIgnoreCase(a: string, b: string): bool {
    |a| == |b| && RegionMatchesIgnoreCase(a, b)
  }

  /** The characterisation of `EqualsIgnoreCase` by positions, in both directions. */
  lemma {:induction false} EqualsIgnoreCaseIff(a: string, b: string)
    ensures EqualsIgnoreCase(a, b) <==>
      |a| == |b| && forall i :: 0 <= i < |a| ==> ToLower(a[i]) == ToLower(b[i])
  {
    if |a| == |b| && a != [] {
      EqualsIgnoreCaseIff(a[1..], b[1..]);
      if forall i :: 0 <= i < |a| ==> ToLower(a[i]) == ToLower(b[i]) {
        assert forall i :: 0 <= i < |a| - 1 ==> ToLower(a[1..][i]) == ToLower(b[1..][i]) by {
          forall i | 0 <= i < |a| - 1 ensures ToLower(a[1..][i]) == ToLower(b[1..][i]) {
            assert a[1..][i] == a[i + 1] && b[1..][i] == b[i + 1];
          }
        }
      }
      if EqualsIgnoreCase(a, b) {
        forall i | 0 <= i < |a| ensures ToLower(a[i]) == ToLower(b[i]) {
          if i > 0 { assert a[i] == a[1..][i - 1] && b[i] == b[1..][i - 1]; }
        }
      }
    }
  }
}
