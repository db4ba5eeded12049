/**
 * Ordinal, case-insensitive comparison of strings (`StringComparison.OrdinalIgnoreCase`).
 * Characters are compared after folding to upper case; only the ASCII letters are folded.
 */
module IgnoreCase {

  /** The upper-case form of an ASCII lower-case letter; every other character is unchanged. */
  function Fold(c: char): (u: char)
    ensures 'a' <= c <= 'z' ==> 'A' <= u <= 'Z' && u as int == c as int - 32
    ensures !('a' <= c <= 'z') ==> u == c
  {
    if 'a' <= c <= 'z' then (c as int - 32) as char else c
  }

  /** `a` and `b` have the same length and agree position by position after folding. */
  predicate SameIgnoringCase(a: string, b: string): (same: bool)
    ensures a == b ==> same
    ensures same ==> |a| == |b|
  {
    |a| == |b| && forall i :: 0 <= i < |a| ==> Fold(a[i]) == Fold(b[i])
  }

  /** `s.EndsWith(suffix, StringComparison.OrdinalIgnoreCase)`. */
  predicate EndsWithIgnoringCase(s: string, suffix: string): (ends: bool)
    ensures |suffix| <= |s| && s[|s| - |suffix|..] == suffix ==> ends
    ensures ends ==> |suffix| <= |s|
  {
    |suffix| <= |s| && SameIgnoringCase(s[|s| - |suffix|..], suffix)
  }

  /** A string ends, ignoring case, with anything of its own casing. */
  lemma EndsWithAppended(s: string, e: string, suffix: string)
    requires SameIgnoringCase(e, suffix)
    ensures EndsWithIgnoringCase(s + e, suffix)
  {
  }

  /** Exact equality implies case-insensitive equality, not the other way round. */
  lemma CaseIsIgnored()
    ensures SameIgnoringCase(".CSHTML", ".cshtml")
    ensures ".CSHTML" != ".cshtml"
  {
  }
}
