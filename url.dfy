/**
 * What the dialogs need of URLs: the browser's `new URL(s)` as a parameter,
 * reduced to the protocol it reports, and ASCII case-insensitive prefixes.
 */
module Url {
  import opened Wrappers
  import opened Text

  /**
   * The browser's URL parser: `Some(protocol)` (lower-case, with its colon) when
   * `new URL(s)` succeeds, `None` when it throws.
   */
  type Parser = string -> Option<string>

  /** ASCII lower-casing of one character: the folding URL schemes get. */
  function ToLowerAscii(c: char): (r: char)
    ensures 'A' <= c <= 'Z' ==> r as int == c as int + 32
    ensures !('A' <= c <= 'Z') ==> r == c
  {
    if 'A' <= c <= 'Z' then (c as int + 32) as char else c
  }

  /** The string has no upper-case ASCII letter. */
  predicate NoUpperAscii(s: string) {
    forall k :: 0 <= k < |s| ==> !('A' <= s[k] <= 'Z')
  }

  /** `s` starts with the lower-case prefix `p`, ignoring ASCII case in `s`. */
  predicate StartsWithIgnoringCase(s: string, p: string) {
    |p| <= |s| && forall k :: 0 <= k < |p| ==> ToLowerAscii(s[k]) == p[k]
  }

  /** An exact prefix is a prefix ignoring case, when the prefix is lower-case. */
  lemma StartsWithIgnoringCaseOfExact(s: string, p: string)
    requires NoUpperAscii(p) && StartsWith(s, p)
    ensures StartsWithIgnoringCase(s, p)
  {
    forall k | 0 <= k < |p|
      ensures ToLowerAscii(s[k]) == p[k]
    {
      assert s[k] == s[..|p|][k];
    }
  }

  /** On a string without upper-case letters, ignoring case changes nothing. */
  lemma StartsWithIgnoringCaseOfLower(s: string, p: string)
    requires NoUpperAscii(s)
    ensures StartsWithIgnoringCase(s, p) <==> StartsWith(s, p)
  {
    if StartsWithIgnoringCase(s, p) {
      assert s[..|p|] == p;
    }
  }
}
