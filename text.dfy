/**
 * The two string operations the app relies on: `String.contains(_:)`, a
 * case-sensitive substring test, and `trimmingCharacters(in: .whitespaces)`,
 * which drops blanks from both ends; the blanks are taken here to be space
 * and horizontal tab.
 */
module Text {

  /** `t` occurs in `s` as a contiguous, case-sensitive substring. */
  predicate Contains(s: string, t: string)
    ensures Contains(s, t) ==> |t| <= |s|
    ensures t <= s ==> Contains(s, t)
  {
    assert t <= s ==> t <= s[0..];
    exists i :: 0 <= i <= |s| && t <= s[i..]
  }

  /** The members of `.whitespaces` this model knows: space and tab. A newline is not one. */
  predicate IsBlank(c: char)
    ensures IsBlank(c) ==> c != '\n' && c != '\r'
  {
    c == ' ' || c == '\t'
  }

  /** Every character of `s` is a blank (true of the empty string). */
  predicate AllBlank(s: string) {
    forall k :: 0 <= k < |s| ==> IsBlank(s[k])
  }

  /** The length of the longest all-blank prefix of `s`. */
  function LeadingBlanks(s: string): (n: nat)
    ensures n <= |s|
    ensures forall k :: 0 <= k < n ==> IsBlank(s[k])
    ensures n < |s| ==> !IsBlank(s[n])
  {
    if |s| > 0 && IsBlank(s[0]) then 1 + LeadingBlanks(s[1..]) else 0
  }

  /** The length of the longest all-blank suffix of `s`. */
  function TrailingBlanks(s: string): (n: nat)
    ensures n <= |s|
    ensures forall k :: |s| - n <= k < |s| ==> IsBlank(s[k])
    ensures n < |s| ==> !IsBlank(s[|s| - 1 - n])
  {
    if |s| > 0 && IsBlank(s[|s| - 1]) then 1 + TrailingBlanks(s[..|s| - 1]) else 0
  }

  /**
   * `s` with its leading and trailing blanks removed: what remains is a
   * contiguous piece of `s`, everything cut off is blank, and a non-empty
   * result neither starts nor ends with a blank.
   */
  function Trim(s: string): (r: string)
    ensures LeadingBlanks(s) + |r| <= |s|
    ensures AllBlank(s[..LeadingBlanks(s)])
    ensures r == s[LeadingBlanks(s)..LeadingBlanks(s) + |r|]
    ensures AllBlank(s[LeadingBlanks(s) + |r|..])
    ensures r != [] ==> !IsBlank(r[0]) && !IsBlank(r[|r| - 1])
  {
    var lead := LeadingBlanks(s);
    var rest := s[lead..];
    var trail := TrailingBlanks(rest);
    var r := rest[..|rest| - trail];
    assert r == s[lead..lead + |r|];
    assert s[lead + |r|..] == rest[|rest| - trail..];
    assert r != [] ==> r[0] == rest[0] && r[|r| - 1] == rest[|rest| - 1 - trail];
    r
  }

  /** Trimming leaves nothing exactly when the string is blank throughout. */
  lemma TrimEmptyIffAllBlank(s: string)
    ensures Trim(s) == [] <==> AllBlank(s)
  {
  }

  /** A string that contains `t` verbatim, whatever surrounds it, contains `t`. */
  lemma ContainsInfix(u: string, t: string, w: string)
    ensures Contains(u + t + w, t)
  {
    var s := u + t + w;
    assert s[|u|..][..|t|] == t;
  }
}
