/** Kotlin's `String.trim()`, which every text field of the screen goes through. */
module Text {

  /** Kotlin's `Char.isWhitespace()` on the JVM: `Character.isWhitespace` (tab to carriage
      return, the four information separators, and the Unicode space, line and paragraph
      separators other than the non-breaking ones) or `Character.isSpaceChar` (every Unicode
      space, line and paragraph separator, the non-breaking ones included). */
  predicate IsWhitespace(c: char)
    ensures c == ' ' || c == '\t' || c == '\n' || c == '\r' ==> IsWhitespace(c)
    ensures IsWhitespace(c) ==> !('0' <= c <= '9') && !('A' <= c <= 'Z') && !('a' <= c <= 'z')
  {
    || c == ' '
    || ('\t' <= c <= '\r')
    || ('\U{1C}' <= c <= '\U{1F}')
    || c == '\U{A0}'
    || c == '\U{1680}'
    || ('\U{2000}' <= c <= '\U{200A}')
    || c == '\U{2028}'
    || c == '\U{2029}'
    || c == '\U{202F}'
    || c == '\U{205F}'
    || c == '\U{3000}'
  }

  /** The first position at or after `i` that does not hold whitespace (`|s|` when there is
      none): the start index of the trimmed text when scanned from `i` = 0. */
  function SkipWhitespace(s: string, i: nat): (n: nat)
    requires i <= |s|
    ensures i <= n <= |s|
    ensures forall k :: i <= k < n ==> IsWhitespace(s[k])
    ensures n == |s| || !IsWhitespace(s[n])
    decreases |s| - i
  {
    if i < |s| && IsWhitespace(s[i]) then SkipWhitespace(s, i + 1) else i
  }

  /** Moving down from `hi` but not below `lo`, the end (exclusive) of the last character that
      is not whitespace (`lo` when there is none): the end index of the trimmed text. */
  function BackOverWhitespace(s: string, lo: nat, hi: nat): (n: nat)
    requires lo <= hi <= |s|
    ensures lo <= n <= hi
    ensures forall k :: n <= k < hi ==> IsWhitespace(s[k])
    ensures n == lo || !IsWhitespace(s[n - 1])
    decreases hi
  {
    if lo < hi && IsWhitespace(s[hi - 1]) then BackOverWhitespace(s, lo, hi - 1) else hi
  }

  /** `trim()`: the slice of `s` left after removing whitespace at both ends. Everything cut
      away is whitespace and the slice neither starts nor ends with whitespace, which
      determines the slice uniquely. */
  function Trim(s: string): (r: string)
    ensures r == [] || (!IsWhitespace(r[0]) && !IsWhitespace(r[|r| - 1]))
    ensures var lead := SkipWhitespace(s, 0);
      && lead + |r| <= |s|
      && r == s[lead..lead + |r|]
      && (forall i :: 0 <= i < lead ==> IsWhitespace(s[i]))
      && (forall i :: lead + |r| <= i < |s| ==> IsWhitespace(s[i]))
  {
    var start := SkipWhitespace(s, 0);
    var end := BackOverWhitespace(s, start, |s|);
    s[start..end]
  }

  /** Trimming gives the empty string exactly when the input is all whitespace. */
  lemma TrimEmptyIff(s: string)
    ensures Trim(s) == [] <==> forall i :: 0 <= i < |s| ==> IsWhitespace(s[i])
  {
    var lead := SkipWhitespace(s, 0);
    if Trim(s) != [] {
      assert s[lead] == Trim(s)[0];
    }
  }

  /** A string that neither starts nor ends with whitespace is left as it is. */
  lemma TrimUnchanged(s: string)
    requires s == [] || (!IsWhitespace(s[0]) && !IsWhitespace(s[|s| - 1]))
    ensures Trim(s) == s
  {
    assert SkipWhitespace(s, 0) == 0;
    assert BackOverWhitespace(s, 0, |s|) == |s|;
    assert s[0..|s|] == s;
  }

  /** Trimming twice is trimming once. */
  lemma TrimIdempotent(s: string)
    ensures Trim(Trim(s)) == Trim(s)
  {
    TrimUnchanged(Trim(s));
  }
}
