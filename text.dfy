/**
 * The Kotlin string primitives the view models rely on: `isBlank`, case-insensitive
 * `equals` and `contains`, `startsWith` and `lowercase`.  Case folding covers the ASCII
 * letters only (see README, "Left out").
 */
module Text {

  /** Kotlin's `Char.isWhitespace()` on the JVM: Java whitespace or a Unicode space separator. */
  predicate IsWhitespace(c: char) {
    || ('\U{0009}' <= c <= '\U{000D}')
    || ('\U{001C}' <= c <= '\U{001F}')
    || c == ' ' || c == '\U{00A0}' || c == '\U{1680}'
    || ('\U{2000}' <= c <= '\U{200A}')
    || c == '\U{2028}' || c == '\U{2029}' || c == '\U{202F}' || c == '\U{205F}' || c == '\U{3000}'
  }

  /** `s.isBlank()`: empty, or whitespace only. */
  predicate IsBlank(s: string) {
    forall i :: 0 <= i < |s| ==> IsWhitespace(s[i])
  }

  function LowerChar(c: char): char {
    if 'A' <= c <= 'Z' then (c as int + 32) as char else c
  }

  /** `s.lowercase()` restricted to ASCII letters. */
  function Lower(s: string): string {
    seq(|s|, i requires 0 <= i < |s| => LowerChar(s[i]))
  }

  /** `a.equals(b, ignoreCase = true)`. */
  predicate EqualsIgnoreCase(a: string, b: string) {
    Lower(a) == Lower(b)
  }

  /** `s.startsWith(prefix)`. */
  predicate StartsWith(s: string, prefix: string) {
    prefix <= s
  }

  /** `s.contains(part)`: `part` occurs in `s` at some position. */
  predicate Contains(s: string, part: string)
    decreases |s|
  {
    part <= s || (s != [] && Contains(s[1..], part))
  }

  /** `s.contains(part, ignoreCase = true)`. */
  predicate ContainsIgnoreCase(s: string, part: string) {
    Contains(Lower(s), Lower(part))
  }

  /** The text occurs exactly where the recursive definition finds it: at an offset `k`. */
  lemma {:induction false} ContainsAt(s: string, part: string, k: nat)
    requires k + |part| <= |s| && s[k..k + |part|] == part
    ensures Contains(s, part)
    decreases k
  {
    if k == 0 {
      assert s[..|part|] == part;
    } else {
      assert s[1..][k - 1..k - 1 + |part|] == s[k..k + |part|];
      ContainsAt(s[1..], part, k - 1);
    }
  }

  /** A containing string is at least as long as what it contains. */
  lemma {:induction false} ContainsLength(s: string, part: string)
    requires Contains(s, part)
    ensures |part| <= |s|
    decreases |s|
  {
    if !(part <= s) {
      ContainsLength(s[1..], part);
    }
  }

  /** Every string contains itself, ignoring case; so case-insensitive equality implies containment. */
  lemma EqualsIgnoreCaseContains(a: string, b: string)
    requires EqualsIgnoreCase(a, b)
    ensures ContainsIgnoreCase(a, b)
  {
    ContainsAt(Lower(a), Lower(b), 0);
  }
}
