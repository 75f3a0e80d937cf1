/**
 * The pieces of Java's string handling that the executor factory relies on:
 * `String.equalsIgnoreCase` and `Strings.isNotBlank` (which tests characters
 * with `Character.isWhitespace`). Strings are sequences of characters; a
 * Java `String` reference that may be null is an `Option<string>`.
 */
module JavaText {
  import opened Wrappers

  /** `Character.toUpperCase` on the ASCII letters; every other character maps to itself. */
  function ToUpper(c: char): char {
    if 'a' <= c <= 'z' then (c as int - 32) as char else c
  }

  /** `Character.toLowerCase` on the ASCII letters; every other character maps to itself. */
  function ToLower(c: char): char {
    if 'A' <= c <= 'Z' then (c as int + 32) as char else c
  }

  /**
   * The per-character test of `String.regionMatches(ignoreCase = true, ...)`:
   * equal, or equal after upper-casing, or equal after upper- then lower-casing.
   */
  predicate CharEqualsIgnoreCase(a: char, b: char) {
    a == b || ToUpper(a) == ToUpper(b) || ToLower(ToUpper(a)) == ToLower(ToUpper(b))
  }

  /** The case-folded representative of a character. */
  function Fold(c: char): char {
    ToLower(ToUpper(c))
  }

  /** `s.equalsIgnoreCase(other)`: false for a null argument, otherwise equal lengths and matching characters. */
  predicate EqualsIgnoreCase(s: string, other: Option<string>) {
    other.Some? && |other.value| == |s| &&
    forall i :: 0 <= i < |s| ==> CharEqualsIgnoreCase(s[i], other.value[i])
  }

  /** Two characters match ignoring case exactly when their folded forms agree. */
  lemma CharEqualsIgnoreCaseIsFold(a: char, b: char)
    ensures CharEqualsIgnoreCase(a, b) <==> Fold(a) == Fold(b)
  {
  }

  /** Matching ignoring case is symmetric and transitive, so it is an equivalence on non-null strings. */
  lemma EqualsIgnoreCaseTransitive(a: string, b: string, c: string)
    requires EqualsIgnoreCase(a, Some(b)) && EqualsIgnoreCase(b, Some(c))
    ensures EqualsIgnoreCase(a, Some(c)) && EqualsIgnoreCase(c, Some(a))
  {
    forall i | 0 <= i < |a|
      ensures CharEqualsIgnoreCase(a[i], c[i]) && CharEqualsIgnoreCase(c[i], a[i])
    {
      CharEqualsIgnoreCaseIsFold(a[i], b[i]);
      CharEqualsIgnoreCaseIsFold(b[i], c[i]);
      CharEqualsIgnoreCaseIsFold(a[i], c[i]);
      CharEqualsIgnoreCaseIsFold(c[i], a[i]);
    }
  }

  /** Matching ignoring case is symmetric. */
  lemma EqualsIgnoreCaseSymmetric(a: string, b: string)
    requires EqualsIgnoreCase(a, Some(b))
    ensures EqualsIgnoreCase(b, Some(a))
  {
    forall i | 0 <= i < |b|
      ensures CharEqualsIgnoreCase(b[i], a[i])
    {
      CharEqualsIgnoreCaseIsFold(a[i], b[i]);
      CharEqualsIgnoreCaseIsFold(b[i], a[i]);
    }
  }

  /**
   * `Character.isWhitespace`: the Unicode space, line and paragraph separators
   * other than the non-breaking ones, plus the ASCII controls TAB, LF, VT, FF,
   * CR and FS, GS, RS, US.
   */
  predicate IsWhitespace(c: char) {
    var u := c as int;
    (0x09 <= u <= 0x0D) || (0x1C <= u <= 0x20) ||
    u == 0x1680 || (0x2000 <= u <= 0x2006) || (0x2008 <= u <= 0x200A) ||
    u == 0x2028 || u == 0x2029 || u == 0x205F || u == 0x3000
  }

  /** `Strings.isNotBlank`: the string is non-null and holds some non-whitespace character. */
  predicate IsNotBlank(s: Option<string>) {
    s.Some? && exists i :: 0 <= i < |s.value| && !IsWhitespace(s.value[i])
  }
}
