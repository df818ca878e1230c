/** What the client's texts have in common. */
module Blanks {

  /** Kotlin's `Char.isWhitespace`. */
  predicate Whitespace(c: char) {
    || '\t' <= c <= '\r' || '\U{1C}' <= c <= ' ' || c == '\U{A0}' || c == '\U{1680}' || '\U{2000}' <= c <= '\U{200A}'
    || c == '\U{2028}' || c == '\U{2029}' || c == '\U{202F}' || c == '\U{205F}' || c == '\U{3000}'
  }

  /** Kotlin's `isBlank`. */
  predicate Blank(s: string) {
    forall i :: 0 <= i < |s| ==> Whitespace(s[i])
  }

  /** A text of blanks, tabs and line ends is blank, and one with a letter, a digit or a dash is not. */
  lemma BlankExamples(s: string, i: nat)
    requires i < |s|
    ensures (forall k :: 0 <= k < |s| ==> s[k] == ' ' || s[k] == '\t' || s[k] == '\n' || s[k] == '\r') ==> Blank(s)
    ensures s[i] == '-' || '0' <= s[i] <= '9' || 'a' <= s[i] <= 'z' || 'A' <= s[i] <= 'Z' ==> !Blank(s)
  {
    assert Blank(s) ==> Whitespace(s[i]);
  }
}
