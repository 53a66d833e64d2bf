/**
 * Character classes used by the contact's validations: the ASCII classes
 * of Ruby's regular expressions (`\d`, `\s`, `[a-zA-Z0-9\-]`) and the
 * white space that makes a string blank for ActiveSupport's `blank?`.
 */
module Text {

  /** Ruby's `\d`: an ASCII decimal digit. */
  predicate IsDigit(c: char) {
    '0' <= c <= '9'
  }

  predicate IsAsciiLetter(c: char) {
    'a' <= c <= 'z' || 'A' <= c <= 'Z'
  }

  /** Ruby's `\s`: space, tab, line feed, vertical tab, form feed or carriage return. */
  predicate IsRegexSpace(c: char) {
    c == ' ' || c == '\t' || c == '\n' || c == '\U{000B}' || c == '\U{000C}' || c == '\r'
  }

  /** The POSIX class `[[:space:]]` on a Unicode string: every White_Space code point. */
  predicate IsBlankChar(c: char) {
    || '\U{0009}' <= c <= '\U{000D}'
    || c == ' '
    || c == '\U{0085}'
    || c == '\U{00A0}'
    || c == '\U{1680}'
    || '\U{2000}' <= c <= '\U{200A}'
    || c == '\U{2028}'
    || c == '\U{2029}'
    || c == '\U{202F}'
    || c == '\U{205F}'
    || c == '\U{3000}'
  }

  /**
   * A string is blank when it holds white space only (the empty string
   * included). A missing attribute is represented by the empty string,
   * so it is blank too, as `nil.blank?` is.
   */
  predicate Blank(s: string) {
    forall i :: 0 <= i < |s| ==> IsBlankChar(s[i])
  }

  /** What the `presence: true` validation demands of a string attribute. */
  predicate Present(s: string) {
    !Blank(s)
  }

  predicate AllDigits(s: string) {
    forall i :: 0 <= i < |s| ==> IsDigit(s[i])
  }
}
