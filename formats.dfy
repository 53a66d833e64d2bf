/**
 * The two fixed regular expressions of the contact model, written as
 * character-by-character predicates: the name pattern and the phone
 * pattern.
 */
module Formats {
  import opened Text

  /** A name character: `[a-zA-Z0-9\-]`. */
  predicate NameChar(c: char) {
    IsAsciiLetter(c) || IsDigit(c) || c == '-'
  }

  /**
   * `\A[a-zA-Z0-9\-]+\z`: one name character, followed either by the end
   * of the string or by another match of the same pattern.
   */
  predicate NameFormat(s: string)
    decreases |s|
  {
    |s| > 0 && NameChar(s[0]) && (|s| == 1 || NameFormat(s[1..]))
  }

  /** The name pattern accepts exactly the non-empty strings of name characters. */
  lemma {:induction false} NameFormatIffNameChars(s: string)
    ensures NameFormat(s) <==> |s| > 0 && forall i :: 0 <= i < |s| ==> NameChar(s[i])
    decreases |s|
  {
    if |s| > 1 {
      NameFormatIffNameChars(s[1..]);
      if forall i :: 0 <= i < |s| ==> NameChar(s[i]) {
        assert forall i :: 0 <= i < |s[1..]| ==> NameChar(s[1..][i]) by {
          forall i | 0 <= i < |s[1..]| ensures NameChar(s[1..][i]) {
            assert s[1..][i] == s[i + 1];
          }
        }
      }
      if NameFormat(s) {
        forall i | 0 <= i < |s| ensures NameChar(s[i]) {
          if i > 0 { assert s[i] == s[1..][i - 1]; }
        }
      }
    }
  }

  /** A well-formed name is never blank, so it also passes the presence check. */
  lemma NameFormatNotBlank(s: string)
    requires NameFormat(s)
    ensures !Blank(s)
  {
  }

  predicate IsSeparator(c: char) {
    c == '-' || c == ' '
  }

  /**
   * `\A\(\+\d{2}\)\s\d{3}[\- ]\d{3}[\- ]\d{2}[\- ]\d{2}\z`, read position
   * by position: 19 characters, `(+`, two digits, `)`, one `\s`
   * character, then groups of 3, 3, 2 and 2 digits, each pair of groups
   * separated by `-` or a space.
   */
  predicate PhoneFormat(s: string) {
    && |s| == 19
    && s[0] == '(' && s[1] == '+' && IsDigit(s[2]) && IsDigit(s[3]) && s[4] == ')'
    && IsRegexSpace(s[5])
    && IsDigit(s[6]) && IsDigit(s[7]) && IsDigit(s[8]) && IsSeparator(s[9])
    && IsDigit(s[10]) && IsDigit(s[11]) && IsDigit(s[12]) && IsSeparator(s[13])
    && IsDigit(s[14]) && IsDigit(s[15]) && IsSeparator(s[16])
    && IsDigit(s[17]) && IsDigit(s[18])
  }

  /** One position of a pattern without alternation or variable repetition. */
  datatype CharClass = Literal(c: char) | Digit | Space | Separator

  /** `\d` is Digit, `\s` is Space, `[\- ]` is Separator. */
  predicate ClassMatches(k: CharClass, c: char) {
    match k
    case Literal(l) => c == l
    case Digit => IsDigit(c)
    case Space => IsRegexSpace(c)
    case Separator => IsSeparator(c)
  }

  /** `k{n}`: the class k, n times. */
  function Repeat(k: CharClass, n: nat): (p: seq<CharClass>)
    ensures |p| == n && forall i :: 0 <= i < n ==> p[i] == k
  {
    if n == 0 then [] else [k] + Repeat(k, n - 1)
  }

  /** Anchored match (`\A ... \z`): each class consumes exactly one character. */
  predicate Matches(p: seq<CharClass>, s: string)
    decreases |p|
  {
    if p == [] then s == []
    else s != [] && ClassMatches(p[0], s[0]) && Matches(p[1..], s[1..])
  }

  /** An anchored match is a position-by-position match of equal length. */
  lemma {:induction false} MatchesIffPositionwise(p: seq<CharClass>, s: string)
    ensures Matches(p, s) <==> |s| == |p| && forall i :: 0 <= i < |p| ==> ClassMatches(p[i], s[i])
    decreases |p|
  {
    if p != [] && s != [] {
      MatchesIffPositionwise(p[1..], s[1..]);
      if |s| == |p| && forall i :: 0 <= i < |p| ==> ClassMatches(p[i], s[i]) {
        forall i | 0 <= i < |p[1..]| ensures ClassMatches(p[1..][i], s[1..][i]) {
          assert p[1..][i] == p[i + 1] && s[1..][i] == s[i + 1];
        }
      }
      if Matches(p, s) {
        forall i | 0 <= i < |p| ensures ClassMatches(p[i], s[i]) {
          if i > 0 { assert p[i] == p[1..][i - 1] && s[i] == s[1..][i - 1]; }
        }
      }
    }
  }

  /** The phone regular expression as a sequence of classes, written as in the source. */
  function PhonePattern(): (p: seq<CharClass>)
    ensures |p| == 19
  {
    [Literal('('), Literal('+')] + Repeat(Digit, 2) + [Literal(')'), Space]
    + Repeat(Digit, 3) + [Separator] + Repeat(Digit, 3) + [Separator]
    + Repeat(Digit, 2) + [Separator] + Repeat(Digit, 2)
  }

  /** The phone pattern, one class per position. */
  lemma PhonePatternSpelledOut()
    ensures PhonePattern() == [Literal('('), Literal('+'), Digit, Digit, Literal(')'), Space,
                               Digit, Digit, Digit, Separator, Digit, Digit, Digit, Separator,
                               Digit, Digit, Separator, Digit, Digit]
  {
  }

  /** The position-by-position reading accepts exactly what the regular expression matches. */
  lemma PhoneFormatIsRegex(s: string)
    ensures PhoneFormat(s) <==> Matches(PhonePattern(), s)
  {
    MatchesIffPositionwise(PhonePattern(), s);
    PhonePatternSpelledOut();
    if Matches(PhonePattern(), s) {
      FormatFromPositions(PhonePattern(), s);
    }
    if PhoneFormat(s) {
      PositionsFromFormat(PhonePattern(), s);
    }
  }

  /** A position-by-position match of the spelled-out pattern satisfies the phone predicate. */
  lemma FormatFromPositions(p: seq<CharClass>, s: string)
    requires p == [Literal('('), Literal('+'), Digit, Digit, Literal(')'), Space,
                   Digit, Digit, Digit, Separator, Digit, Digit, Digit, Separator,
                   Digit, Digit, Separator, Digit, Digit]
    requires |s| == 19 && forall i :: 0 <= i < 19 ==> ClassMatches(p[i], s[i])
    ensures PhoneFormat(s)
  {
  }

  /** A string satisfying the phone predicate matches the spelled-out pattern at every position. */
  lemma PositionsFromFormat(p: seq<CharClass>, s: string)
    requires p == [Literal('('), Literal('+'), Digit, Digit, Literal(')'), Space,
                   Digit, Digit, Digit, Separator, Digit, Digit, Digit, Separator,
                   Digit, Digit, Separator, Digit, Digit]
    requires PhoneFormat(s)
    ensures forall i :: 0 <= i < 19 ==> ClassMatches(p[i], s[i])
  {
  }

  /**
   * Every position of the phone pattern is checked on its own: replacing
   * one character by another that its class admits keeps the phone valid.
   * In particular each of the three separators may independently be `-`
   * or a space, and the character after `)` may be any `\s` character.
   */
  lemma PhonePositionsIndependent(s: string, k: nat, c: char)
    requires PhoneFormat(s) && k < 19 && ClassMatches(PhonePattern()[k], c)
    ensures PhoneFormat(s[k := c])
  {
  }

  /** A well-formed phone is never blank, so it also passes the presence check. */
  lemma PhoneFormatNotBlank(s: string)
    requires PhoneFormat(s)
    ensures !Blank(s)
  {
  }
}
