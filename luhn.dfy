/**
 * The Luhn check-digit scheme of ISO/IEC 7812-1 (Annex B), taken as the
 * contract of the card-validation library's `valid_luhn?`: starting from
 * the rightmost digit, every second digit moving left is doubled, 9 is
 * taken off a doubled value above 9, and the number is valid when the
 * sum of all the values is a multiple of 10. A string holding anything
 * but ASCII digits is not a valid card number.
 */
module Luhn {
  import opened Text

  function DigitValue(c: char): (d: nat)
    ensures d <= 9
  {
    if IsDigit(c) then c as int - '0' as int else 0
  }

  /** A doubled digit with 9 taken off when it exceeds 9: the sum of its decimal digits. */
  function Doubled(d: nat): (r: nat)
    requires d <= 9
    ensures r <= 9
    ensures r == (2 * d) / 10 + (2 * d) % 10
  {
    if 2 * d > 9 then 2 * d - 9 else 2 * d
  }

  /** The checksum, computed two digits at a time from the right end. */
  function LuhnSum(s: string): (sum: nat)
    decreases |s|
  {
    if |s| == 0 then 0
    else if |s| == 1 then DigitValue(s[0])
    else LuhnSum(s[..|s| - 2]) + Doubled(DigitValue(s[|s| - 2])) + DigitValue(s[|s| - 1])
  }

  predicate LuhnValid(s: string) {
    AllDigits(s) && LuhnSum(s) % 10 == 0
  }

  /**
   * Reference definition: the digit at index i contributes its value,
   * doubled when its distance from the right end is odd.
   */
  function Contribution(s: string, i: nat): (r: nat)
    requires i < |s|
    ensures r <= 9
  {
    var d := DigitValue(s[i]);
    if (|s| - 1 - i) % 2 == 1 then Doubled(d) else d
  }

  /** The sum of the contributions of the first n digits. */
  function PositionalSum(s: string, n: nat): (sum: nat)
    requires n <= |s|
  {
    if n == 0 then 0 else PositionalSum(s, n - 1) + Contribution(s, n - 1)
  }

  /** Cutting an even number of digits off the right end keeps the weight of the others. */
  lemma {:induction false} PositionalSumEvenPrefix(s: string, m: nat, n: nat)
    requires n <= m <= |s| && (|s| - m) % 2 == 0
    ensures PositionalSum(s, n) == PositionalSum(s[..m], n)
  {
    if n > 0 {
      PositionalSumEvenPrefix(s, m, n - 1);
      assert s[..m][n - 1] == s[n - 1];
    }
  }

  /** The right-to-left checksum equals the positional reference sum. */
  lemma {:induction false} LuhnSumIsPositional(s: string)
    ensures LuhnSum(s) == PositionalSum(s, |s|)
    decreases |s|
  {
    if |s| >= 2 {
      var t := s[..|s| - 2];
      LuhnSumIsPositional(t);
      PositionalSumEvenPrefix(s, |s| - 2, |s| - 2);
      assert PositionalSum(s, |s|)
          == PositionalSum(s, |s| - 2) + Contribution(s, |s| - 2) + Contribution(s, |s| - 1);
    }
  }

  /** Two strings that differ at index k only differ in their sums by the contribution at k. */
  lemma {:induction false} PositionalSumDiffersAt(s: string, t: string, k: nat, n: nat)
    requires |s| == |t| && k < |s| && n <= |s|
    requires forall i :: 0 <= i < |s| && i != k ==> s[i] == t[i]
    ensures PositionalSum(s, n) - PositionalSum(t, n)
         == if k < n then Contribution(s, k) - Contribution(t, k) else 0
  {
    if n > 0 {
      PositionalSumDiffersAt(s, t, k, n - 1);
    }
  }

  /** Doubling with 9 taken off permutes the ten digits. */
  lemma DoubledInjective(a: nat, b: nat)
    requires a <= 9 && b <= 9 && a != b
    ensures Doubled(a) != Doubled(b)
  {
  }

  /**
   * Changing any single digit of a number changes its checksum modulo 10,
   * so at most one of the two numbers passes the check: a mistyped digit
   * (for instance a check digit incremented by one) is always caught.
   */
  lemma SingleDigitChangeFailsLuhn(s: string, t: string, k: nat)
    requires |s| == |t| && k < |s| && AllDigits(s) && AllDigits(t)
    requires s[k] != t[k]
    requires forall i :: 0 <= i < |s| && i != k ==> s[i] == t[i]
    ensures LuhnSum(s) % 10 != LuhnSum(t) % 10
    ensures !(LuhnValid(s) && LuhnValid(t))
  {
    LuhnSumIsPositional(s);
    LuhnSumIsPositional(t);
    PositionalSumDiffersAt(s, t, k, |s|);
    ContributionsDiffer(s, t, k);
    CloseSumsDifferModTen(LuhnSum(s), LuhnSum(t));
  }

  /** Two different digits at the same position contribute different values. */
  lemma ContributionsDiffer(s: string, t: string, k: nat)
    requires |s| == |t| && k < |s| && IsDigit(s[k]) && IsDigit(t[k]) && s[k] != t[k]
    ensures Contribution(s, k) != Contribution(t, k)
  {
    if (|s| - 1 - k) % 2 == 1 {
      DoubledInjective(DigitValue(s[k]), DigitValue(t[k]));
    }
  }

  /** Two different integers less than 10 apart leave different remainders modulo 10. */
  lemma CloseSumsDifferModTen(x: int, y: int)
    requires x != y && -10 < x - y < 10
    ensures x % 10 != y % 10
  {
  }
}
