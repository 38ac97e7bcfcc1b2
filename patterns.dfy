/** The regular expressions the components test input against, written out as
    predicates over characters (`\d` is 0-9, `\S` is any non-white-space
    character as JavaScript defines it). */
module Patterns {
  import opened Js

  predicate AllDigits(s: string) {
    forall i | 0 <= i < |s| :: IsDigit(s[i])
  }

  /** /^\d{9}$/ : the telephone check of the application forms. */
  predicate NineDigits(s: string) {
    |s| == 9 && AllDigits(s)
  }

  /** /^\d{4}$/ : the one-time-password check. */
  predicate FourDigits(s: string) {
    |s| == 4 && AllDigits(s)
  }

  /** /^(82|83|84|85|86|87)\d{7}$/ : a Mozambican mobile number. */
  predicate MozambicanPhone(s: string) {
    && |s| == 9
    && s[0] == '8' && '2' <= s[1] <= '7'
    && forall i | 2 <= i < 9 :: IsDigit(s[i])
  }

  /** The shortest text /\S+@\S+\.\S+/ can match with its "@" at a and its "." at d:
      one non-space before the "@", non-spaces between them, one non-space after the ".". */
  predicate EmailMatchAt(s: string, a: int, d: int) {
    && 0 < a && a + 1 < d && d + 1 < |s|
    && s[a] == '@' && s[d] == '.'
    && !IsSpace(s[a - 1]) && !IsSpace(s[d + 1])
    && forall j | a < j < d :: !IsSpace(s[j])
  }

  /** /\S+@\S+\.\S+/.test(s): the pattern is not anchored, so it only has to occur somewhere in s. */
  predicate EmailPattern(s: string) {
    exists a, d | 0 <= a < |s| && 0 <= d < |s| :: EmailMatchAt(s, a, d)
  }

  /** Every number the registration screen accepts also passes the nine-digit check
      of the application forms. */
  lemma MozambicanPhoneIsNineDigits(s: string)
    requires MozambicanPhone(s)
    ensures NineDigits(s)
  {
  }

  /** Sample numbers: a nine-digit Mozambican mobile, a short one, a punctuated one, and
      nine digits with a prefix that is not Mozambican. */
  lemma TelephoneExamples()
    ensures NineDigits("841234567") && MozambicanPhone("841234567")
    ensures !NineDigits("84123") && !NineDigits("84-123-4567")
    ensures NineDigits("811234567") && !MozambicanPhone("811234567")
  {
  }

  /** Sample codes: four digits, four characters with a letter, three digits, five digits. */
  lemma OtpExamples()
    ensures FourDigits("1234")
    ensures !FourDigits("12a4") && !FourDigits("123") && !FourDigits("12345")
  {
    assert !IsDigit("12a4"[2]);
  }

  /** Because the email pattern is unanchored, text around an address never makes it fail. */
  lemma {:induction false} EmailPatternUnanchored(pre: string, t: string, post: string)
    requires EmailPattern(t)
    ensures EmailPattern(pre + t + post)
  {
    var a, d :| 0 <= a < |t| && 0 <= d < |t| && EmailMatchAt(t, a, d);
    var s := pre + t + post;
    forall j | 0 <= j < |t| ensures s[|pre| + j] == t[j] { }
    assert EmailMatchAt(s, |pre| + a, |pre| + d);
  }

  lemma EmailExamples()
    ensures EmailPattern("a@b.c")
    ensures !EmailPattern("a@b") && !EmailPattern("@b.c") && !EmailPattern("a@.c")
    ensures EmailPattern("write to me@bim.co.mz now")
  {
    assert EmailMatchAt("a@b.c", 1, 3);
    var s := "write to me@bim.co.mz now";
    assert EmailMatchAt(s, 11, 15);
    assert !EmailPattern("a@.c") by {
      forall a, d | 0 <= a < 4 && 0 <= d < 4 ensures !EmailMatchAt("a@.c", a, d) {
      }
    }
  }
}
