/** The one-time-password screen: the masking of the identifier the code was sent to,
    the code input and its check. */
module OtpVerification {
  import opened Js
  import opened Patterns
  import opened Forms
  import SignInRegister

  /** String.prototype.charAt(0): the first character, or "" for an empty string. */
  function FirstChar(s: string): (r: string)
    ensures |r| == if s == "" then 0 else 1
    ensures r == s[..|r|]
  {
    if s == "" then "" else [s[0]]
  }

  /** A string that contains the separator splits into at least two pieces. */
  lemma {:induction false} SplitAtLeastTwo(s: string, sep: char)
    requires sep in s
    ensures |Split(s, sep)| >= 2
  {
    if s[0] != sep {
      SplitAtLeastTwo(s[1..], sep);
    }
  }

  /** The local part of an email hint: first character, four stars and last character
      when it is longer than two characters, otherwise its first character (if any)
      and two stars. */
  function MaskLocal(local: string): (r: string)
    ensures |local| > 2 ==> |r| == 6 && r[0] == local[0] && r[1..5] == "****" && r[5] == local[|local| - 1]
    ensures |local| <= 2 ==> r == FirstChar(local) + "**"
  {
    if |local| > 2 then FirstChar(local) + "****" + SliceLast(local, 1) else FirstChar(local) + "**"
  }

  /** maskIdentifier. */
  function MaskIdentifier(identifier: string): (r: string)
    ensures '@' !in identifier && |identifier| >= 5 ==>
      |r| == 8 && r[..2] == identifier[..2] && r[2..6] == "****" && r[6..] == identifier[|identifier| - 2..]
    ensures '@' !in identifier && |identifier| < 5 ==> r == identifier
  {
    if identifier == "" then ""
    else if '@' in identifier then
      SplitAtLeastTwo(identifier, '@');
      var parts := Split(identifier, '@');
      MaskLocal(parts[0]) + "@" + parts[1]
    else if |identifier| >= 5 then identifier[..2] + "****" + identifier[|identifier| - 2..]
    else identifier
  }

  /** An identifier with its first "@" at i and the next "@" at j (or no further one,
      j being the end) is masked as its local part masked, "@", and the text between the
      two: whatever follows a second "@" is dropped. */
  lemma MaskEmail(s: string, i: nat, j: nat)
    requires i < j <= |s| && s[i] == '@'
    requires forall m | 0 <= m < i :: s[m] != '@'
    requires forall m | i < m < j :: s[m] != '@'
    requires j == |s| || s[j] == '@'
    ensures MaskIdentifier(s) == MaskLocal(s[..i]) + "@" + s[i + 1..j]
  {
    SplitFirstTwo(s, '@', i, j);
  }

  /** The hint a registration hands on is masked as what it is. An accepted phone is
      nine digits without "@", so it keeps two digits at each end; an accepted email
      alone holds an "@", so its local part is masked and the piece after it kept. */
  lemma {:induction false} RegisteredHintMasked(phone: string, email: string)
    requires SignInRegister.PhoneEmailError(phone, email) == Blank
    ensures phone != "" ==>
      var r := MaskIdentifier(phone);
      |r| == 8 && r[..2] == phone[..2] && r[2..6] == "****" && r[6..] == phone[7..]
    ensures phone == "" ==>
      && '@' in email && |Split(email, '@')| >= 2
      && MaskIdentifier(email) == MaskLocal(Split(email, '@')[0]) + "@" + Split(email, '@')[1]
  {
    SignInRegister.AcceptedContact(phone, email);
    if phone != "" {
      assert '@' !in phone by {
        forall m | 0 <= m < |phone| ensures phone[m] != '@' {
          assert m < 2 || IsDigit(phone[m]);
        }
      }
    } else {
      var a, d :| 0 <= a < |email| && 0 <= d < |email| && EmailMatchAt(email, a, d);
      assert email[a] == '@';
      SplitAtLeastTwo(email, '@');
    }
  }

  /** A nine-digit phone number keeps two digits at each end: "841234567" is masked as
      "84****67", not as "84****567". */
  lemma PhoneExample()
    ensures MaskIdentifier("841234567") == "84****67"
    ensures MaskIdentifier("841234567") != "84****567"
  {
    assert '@' !in "841234567" by {
      forall m | 0 <= m < 9 ensures "841234567"[m] != '@' { }
    }
  }

  /** The screen's state. */
  class OtpScreen {
    var otp: string
    var error: Msg
    var maskedIdentifier: string
    /** How often onVerifySuccess has been called. */
    var successes: nat

    constructor ()
      ensures otp == "" && error == Blank && maskedIdentifier == "" && successes == 0
    {
      otp := "";
      error := Blank;
      maskedIdentifier := "";
      successes := 0;
    }

    /** The effect on identifierHint: the mask is recomputed only for a non-null,
        non-empty hint. */
    method HintChanged(identifierHint: Option<string>)
      modifies this
      ensures identifierHint.Some? && identifierHint.value != "" ==> maskedIdentifier == MaskIdentifier(identifierHint.value)
      ensures identifierHint.None? || identifierHint.value == "" ==> maskedIdentifier == old(maskedIdentifier)
      ensures otp == old(otp) && error == old(error) && successes == old(successes)
    {
      if identifierHint.Some? && identifierHint.value != "" {
        maskedIdentifier := MaskIdentifier(identifierHint.value);
      }
    }

    /** The code input's onChange: store the text and clear the error. */
    method EditOtp(value: string)
      modifies this
      ensures otp == value && error == Blank
      ensures maskedIdentifier == old(maskedIdentifier) && successes == old(successes)
    {
      otp := value;
      error := Blank;
    }

    /** handleVerifyOtp: success is reported exactly for four decimal digits; anything
        else sets the error instead. */
    method VerifyOtp()
      modifies this
      ensures FourDigits(otp) ==> successes == old(successes) + 1 && error == Blank
      ensures !FourDigits(otp) ==> successes == old(successes) && error == EnterValid4DigitOtp
      ensures otp == old(otp) && maskedIdentifier == old(maskedIdentifier)
    {
      error := Blank;
      if FourDigits(otp) {
        successes := successes + 1;
      } else {
        error := EnterValid4DigitOtp;
      }
    }
  }
}
