/** The sign-in / registration card that precedes the one-time password. */
module SignInRegister {
  import opened Js
  import opened Patterns
  import opened Forms

  /** The phone-or-email verdict of registration: a contact is required, a phone that
      is given must be Mozambican, and an email that is given must match the pattern,
      with the first failing rule named. */
  function PhoneEmailError(phone: string, email: string): (e: Msg)
    ensures e == Blank <==>
      (phone != "" || email != "") && (phone == "" || MozambicanPhone(phone)) && (email == "" || EmailPattern(email))
    ensures e in {Blank, PhoneEmailRequired, InvalidMozambicanPhoneNumber, InvalidEmailFormat}
  {
    if phone == "" && email == "" then PhoneEmailRequired
    else if phone != "" && !MozambicanPhone(phone) then InvalidMozambicanPhoneNumber
    else if email != "" && !EmailPattern(email) then InvalidEmailFormat
    else Blank
  }

  /** An accepted contact: the phone is a valid Mozambican number when given, and
      otherwise there is an email and it matches the pattern. */
  lemma AcceptedContact(phone: string, email: string)
    requires PhoneEmailError(phone, email) == Blank
    ensures phone != "" ==> MozambicanPhone(phone)
    ensures phone == "" ==> email != "" && EmailPattern(email)
  {
  }

  /** The text inputs of the card. */
  datatype Input = LoginUsername | LoginPassword | RegisterName | RegisterPhone | RegisterEmail
                 | RegisterPassword | ConfirmPassword

  /** The inputs whose onChange also clears the error. */
  predicate EditClearsError(input: Input) {
    input == LoginUsername || input == RegisterPhone || input == RegisterEmail
  }

  /** The three password inputs with a show/hide button. */
  datatype PasswordInput = LoginPasswordShown | RegisterPasswordShown | ConfirmPasswordShown

  class Card {
    var isRegistering: bool
    var loginUsername: string
    var loginPassword: string
    var registerName: string
    var registerPhone: string
    var registerEmail: string
    var registerPassword: string
    var confirmPassword: string
    var error: Msg
    var showLoginPassword: bool
    var showRegisterPassword: bool
    var showConfirmPassword: bool

    constructor ()
      ensures !isRegistering && error == Blank
      ensures loginUsername == "" && loginPassword == "" && registerName == "" && registerPhone == ""
      ensures registerEmail == "" && registerPassword == "" && confirmPassword == ""
      ensures !showLoginPassword && !showRegisterPassword && !showConfirmPassword
    {
      isRegistering := false;
      loginUsername, loginPassword := "", "";
      registerName, registerPhone, registerEmail := "", "", "";
      registerPassword, confirmPassword := "", "";
      error := Blank;
      showLoginPassword, showRegisterPassword, showConfirmPassword := false, false, false;
    }

    /** The value of one of the text inputs. */
    function Text(input: Input): string
      reads this
    {
      match input
      case LoginUsername => loginUsername
      case LoginPassword => loginPassword
      case RegisterName => registerName
      case RegisterPhone => registerPhone
      case RegisterEmail => registerEmail
      case RegisterPassword => registerPassword
      case ConfirmPassword => confirmPassword
    }

    /** All seven texts, in the order of Input. */
    function Inputs(): seq<string>
      reads this
    {
      [loginUsername, loginPassword, registerName, registerPhone, registerEmail, registerPassword, confirmPassword]
    }

    /** onChange of a text input: that input takes the value; the username, phone and
        email inputs also clear the error, the name and password inputs do not. */
    method Edit(input: Input, value: string)
      modifies this
      ensures Text(input) == value
      ensures forall other | other != input :: Text(other) == old(Text(other))
      ensures error == if EditClearsError(input) then Blank else old(error)
      ensures isRegistering == old(isRegistering)
      ensures showLoginPassword == old(showLoginPassword) && showRegisterPassword == old(showRegisterPassword)
      ensures showConfirmPassword == old(showConfirmPassword)
    {
      match input {
        case LoginUsername => loginUsername := value;
        case LoginPassword => loginPassword := value;
        case RegisterName => registerName := value;
        case RegisterPhone => registerPhone := value;
        case RegisterEmail => registerEmail := value;
        case RegisterPassword => registerPassword := value;
        case ConfirmPassword => confirmPassword := value;
      }
      if EditClearsError(input) {
        error := Blank;
      }
    }

    /** The show/hide button of a password input flips its visibility and nothing else. */
    method ToggleVisibility(which: PasswordInput)
      modifies this
      ensures showLoginPassword == (old(showLoginPassword) != (which == LoginPasswordShown))
      ensures showRegisterPassword == (old(showRegisterPassword) != (which == RegisterPasswordShown))
      ensures showConfirmPassword == (old(showConfirmPassword) != (which == ConfirmPasswordShown))
      ensures isRegistering == old(isRegistering) && error == old(error)
      ensures Inputs() == old(Inputs())
    {
      match which
      case LoginPasswordShown => showLoginPassword := !showLoginPassword;
      case RegisterPasswordShown => showRegisterPassword := !showRegisterPassword;
      case ConfirmPasswordShown => showConfirmPassword := !showConfirmPassword;
    }

    /** The "register" button of the sign-in form and the "cancel" button of the
        registration form: switch mode and clear the error. */
    method SetRegistering(registering: bool)
      modifies this
      ensures isRegistering == registering && error == Blank
      ensures Inputs() == old(Inputs())
      ensures showLoginPassword == old(showLoginPassword) && showRegisterPassword == old(showRegisterPassword)
      ensures showConfirmPassword == old(showConfirmPassword)
    {
      isRegistering := registering;
      error := Blank;
    }

    /** handleLogin: both fields are required; otherwise the username is handed on as
        the identifier (the delayed onAuthSuccess call is the returned value). */
    method HandleLogin() returns (identifier: Option<string>)
      modifies this
      ensures identifier.None? <==> loginUsername == "" || loginPassword == ""
      ensures identifier.None? ==> error == UsernameAndPasswordRequired
      ensures identifier.Some? ==> identifier.value == loginUsername && error == Blank
      ensures Inputs() == old(Inputs())
      ensures isRegistering == old(isRegistering)
      ensures showLoginPassword == old(showLoginPassword) && showRegisterPassword == old(showRegisterPassword)
      ensures showConfirmPassword == old(showConfirmPassword)
    {
      error := Blank;
      if loginUsername == "" || loginPassword == "" {
        error := UsernameAndPasswordRequired;
        return None;
      }
      identifier := Some(loginUsername);
    }

    /** handleRegister: rejected exactly when the name is empty, the contact is missing
        or invalid, or the password is empty, differs from its confirmation or is
        shorter than six characters. The message names the mismatch first, then the
        length, then the contact, and otherwise asks for all required fields. An accepted
        registration hands on the phone when one was given, else the email, and either
        way a valid one. */
    method HandleRegister() returns (identifier: Option<string>)
      modifies this
      ensures identifier.None? <==>
        registerName == "" || PhoneEmailError(registerPhone, registerEmail) != Blank
        || registerPassword != confirmPassword || |registerPassword| < 6
      ensures identifier.None? && registerPassword != confirmPassword ==> error == PasswordsDoNotMatch
      ensures identifier.None? && registerPassword == confirmPassword && |registerPassword| < 6 ==>
        error == PasswordLengthError
      ensures identifier.None? && registerPassword == confirmPassword && |registerPassword| >= 6 ==>
        error == if PhoneEmailError(registerPhone, registerEmail) != Blank
                 then PhoneEmailError(registerPhone, registerEmail)
                 else FillAllRequiredFields
      ensures error == FillAllRequiredFields ==> registerName == ""
      ensures identifier.Some? ==> error == Blank
      ensures identifier.Some? && registerPhone != "" ==> identifier.value == registerPhone && MozambicanPhone(registerPhone)
      ensures identifier.Some? && registerPhone == "" ==> identifier.value == registerEmail && EmailPattern(registerEmail)
      ensures Inputs() == old(Inputs())
      ensures isRegistering == old(isRegistering)
      ensures showLoginPassword == old(showLoginPassword) && showRegisterPassword == old(showRegisterPassword)
      ensures showConfirmPassword == old(showConfirmPassword)
    {
      error := Blank;
      var phoneEmailError := Blank;
      if registerPhone == "" && registerEmail == "" {
        phoneEmailError := PhoneEmailRequired;
      } else if registerPhone != "" && !MozambicanPhone(registerPhone) {
        phoneEmailError := InvalidMozambicanPhoneNumber;
      } else if registerEmail != "" && !EmailPattern(registerEmail) {
        phoneEmailError := InvalidEmailFormat;
      }
      assert phoneEmailError == PhoneEmailError(registerPhone, registerEmail);
      if registerName == "" || phoneEmailError != Blank || registerPassword == ""
         || registerPassword != confirmPassword || |registerPassword| < 6
      {
        if registerPassword != confirmPassword {
          error := PasswordsDoNotMatch;
        } else if |registerPassword| < 6 {
          error := PasswordLengthError;
        } else {
          error := if phoneEmailError != Blank then phoneEmailError else FillAllRequiredFields;
        }
        return None;
      }
      AcceptedContact(registerPhone, registerEmail);
      identifier := Some(if registerPhone != "" then registerPhone else registerEmail);
    }
  }
}
