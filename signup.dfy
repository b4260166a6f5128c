/** The sign-up page: the ordered form checks, the provider error tables and the two submit handlers. */
module Signup {
  import opened Wrappers
  import opened Text
  import opened Platform
  import opened Auth

  /** The form check that failed first. */
  datatype Problem = MissingField | PasswordMismatch | PasswordTooShort

  function ProblemMessage(p: Problem): string
  {
    match p
    case MissingField => "Please fill out all fields"
    case PasswordMismatch => "Passwords do not match"
    case PasswordTooShort => "Password must be at least 8 characters long"
  }

  /** The three messages differ. */
  lemma ProblemMessageInjective(p: Problem, q: Problem)
    requires p != q
    ensures ProblemMessage(p) != ProblemMessage(q)
  {
    assert |ProblemMessage(MissingField)| == 26;
    assert |ProblemMessage(PasswordMismatch)| == 22;
    assert |ProblemMessage(PasswordTooShort)| == 43;
  }

  const MinPasswordLength := 8

  /** The checks of `handleSubmit`, in order: no field (name, email, password) may trim to
      empty, the confirmation must equal the password, and the untrimmed password must have
      at least eight characters. A form that passes has a confirmed password of that length. */
  function CheckForm(name: string, identifier: string, password: string, confirmPassword: string): (r: Option<Problem>)
    ensures r == None ==> password == confirmPassword && |password| >= MinPasswordLength
  {
    if Trim(name) == [] || Trim(identifier) == [] || Trim(password) == [] then Some(MissingField)
    else if password != confirmPassword then Some(PasswordMismatch)
    else if |password| < MinPasswordLength then Some(PasswordTooShort)
    else None
  }

  /** Each check is reported exactly when all earlier ones pass and it fails; the form passes
      exactly when no check fails. */
  lemma CheckFormOrder(name: string, identifier: string, password: string, confirmPassword: string)
    ensures var r := CheckForm(name, identifier, password, confirmPassword);
      var blank := IsBlank(name) || IsBlank(identifier) || IsBlank(password);
      && (r == Some(MissingField) <==> blank)
      && (r == Some(PasswordMismatch) <==> !blank && password != confirmPassword)
      && (r == Some(PasswordTooShort) <==> !blank && password == confirmPassword && |password| < 8)
      && (r == None <==> !blank && password == confirmPassword && |password| >= 8)
  {
    TrimEmptyIffBlank(name);
    TrimEmptyIffBlank(identifier);
    TrimEmptyIffBlank(password);
  }

  const EmailInUseMessage := "This email is already in use. Please try a different one or login."
  const InvalidEmailMessage := "Please enter a valid email address"
  const WeakPasswordMessage := "Password is too weak. Please use a stronger password."
  const GenericSignupMessage := "An error occurred during sign up. Please try again."

  /** The message for a rejected account creation. */
  function SignupErrorMessage(code: string): (r: string)
    ensures r != ""
  {
    if code == "auth/email-already-in-use" then EmailInUseMessage
    else if code == "auth/invalid-email" then InvalidEmailMessage
    else if code == "auth/weak-password" then WeakPasswordMessage
    else GenericSignupMessage
  }

  /** Three codes have messages of their own, pairwise different; every other code gets the
      generic message. */
  lemma SignupErrorMessageCases(code: string)
    ensures SignupErrorMessage(code) == EmailInUseMessage <==> code == "auth/email-already-in-use"
    ensures SignupErrorMessage(code) == InvalidEmailMessage <==> code == "auth/invalid-email"
    ensures SignupErrorMessage(code) == WeakPasswordMessage <==> code == "auth/weak-password"
    ensures SignupErrorMessage(code) == GenericSignupMessage <==>
      code != "auth/email-already-in-use" && code != "auth/invalid-email" && code != "auth/weak-password"
  {
    assert |EmailInUseMessage| == 66 && |InvalidEmailMessage| == 34;
    assert |WeakPasswordMessage| == 53 && |GenericSignupMessage| == 51;
  }

  const PopupClosedMessage := "Signup canceled. Please try again."
  const OtherCredentialMessage := "An account already exists with the same email address but different sign-in credentials."
  const GenericGoogleSignupMessage := "An error occurred during Google signup. Please try again."

  /** The message for a rejected Google sign-up. */
  function GoogleSignupErrorMessage(code: string): (r: string)
    ensures r != ""
  {
    if code == "auth/popup-closed-by-user" then PopupClosedMessage
    else if code == "auth/account-exists-with-different-credential" then OtherCredentialMessage
    else GenericGoogleSignupMessage
  }

  /** Two codes have messages of their own; every other code gets the generic message. */
  lemma GoogleSignupErrorMessageCases(code: string)
    ensures GoogleSignupErrorMessage(code) == PopupClosedMessage <==> code == "auth/popup-closed-by-user"
    ensures GoogleSignupErrorMessage(code) == OtherCredentialMessage
            <==> code == "auth/account-exists-with-different-credential"
    ensures GoogleSignupErrorMessage(code) == GenericGoogleSignupMessage <==>
      code != "auth/popup-closed-by-user" && code != "auth/account-exists-with-different-credential"
  {
    assert |PopupClosedMessage| == 34 && |OtherCredentialMessage| == 88 && |GenericGoogleSignupMessage| == 57;
  }

  /** The sign-up page's state; `browser` is the session storage and router it writes to. */
  class SignupPage {
    var name: string
    var identifier: string
    var password: string
    var confirmPassword: string
    var error: string
    var loading: bool
    const browser: Browser

    constructor (b: Browser)
      ensures browser == b
      ensures name == "" && identifier == "" && password == "" && confirmPassword == ""
      ensures error == "" && !loading
    {
      browser := b;
      name, identifier, password, confirmPassword := "", "", "", "";
      error, loading := "", false;
    }

    /** The four inputs of the form. */
    method EditForm(newName: string, newIdentifier: string, newPassword: string, newConfirm: string)
      modifies this
      ensures name == newName && identifier == newIdentifier
      ensures password == newPassword && confirmPassword == newConfirm
      ensures error == old(error) && loading == old(loading)
    {
      name, identifier, password, confirmPassword := newName, newIdentifier, newPassword, newConfirm;
    }

    /** `handleSubmit`. `created` stands for what creating the account and setting its display
        name produce; it is consulted only when the form passes its checks, which `called`
        reports. On success the session records the typed name and the page goes to the
        dashboard; on failure the error is the first failed check or the provider's message. */
    method Submit(created: Outcome<()>) returns (called: bool)
      modifies this, browser
      ensures called <==> CheckForm(old(name), old(identifier), old(password), old(confirmPassword)) == None
      ensures !loading
      ensures name == old(name) && identifier == old(identifier)
      ensures password == old(password) && confirmPassword == old(confirmPassword)
      ensures !called ==>
        && error == ProblemMessage(CheckForm(old(name), old(identifier), old(password), old(confirmPassword)).value)
        && browser.session == old(browser.session) && browser.pushed == old(browser.pushed)
      ensures called && created.Err? ==>
        && error == SignupErrorMessage(created.code)
        && browser.session == old(browser.session) && browser.pushed == old(browser.pushed)
      ensures called && created.Ok? ==>
        && error == ""
        && browser.session == old(browser.session)[IsLoggedInKey := "true"][UserNameKey := old(name)]
        && browser.pushed == old(browser.pushed) + [DashboardRoute]
    {
      error := "";
      loading := true;
      var problem := CheckForm(name, identifier, password, confirmPassword);
      if problem.Some? {
        error := ProblemMessage(problem.value);
        loading := false;
        return false;
      }
      called := true;
      match created {
        case Ok(_) =>
          StoreSignIn(browser, name);
        case Err(code) =>
          error := SignupErrorMessage(code);
      }
      loading := false;
    }

    /** `handleGoogleSignup`: on success the name falls back from the display name to the
        email prefix to "Google User". */
    method GoogleSignup(result: Outcome<User>)
      modifies this, browser
      ensures !loading
      ensures name == old(name) && identifier == old(identifier)
      ensures password == old(password) && confirmPassword == old(confirmPassword)
      ensures result.Err? ==>
        && error == GoogleSignupErrorMessage(result.code)
        && browser.session == old(browser.session) && browser.pushed == old(browser.pushed)
      ensures result.Ok? ==>
        && error == ""
        && browser.session == old(browser.session)[IsLoggedInKey := "true"]
                                                  [UserNameKey := UserName(result.value, "Google User")]
        && browser.pushed == old(browser.pushed) + [DashboardRoute]
    {
      error := "";
      loading := true;
      match result {
        case Ok(user) =>
          StoreSignIn(browser, UserName(user, "Google User"));
        case Err(code) =>
          error := GoogleSignupErrorMessage(code);
      }
      loading := false;
    }
  }
}
