/** The login page: the blank check, the stored user name, the provider error tables and the
    two submit handlers. */
module Login {
  import opened Wrappers
  import opened Text
  import opened Platform
  import opened Auth

  const MissingCredentialsMessage := "Please enter both identifier and password"

  /** The only form check: neither field may trim to empty, so it fails exactly when one of
      the two fields is all white space. */
  predicate CredentialsPresent(identifier: string, password: string)
    ensures CredentialsPresent(identifier, password) <==> !IsBlank(identifier) && !IsBlank(password)
  {
    TrimEmptyIffBlank(identifier);
    TrimEmptyIffBlank(password);
    Trim(identifier) != [] && Trim(password) != []
  }

  /** The user-name expression of the email login as the code groups it: `||` binds tighter
      than `?:`, so the condition is `displayName || identifier.includes('@')` and both arms
      take text from the identifier. */
  function LoginUserNameAsWritten(displayName: Option<string>, identifier: string): string
  {
    if Truthy(displayName) || '@' in identifier then BeforeFirst(identifier, '@') else identifier
  }

  /** As written, the stored name is always the identifier's text before its first '@':
      the display name is never used. */
  lemma LoginUserNameIgnoresDisplayName(displayName: Option<string>, identifier: string)
    ensures LoginUserNameAsWritten(displayName, identifier) == BeforeFirst(identifier, '@')
  {
  }

  /** A user with display name "Ann" signing in as "bob@example.com" is stored as "bob". */
  lemma LoginUserNameCounterexample()
    ensures LoginUserNameAsWritten(Some("Ann"), "bob@example.com") == "bob"
  {
    assert Truthy(Some("Ann"));
    var id := "bob@example.com";
    assert id[..3] == "bob" && id[3] == '@';
    BeforeFirstAt(id, '@', 3);
  }

  /** The evidently intended name: the display name when it is non-empty, otherwise the
      identifier's text before its first '@' (all of it when there is none). */
  function LoginUserName(displayName: Option<string>, identifier: string): (r: string)
    ensures Truthy(displayName) ==> r == displayName.value
    ensures !Truthy(displayName) ==> r == BeforeFirst(identifier, '@')
  {
    if Truthy(displayName) then displayName.value else BeforeFirst(identifier, '@')
  }

  /** The corrected name agrees with the written one exactly when there is no display name
      or the display name already is the identifier's prefix. */
  lemma LoginUserNameAgreement(displayName: Option<string>, identifier: string)
    ensures LoginUserName(displayName, identifier) == LoginUserNameAsWritten(displayName, identifier)
            <==> !Truthy(displayName) || displayName.value == BeforeFirst(identifier, '@')
  {
    LoginUserNameIgnoresDisplayName(displayName, identifier);
  }

  const InvalidCredentialsMessage := "Invalid email or password"
  const InvalidEmailMessage := "Please enter a valid email address"
  const TooManyRequestsMessage := "Too many unsuccessful login attempts. Please try again later."
  const GenericLoginMessage := "An error occurred during login. Please try again."

  /** The message for a rejected email login. */
  function LoginErrorMessage(code: string): (r: string)
    ensures r != ""
  {
    if code == "auth/user-not-found" || code == "auth/wrong-password" then InvalidCredentialsMessage
    else if code == "auth/invalid-email" then InvalidEmailMessage
    else if code == "auth/too-many-requests" then TooManyRequestsMessage
    else GenericLoginMessage
  }

  /** An unknown user and a wrong password share one message, so the page does not reveal
      which it was; two further codes have messages of their own and every other code gets
      the generic message. */
  lemma LoginErrorMessageCases(code: string)
    ensures LoginErrorMessage(code) == InvalidCredentialsMessage
            <==> code == "auth/user-not-found" || code == "auth/wrong-password"
    ensures LoginErrorMessage(code) == InvalidEmailMessage <==> code == "auth/invalid-email"
    ensures LoginErrorMessage(code) == TooManyRequestsMessage <==> code == "auth/too-many-requests"
    ensures LoginErrorMessage(code) == GenericLoginMessage <==>
      && code != "auth/user-not-found" && code != "auth/wrong-password"
      && code != "auth/invalid-email" && code != "auth/too-many-requests"
  {
    assert |InvalidCredentialsMessage| == 25 && |InvalidEmailMessage| == 34;
    assert |TooManyRequestsMessage| == 61 && |GenericLoginMessage| == 49;
  }

  const PopupClosedMessage := "Login canceled. Please try again."
  const OtherCredentialMessage := "An account already exists with the same email address but different sign-in credentials."
  const GenericGoogleLoginMessage := "An error occurred during Google login. Please try again."

  /** The message for a rejected Google login. */
  function GoogleLoginErrorMessage(code: string): (r: string)
    ensures r != ""
  {
    if code == "auth/popup-closed-by-user" then PopupClosedMessage
    else if code == "auth/account-exists-with-different-credential" then OtherCredentialMessage
    else GenericGoogleLoginMessage
  }

  /** Two codes have messages of their own; every other code gets the generic message. */
  lemma GoogleLoginErrorMessageCases(code: string)
    ensures GoogleLoginErrorMessage(code) == PopupClosedMessage <==> code == "auth/popup-closed-by-user"
    ensures GoogleLoginErrorMessage(code) == OtherCredentialMessage
            <==> code == "auth/account-exists-with-different-credential"
    ensures GoogleLoginErrorMessage(code) == GenericGoogleLoginMessage <==>
      code != "auth/popup-closed-by-user" && code != "auth/account-exists-with-different-credential"
  {
    assert |PopupClosedMessage| == 33 && |OtherCredentialMessage| == 88 && |GenericGoogleLoginMessage| == 56;
  }

  /** The login page's state; `browser` is the session storage and router it writes to. */
  class LoginPage {
    var identifier: string
    var password: string
    var error: string
    var loading: bool
    const browser: Browser

    constructor (b: Browser)
      ensures browser == b && identifier == "" && password == "" && error == "" && !loading
    {
      browser := b;
      identifier, password, error, loading := "", "", "", false;
    }

    /** The two inputs of the form. */
    method EditForm(newIdentifier: string, newPassword: string)
      modifies this
      ensures identifier == newIdentifier && password == newPassword
      ensures error == old(error) && loading == old(loading)
    {
      identifier, password := newIdentifier, newPassword;
    }

    /** `handleSubmit`. `signedIn` stands for what the email login produces; it is consulted
        only when both fields are present, which `called` reports. On success the session
        records the user name (the corrected expression) and the page goes to the dashboard. */
    method Submit(signedIn: Outcome<User>) returns (called: bool)
      modifies this, browser
      ensures called <==> CredentialsPresent(old(identifier), old(password))
      ensures !loading && identifier == old(identifier) && password == old(password)
      ensures !called ==>
        && error == MissingCredentialsMessage
        && browser.session == old(browser.session) && browser.pushed == old(browser.pushed)
      ensures called && signedIn.Err? ==>
        && error == LoginErrorMessage(signedIn.code)
        && browser.session == old(browser.session) && browser.pushed == old(browser.pushed)
      ensures called && signedIn.Ok? ==>
        && error == ""
        && browser.session == old(browser.session)[IsLoggedInKey := "true"]
                                [UserNameKey := LoginUserName(signedIn.value.displayName, old(identifier))]
        && browser.pushed == old(browser.pushed) + [DashboardRoute]
    {
      error := "";
      loading := true;
      if !CredentialsPresent(identifier, password) {
        error := MissingCredentialsMessage;
        loading := false;
        return false;
      }
      called := true;
      match signedIn {
        case Ok(user) =>
          StoreSignIn(browser, LoginUserName(user.displayName, identifier));
        case Err(code) =>
          error := LoginErrorMessage(code);
      }
      loading := false;
    }

    /** `handleGoogleLogin`: on success the name falls back from the display name to the
        email prefix to "Google User". */
    method GoogleLogin(result: Outcome<User>)
      modifies this, browser
      ensures !loading && identifier == old(identifier) && password == old(password)
      ensures result.Err? ==>
        && error == GoogleLoginErrorMessage(result.code)
        && browser.session == old(browser.session) && browser.pushed == old(browser.pushed)
      ensures result.Ok? ==>
        && error == ""
        && browser.session == old(browser.session)[IsLoggedInKey := "true"]
                                                  [UserNameKey := UserName(result.value, "Google User")]
        && browser.pushed == old(browser.pushed) + [DashboardRoute]
    {
      error := "";
      loading := true;
      match result {
        case Ok(user) =>
          StoreSignIn(browser, UserName(user, "Google User"));
        case Err(code) =>
          error := GoogleLoginErrorMessage(code);
      }
      loading := false;
    }
  }
}
