/** What the pages share about the identity provider's users and its sign-in notifications. */
module Auth {
  import opened Wrappers
  import opened Text
  import opened Platform

  /** The two fields of a provider user that the pages read; either may be absent. */
  datatype User = User(displayName: Option<string>, email: Option<string>)

  /** A string value is truthy in JavaScript iff it is present and not empty. */
  predicate Truthy(s: Option<string>)
  {
    s.Some? && s.value != ""
  }

  /** `user.email?.split('@')[0]`. */
  function EmailPrefix(email: Option<string>): (r: Option<string>)
    ensures r.Some? <==> email.Some?
    ensures r.Some? ==> r.value <= email.value && '@' !in r.value
  {
    match email
    case None => None
    case Some(e) => Some(BeforeFirst(e, '@'))
  }

  /** `user.displayName || user.email?.split('@')[0] || fallback`. */
  function UserName(u: User, fallback: string): (r: string)
    ensures Truthy(u.displayName) ==> r == u.displayName.value
    ensures !Truthy(u.displayName) && Truthy(EmailPrefix(u.email)) ==> r == EmailPrefix(u.email).value
    ensures !Truthy(u.displayName) && !Truthy(EmailPrefix(u.email)) ==> r == fallback
  {
    if Truthy(u.displayName) then u.displayName.value
    else if Truthy(EmailPrefix(u.email)) then EmailPrefix(u.email).value
    else fallback
  }

  /** Whatever the user record holds, the chosen name is never empty once the fallback is not. */
  lemma UserNameNonEmpty(u: User, fallback: string)
    requires fallback != ""
    ensures UserName(u, fallback) != ""
  {
  }

  /** An email address without an '@' yields the whole address as its prefix; with one,
      the prefix is strictly shorter. */
  lemma EmailPrefixLength(e: string)
    ensures '@' !in e ==> EmailPrefix(Some(e)) == Some(e)
    ensures '@' in e ==> |EmailPrefix(Some(e)).value| < |e|
  {
  }

  /** What every successful sign-in does: mark the session as logged in, store the
      user name and go to the dashboard. */
  method StoreSignIn(b: Browser, name: string)
    modifies b
    ensures b.session == old(b.session)[IsLoggedInKey := "true"][UserNameKey := name]
    ensures b.pushed == old(b.pushed) + [DashboardRoute]
  {
    b.SetItem(IsLoggedInKey, "true");
    b.SetItem(UserNameKey, name);
    b.Push(DashboardRoute);
  }

  /** The auth-state listener of the sign-up and login pages: on a signed-in user, mark
      the session as logged in, store the user name (falling back to "User") and go to
      the dashboard; on a signed-out notification, do nothing. */
  method SignedInListener(b: Browser, user: Option<User>)
    modifies b
    ensures user.None? ==> b.session == old(b.session) && b.pushed == old(b.pushed)
    ensures user.Some? ==>
      && b.session == old(b.session)[IsLoggedInKey := "true"][UserNameKey := UserName(user.value, "User")]
      && b.pushed == old(b.pushed) + [DashboardRoute]
  {
    if user.Some? {
      StoreSignIn(b, UserName(user.value, "User"));
    }
  }
}
