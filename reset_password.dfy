/** The password-reset page: the blank check, the email pattern and the provider error table. */
module ResetPassword {
  import opened Wrappers
  import opened Text

  const MissingEmailMessage := "Please enter your email address"
  const InvalidEmailMessage := "Please enter a valid email address"

  /** One `[^\s@]+` run of the pattern: non-empty, with no white space and no '@'. */
  predicate IsPart(p: string)
  {
    |p| > 0 && forall k :: 0 <= k < |p| ==> !IsSpace(p[k]) && p[k] != '@'
  }

  /** The pattern `^[^\s@]+@[^\s@]+\.[^\s@]+$` matches at the '@' at `i` and the '.' at `j`. */
  predicate MatchesAt(s: string, i: int, j: int)
  {
    0 < i && i + 1 < j && j + 1 < |s| && s[i] == '@' && s[j] == '.'
    && IsPart(s[..i]) && IsPart(s[i + 1..j]) && IsPart(s[j + 1..])
  }

  /** `emailRegex.test(email)`. */
  predicate MatchesEmailPattern(s: string)
    ensures MatchesEmailPattern(s) ==> 5 <= |s| && '@' in s && '.' in s
  {
    exists i, j :: 0 <= i < |s| && 0 <= j < |s| && MatchesAt(s, i, j)
  }

  /** The same condition in plain terms: no white space anywhere; an '@' with text before it and
      no other '@' after it; and after it a '.' that is neither the first nor the last character. */
  predicate ValidEmail(s: string)
  {
    && (forall k :: 0 <= k < |s| ==> !IsSpace(s[k]))
    && '@' in s
    && var local := BeforeFirst(s, '@');
       var domain := s[|local| + 1..];
       && |local| > 0
       && '@' !in domain
       && exists j :: 0 < j < |domain| - 1 && domain[j] == '.'
  }

  /** A match of the pattern at `i`, `j` makes the address valid in plain terms. */
  lemma MatchIsValid(s: string, i: int, j: int)
    requires MatchesAt(s, i, j)
    ensures ValidEmail(s)
  {
    assert s[..i] == s[..i];
    BeforeFirstAt(s, '@', i);
    var domain := s[i + 1..];
    assert domain == s[i + 1..j] + [s[j]] + s[j + 1..];
    assert domain[j - (i + 1)] == '.';
    forall k | 0 <= k < |s| ensures !IsSpace(s[k]) {
      if k < i {
        assert s[k] == s[..i][k];
      } else if i < k < j {
        assert s[k] == s[i + 1..j][k - (i + 1)];
      } else if j < k {
        assert s[k] == s[j + 1..][k - (j + 1)];
      }
    }
    forall k | 0 <= k < |domain| ensures domain[k] != '@' {
      if k < j - (i + 1) {
        assert domain[k] == s[i + 1..j][k];
      } else if k > j - (i + 1) {
        assert domain[k] == s[j + 1..][k - (j - i)];
      }
    }
  }

  /** An address valid in plain terms matches the pattern at its '@' and its domain's '.'. */
  lemma ValidMatches(s: string)
    requires ValidEmail(s)
    ensures MatchesEmailPattern(s)
  {
    var local := BeforeFirst(s, '@');
    var i := |local|;
    var domain := s[i + 1..];
    var d :| 0 < d < |domain| - 1 && domain[d] == '.';
    var j := i + 1 + d;
    assert s[..i] == local;
    assert s[i + 1..j] == domain[..d];
    assert s[j + 1..] == domain[d + 1..];
    var before, middle, after := s[..i], s[i + 1..j], s[j + 1..];
    assert IsPart(before) by {
      forall k | 0 <= k < i ensures !IsSpace(before[k]) && before[k] != '@' {
        assert before[k] == s[k];
      }
    }
    assert IsPart(middle) by {
      forall k | 0 <= k < d ensures !IsSpace(middle[k]) && middle[k] != '@' {
        assert middle[k] == s[i + 1 + k] == domain[k];
      }
    }
    assert IsPart(after) by {
      forall k | 0 <= k < |after| ensures !IsSpace(after[k]) && after[k] != '@' {
        assert after[k] == s[j + 1 + k] == domain[d + 1 + k];
      }
    }
    assert MatchesAt(s, i, j);
  }

  /** The pattern accepts exactly the addresses that are valid in plain terms. */
  lemma PatternIffValid(s: string)
    ensures MatchesEmailPattern(s) <==> ValidEmail(s)
  {
    if MatchesEmailPattern(s) {
      var i, j :| 0 <= i < |s| && 0 <= j < |s| && MatchesAt(s, i, j);
      MatchIsValid(s, i, j);
    }
    if ValidEmail(s) {
      ValidMatches(s);
    }
  }

  /** The pattern is tested on the untrimmed address: a space before a well-formed address
      passes the blank check and still fails the pattern. */
  lemma PaddedEmailRejected(s: string)
    requires MatchesEmailPattern(s)
    ensures Trim([' '] + s) != [] && !MatchesEmailPattern([' '] + s)
  {
    var t := [' '] + s;
    var i, j :| 0 <= i < |s| && 0 <= j < |s| && MatchesAt(s, i, j);
    assert !IsSpace(t[1]) by { assert t[1] == s[0] == s[..i][0]; }
    TrimEmptyIffBlank(t);
    PatternIffValid(t);
    assert IsSpace(t[0]);
  }

  const UserNotFoundMessage := "No account exists with this email address"
  const TooManyResetsMessage := "Too many reset attempts. Please try again later."
  const GenericResetMessage := "An error occurred. Please try again."

  /** The message for a rejected reset request. */
  function ResetErrorMessage(code: string): (r: string)
    ensures r != ""
  {
    if code == "auth/user-not-found" then UserNotFoundMessage
    else if code == "auth/invalid-email" then InvalidEmailMessage
    else if code == "auth/too-many-requests" then TooManyResetsMessage
    else GenericResetMessage
  }

  /** Three codes have messages of their own; every other code gets the generic message. */
  lemma ResetErrorMessageCases(code: string)
    ensures ResetErrorMessage(code) == UserNotFoundMessage <==> code == "auth/user-not-found"
    ensures ResetErrorMessage(code) == InvalidEmailMessage <==> code == "auth/invalid-email"
    ensures ResetErrorMessage(code) == TooManyResetsMessage <==> code == "auth/too-many-requests"
    ensures ResetErrorMessage(code) == GenericResetMessage <==>
      code != "auth/user-not-found" && code != "auth/invalid-email" && code != "auth/too-many-requests"
  {
    assert |UserNotFoundMessage| == 41 && |InvalidEmailMessage| == 34;
    assert |TooManyResetsMessage| == 48 && |GenericResetMessage| == 36;
  }

  /** The reset page's state. */
  class ResetPage {
    var email: string
    var error: string
    var success: bool
    var loading: bool

    constructor ()
      ensures email == "" && error == "" && !success && !loading
    {
      email, error, success, loading := "", "", false, false;
    }

    method SetEmail(text: string)
      modifies this
      ensures email == text && error == old(error) && success == old(success) && loading == old(loading)
    {
      email := text;
    }

    /** `handleSubmit`. `sent` stands for what the reset request produces; it is consulted
        only for an address that is not blank and matches the pattern, which `called` reports.
        Every submit starts from no error and no success, and success is set only when the
        request resolves. */
    method Submit(sent: Outcome<()>) returns (called: bool)
      modifies this
      ensures called <==> Trim(old(email)) != [] && MatchesEmailPattern(old(email))
      ensures !loading && email == old(email)
      ensures success <==> called && sent.Ok?
      ensures Trim(old(email)) == [] ==> error == MissingEmailMessage
      ensures Trim(old(email)) != [] && !MatchesEmailPattern(old(email)) ==> error == InvalidEmailMessage
      ensures called && sent.Err? ==> error == ResetErrorMessage(sent.code)
      ensures called && sent.Ok? ==> error == ""
    {
      error := "";
      success := false;
      loading := true;
      if Trim(email) == [] {
        error := MissingEmailMessage;
        loading := false;
        return false;
      }
      if !MatchesEmailPattern(email) {
        error := InvalidEmailMessage;
        loading := false;
        return false;
      }
      called := true;
      match sent {
        case Ok(_) =>
          success := true;
        case Err(code) =>
          error := ResetErrorMessage(code);
      }
      loading := false;
    }
  }
}
