/** The login page: `handleSubmit` refuses empty fields before calling the provider's
    `login`, and turns whatever was thrown into the page's `error` and `info` banners by
    substring tests on the message. */
module Login {
  import opened Types
  import opened JsText
  import opened AuthContext

  const FillAllFields := "Please fill in all fields"
  const NotConfirmed := "Your email has not been confirmed yet. Please check your email for the confirmation link."
  const RetryHint := "Didn't receive an email? Try signing up again."
  const IncorrectCredentials := "Email or password is incorrect. Please try again."
  const LoginSucceeded := "Login successful! Redirecting..."

  /** The two message cells of the page. */
  datatype Banners = Banners(error: string, info: string)

  /** The message names an unconfirmed address. */
  predicate SaysUnconfirmed(message: string) {
    Contains(message, "Email not confirmed") || Contains(message, "not verified")
  }

  /** The message names rejected credentials. */
  predicate SaysBadCredentials(message: string) {
    Contains(message, "Invalid login credentials")
  }

  /** The catch block's classification: an unconfirmed address gets its own error and a
      retry hint, checked first; rejected credentials get a friendlier error; any other
      message is shown as it is. */
  function ClassifyLoginError(message: string): (b: Banners)
    ensures b.info != "" <==> SaysUnconfirmed(message)
    ensures SaysUnconfirmed(message) ==> b == Banners(NotConfirmed, RetryHint)
    ensures !SaysUnconfirmed(message) && SaysBadCredentials(message) ==> b == Banners(IncorrectCredentials, "")
    ensures !SaysUnconfirmed(message) && !SaysBadCredentials(message) ==> b == Banners(message, "")
  {
    if SaysUnconfirmed(message) then Banners(NotConfirmed, RetryHint)
    else if SaysBadCredentials(message) then Banners(IncorrectCredentials, "")
    else Banners(message, "")
  }

  /** The page's own empty-fields message matches neither pattern, so it is shown
      verbatim with no hint. */
  lemma FillAllFieldsShownVerbatim()
    ensures ClassifyLoginError(FillAllFields) == Banners(FillAllFields, "")
  {
    FillAllFieldsNotUnconfirmed();
    FillAllFieldsNotBadCredentials();
  }

  /** The empty-fields message has no capital E and no v, so it names no unconfirmed
      address. */
  lemma FillAllFieldsNotUnconfirmed()
    ensures !SaysUnconfirmed(FillAllFields)
  {
    FillAllFieldsLacksCapitalE();
    FillAllFieldsLacksV();
  }

  /** The empty-fields message has no capital I, so it names no rejected credentials. */
  lemma FillAllFieldsNotBadCredentials()
    ensures !SaysBadCredentials(FillAllFields)
  {
    NotContainedWhenCharMissing(FillAllFields, "Invalid login credentials", 'I');
  }

  /** The identity provider's wrong-password message is replaced by the page's own. */
  lemma BadCredentialsMessage()
    ensures ClassifyLoginError("Invalid login credentials") == Banners(IncorrectCredentials, "")
  {
    BadCredentialsNotUnconfirmed();
    assert OccursAt("Invalid login credentials", "Invalid login credentials", 0);
  }

  /** The wrong-password message has no capital E and no f, so it names no unconfirmed
      address. */
  lemma BadCredentialsNotUnconfirmed()
    ensures !SaysUnconfirmed("Invalid login credentials")
  {
    BadCredentialsLacksCapitalE();
    BadCredentialsLacksF();
  }

  /* One needle per lemma, each ruled out by a character the message lacks, so that every
     proof stays small: the empty-fields message has no capital E and no v, the
     wrong-password message no capital E and no f. */

  lemma FillAllFieldsLacksCapitalE()
    ensures !Contains(FillAllFields, "Email not confirmed")
  {
    NotContainedWhenCharMissing(FillAllFields, "Email not confirmed", 'E');
  }

  lemma FillAllFieldsLacksV()
    ensures !Contains(FillAllFields, "not verified")
  {
    NotContainedWhenCharMissing(FillAllFields, "not verified", 'v');
  }

  lemma BadCredentialsLacksCapitalE()
    ensures !Contains("Invalid login credentials", "Email not confirmed")
  {
    NotContainedWhenCharMissing("Invalid login credentials", "Email not confirmed", 'E');
  }

  lemma BadCredentialsLacksF()
    ensures !Contains("Invalid login credentials", "not verified")
  {
    NotContainedWhenCharMissing("Invalid login credentials", "not verified", 'f');
  }

  /** A message that names both an unconfirmed address and bad credentials is treated
      as unconfirmed. */
  lemma UnconfirmedTakesPrecedence(message: string)
    requires SaysUnconfirmed(message) && SaysBadCredentials(message)
    ensures ClassifyLoginError(message).error == NotConfirmed
    ensures ClassifyLoginError(message).error != IncorrectCredentials
  {
  }

  class LoginPage {
    const auth: AuthProvider
    var error: string
    var info: string
    var loading: bool
    /** The `setTimeout` that navigates home has been scheduled. */
    var redirectHomeScheduled: bool

    constructor (auth: AuthProvider)
      ensures this.auth == auth
      ensures error == "" && info == "" && !loading && !redirectHomeScheduled
    {
      this.auth := auth;
      error := "";
      info := "";
      loading := false;
      redirectHomeScheduled := false;
    }

    /** `handleSubmit`. Empty fields are refused without calling `login`; a rejected
        `login` leaves the session's user as it was, records the error in the provider and
        shows the classified message; a resolved one clears the provider's error, shows
        the success note and schedules the redirect. `loading` ends false in every case,
        and the provider's own `loading` and subscription are untouched. */
    method HandleSubmit(email: string, password: string, signInError: Option<Thrown>, current: Option<AuthUser>)
      modifies this, auth
      ensures !loading
      ensures (email == "" || password == "") ==>
        && Banners(error, info) == ClassifyLoginError(FillAllFields)
        && redirectHomeScheduled == old(redirectHomeScheduled)
        && unchanged(auth)
      ensures email != "" && password != "" && signInError.Some? ==>
        && Banners(error, info) == ClassifyLoginError(MessageOf(signInError.value, "Login failed"))
        && redirectHomeScheduled == old(redirectHomeScheduled)
        && auth.user == old(auth.user) && auth.error == Some(MessageOf(signInError.value, "Login failed"))
      ensures email != "" && password != "" && signInError.None? ==>
        && Banners(error, info) == Banners("", LoginSucceeded)
        && redirectHomeScheduled
        && auth.user == current && auth.error == None
      ensures auth.loading == old(auth.loading) && auth.subscribed == old(auth.subscribed)
    {
      error := "";
      info := "";
      loading := true;
      var thrown: Option<Thrown>;
      if email == "" || password == "" {
        thrown := Some(ErrorObject(FillAllFields));
      } else {
        var outcome := auth.Login(signInError, current);
        if outcome.Rejected? {
          thrown := Some(outcome.reason);
        } else {
          info := LoginSucceeded;
          redirectHomeScheduled := true;
          thrown := None;
        }
      }
      if thrown.Some? {
        var banners := ClassifyLoginError(MessageOf(thrown.value, "Login failed"));
        error := banners.error;
        if banners.info != "" {
          info := banners.info;
        }
      }
      loading := false;
    }
  }

  /** Empty fields end with the page's own message and no hint. */
  method SubmitEmptyPassword(page: LoginPage, email: string)
    modifies page, page.auth
    ensures page.error == FillAllFields && page.info == "" && !page.loading
    ensures unchanged(page.auth)
  {
    page.HandleSubmit(email, "", None, None);
    FillAllFieldsShownVerbatim();
  }
}
