/** The session provider: three state cells, `user`, `loading` and `error`, set step by
    step by the start-up session check, the auth-change subscription and the four
    actions the pages call. The identity service never throws (it reports failures as
    an `error` field or a `null` profile), so each gateway answer is a parameter. */
module AuthContext {
  import opened Types

  class AuthProvider {
    var user: Option<AuthUser>
    var loading: bool
    var error: Option<string>
    /** The auth-change subscription is registered and not yet cancelled. */
    var subscribed: bool

    /** First render: no user, still loading, no error, nothing subscribed yet. */
    constructor ()
      ensures user == None && loading && error == None && !subscribed
    {
      user := None;
      loading := true;
      error := None;
      subscribed := false;
    }

    /** The mount effect: starts the session check and registers the auth-change
        callback; neither changes a state cell until it is called back. */
    method Mount()
      modifies this
      ensures subscribed
      ensures user == old(user) && loading == old(loading) && error == old(error)
    {
      subscribed := true;
    }

    /** `checkAuth` settling: `current` is what `getCurrentUser` resolved to (`None` when
        there is no session, the profile lookup failed, or the call errored).
        `loading` is cleared in every case. */
    method RestoreSettled(current: Option<AuthUser>)
      modifies this
      ensures user == current && !loading
      ensures error == old(error) && subscribed == old(subscribed)
    {
      user := current;
      loading := false;
    }

    /** The auth-change callback: replaces `user` while subscribed; after the cleanup
        has unsubscribed, the callback is no longer delivered. */
    method AuthStateChanged(authUser: Option<AuthUser>)
      modifies this
      ensures user == if old(subscribed) then authUser else old(user)
      ensures loading == old(loading) && error == old(error) && subscribed == old(subscribed)
    {
      if subscribed {
        user := authUser;
      }
    }

    /** The effect's cleanup: `subscription.unsubscribe()`. */
    method Unmount()
      modifies this
      ensures !subscribed
      ensures user == old(user) && loading == old(loading) && error == old(error)
    {
      subscribed := false;
    }

    /** `login`: clears `error`; a sign-in error is recorded and rethrown without touching
        `user`; otherwise `user` becomes the profile fetched after sign-in. */
    method Login(signInError: Option<Thrown>, current: Option<AuthUser>) returns (outcome: Outcome)
      modifies this
      ensures signInError.Some? ==>
        outcome == Rejected(signInError.value) && user == old(user)
        && error == Some(MessageOf(signInError.value, "Login failed"))
      ensures signInError.None? ==> outcome == Resolved && user == current && error == None
      ensures loading == old(loading) && subscribed == old(subscribed)
    {
      error := None;
      if signInError.Some? {
        error := Some(MessageOf(signInError.value, "Login failed"));
        outcome := Rejected(signInError.value);
        return;
      }
      user := current;
      outcome := Resolved;
    }

    /** `signup`: the same shape as `login`; it resolves to nothing, so a caller never
        learns whether the address still needs confirming. On success `user` becomes
        the refetched profile, which is `None` while the address is unconfirmed. */
    method Signup(signUpError: Option<Thrown>, current: Option<AuthUser>) returns (outcome: Outcome)
      modifies this
      ensures signUpError.Some? ==>
        outcome == Rejected(signUpError.value) && user == old(user)
        && error == Some(MessageOf(signUpError.value, "Signup failed"))
      ensures signUpError.None? ==> outcome == Resolved && user == current && error == None
      ensures loading == old(loading) && subscribed == old(subscribed)
    {
      error := None;
      if signUpError.Some? {
        error := Some(MessageOf(signUpError.value, "Signup failed"));
        outcome := Rejected(signUpError.value);
        return;
      }
      user := current;
      outcome := Resolved;
    }

    /** `logout`: the sign-out call reports its error by return value, which is ignored,
        so the provider always ends signed out with no error. */
    method Logout(signOutError: Option<Thrown>) returns (outcome: Outcome)
      modifies this
      ensures outcome == Resolved && user == None && error == None
      ensures loading == old(loading) && subscribed == old(subscribed)
    {
      error := None;
      user := None;
      outcome := Resolved;
    }

    /** `updateProfile`: with nobody signed in it fails with 'No user logged in' before
        any gateway call; otherwise the update's own result is ignored and `user` is
        replaced wholesale by the refetched profile. */
    method UpdateProfile(updateError: Option<Thrown>, refetched: Option<AuthUser>) returns (outcome: Outcome)
      modifies this
      ensures old(user).None? ==>
        outcome == Rejected(ErrorObject("No user logged in")) && user == None
        && error == Some("No user logged in")
      ensures old(user).Some? ==> outcome == Resolved && user == refetched && error == None
      ensures loading == old(loading) && subscribed == old(subscribed)
    {
      error := None;
      if user.None? {
        var err := ErrorObject("No user logged in");
        error := Some(MessageOf(err, "Update failed"));
        outcome := Rejected(err);
        return;
      }
      user := refetched;
      outcome := Resolved;
    }
  }

  /** The provider's whole start-up: mount, then the session check settles. Whatever the
      check finds, loading is over and the callback is live. */
  method StartUp(current: Option<AuthUser>) returns (auth: AuthProvider)
    ensures fresh(auth)
    ensures auth.user == current && !auth.loading && auth.error == None && auth.subscribed
  {
    auth := new AuthProvider();
    auth.Mount();
    auth.RestoreSettled(current);
  }

  /** A failed login after a successful one keeps the first session: the failure only
      records its message. */
  method LoginThenFailedLogin(auth: AuthProvider, profile: AuthUser, message: string)
    modifies auth
    ensures auth.user == Some(profile)
    ensures auth.error == Some(message)
  {
    var first := auth.Login(None, Some(profile));
    var second := auth.Login(Some(ErrorObject(message)), None);
  }
}
