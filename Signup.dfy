/** The sign-up page: `validateForm`, an ordered chain of checks that stops at the first
    failure, and `handleSubmit`, which validates, calls the provider's `signup` and sets
    the page's `error`, `successMessage` and `loading` cells. */
module Signup {
  import opened Types
  import opened JsText
  import opened AuthContext

  const FullNameRequired := "Full name is required"
  const EmailRequired := "Email is required"
  const InvalidEmail := "Please enter a valid email"
  const PasswordTooShort := "Password must be at least 6 characters"
  const PasswordMismatch := "Passwords do not match"
  const MinPasswordLength := 6

  /** A character the class `[^\s@]` matches. */
  predicate IsAddressChar(c: char) {
    !IsSpace(c) && c != '@'
  }

  predicate AllAddressChars(s: string) {
    forall i | 0 <= i < |s| :: IsAddressChar(s[i])
  }

  /** `^[^\s@]+@[^\s@]+\.[^\s@]+$` matches `s` with its `@` at `at` and its `\.` at `dot`. */
  predicate MatchesAt(s: string, at: int, dot: int) {
    && 0 < at && at + 1 < dot && dot + 1 < |s|
    && s[at] == '@' && s[dot] == '.'
    && AllAddressChars(s[..at]) && AllAddressChars(s[at + 1..dot]) && AllAddressChars(s[dot + 1..])
  }

  /** The sign-up e-mail pattern accepts `s`: some split of `s` matches it. */
  predicate IsValidEmail(s: string)
    ensures IsValidEmail(s) ==> |s| >= 5 && '@' in s && '.' in s && !IsSpace(s[0])
  {
    exists at, dot | 0 <= at < |s| && 0 <= dot < |s| :: MatchesAt(s, at, dot)
  }

  /** The one `@` of `s` is at `at`. */
  predicate OnlyAt(s: string, at: int) {
    forall i | 0 <= i < |s| && s[i] == '@' :: i == at
  }

  /** A `.` after `at + 1` that is not the last character. */
  predicate HasInnerDot(s: string, at: int) {
    exists dot | 0 <= at && at + 1 < dot < |s| - 1 :: s[dot] == '.'
  }

  /** The accepted addresses described without the pattern's three parts: no white
      space at all, exactly one `@`, not in first place, and after it a `.` that is
      neither the character right after the `@` nor the last one. */
  predicate WellFormedAddress(s: string) {
    && (forall i | 0 <= i < |s| :: !IsSpace(s[i]))
    && (exists at | 0 < at < |s| :: s[at] == '@' && OnlyAt(s, at) && HasInnerDot(s, at))
  }

  /** The pattern accepts exactly the well-formed addresses. */
  lemma EmailPatternIff(s: string)
    ensures IsValidEmail(s) <==> WellFormedAddress(s)
  {
    if IsValidEmail(s) {
      var at, dot :| 0 <= at < |s| && 0 <= dot < |s| && MatchesAt(s, at, dot);
      forall i | 0 <= i < |s| ensures i == at || IsAddressChar(s[i]) {
        if i < at {
          assert s[i] == s[..at][i];
        } else if at < i < dot {
          assert s[i] == s[at + 1..dot][i - at - 1];
        } else if dot < i {
          assert s[i] == s[dot + 1..][i - dot - 1];
        }
      }
      assert HasInnerDot(s, at);
    }
    if WellFormedAddress(s) {
      var at :| 0 < at < |s| && s[at] == '@' && OnlyAt(s, at) && HasInnerDot(s, at);
      var dot :| at + 1 < dot < |s| - 1 && s[dot] == '.';
      assert AllAddressChars(s[..at]);
      assert AllAddressChars(s[at + 1..dot]);
      assert AllAddressChars(s[dot + 1..]);
      assert MatchesAt(s, at, dot);
    }
  }

  /** An address with a sub-domain is accepted; one without a `.` after the `@`, or
      with white space, is not. */
  lemma EmailExamples()
    ensures IsValidEmail("fan@mail.example.com")
    ensures !IsValidEmail("fan@localhost")
    ensures !IsValidEmail("fan club@mail.com")
  {
    AcceptsSubdomain();
    RejectsBareHost();
    RejectsSpace();
  }

  lemma AcceptsSubdomain()
    ensures IsValidEmail("fan@mail.example.com")
  {
    var s := "fan@mail.example.com";
    assert s[..3] == "fan" && s[4..8] == "mail" && s[9..] == "example.com";
    LowerWordIsAddress("fan");
    LowerWordIsAddress("mail");
    LowerWordIsAddress("example.com");
    assert MatchesAt(s, 3, 8);
  }

  /** Lower-case letters and dots are address characters. */
  lemma LowerWordIsAddress(w: string)
    requires forall j | 0 <= j < |w| :: 'a' <= w[j] <= 'z' || w[j] == '.'
    ensures AllAddressChars(w)
  {
  }

  lemma RejectsBareHost()
    ensures !IsValidEmail("fan@localhost")
  {
    EmailPatternIff("fan@localhost");
    assert !HasInnerDot("fan@localhost", 3);
  }

  lemma RejectsSpace()
    ensures !IsValidEmail("fan club@mail.com")
  {
    EmailPatternIff("fan club@mail.com");
    assert IsSpace("fan club@mail.com"[3]);
  }

  /** `validateForm`: the first failing check's message, or `None` when all pass. The
      checks run in a fixed order: full name, e-mail present, e-mail pattern, password
      length, password confirmation. */
  function ValidateForm(fullName: string, email: string, password: string, confirmPassword: string): (r: Option<string>)
    ensures r.None? <==>
      !IsBlank(fullName) && WellFormedAddress(email) && |password| >= MinPasswordLength
      && password == confirmPassword
    ensures IsBlank(fullName) ==> r == Some(FullNameRequired)
    ensures !IsBlank(fullName) && email == [] ==> r == Some(EmailRequired)
    ensures !IsBlank(fullName) && email != [] && !WellFormedAddress(email) ==> r == Some(InvalidEmail)
    ensures !IsBlank(fullName) && WellFormedAddress(email) && |password| < MinPasswordLength ==>
      r == Some(PasswordTooShort)
    ensures (!IsBlank(fullName) && WellFormedAddress(email) && |password| >= MinPasswordLength
             && password != confirmPassword) ==> r == Some(PasswordMismatch)
  {
    TrimEmptyIffBlank(fullName);
    EmailPatternIff(email);
    if Trim(fullName) == [] then Some(FullNameRequired)
    else if email == [] then Some(EmailRequired)
    else if !IsValidEmail(email) then Some(InvalidEmail)
    else if |password| < MinPasswordLength then Some(PasswordTooShort)
    else if password != confirmPassword then Some(PasswordMismatch)
    else None
  }

  class SignupPage {
    const auth: AuthProvider
    var error: string
    var successMessage: string
    var loading: bool
    /** The `setTimeout` that navigates home has been scheduled. */
    var redirectHomeScheduled: bool

    constructor (auth: AuthProvider)
      ensures this.auth == auth
      ensures error == "" && successMessage == "" && !loading && !redirectHomeScheduled
    {
      this.auth := auth;
      error := "";
      successMessage := "";
      loading := false;
      redirectHomeScheduled := false;
    }

    /** `handleSubmit`. A failed validation reports its message and never reaches the
        provider. Otherwise `signup` runs; its rejection is reported, and its resolution,
        always `undefined`, takes the navigate-home branch, never the confirmation
        message. `loading` ends false in every case, and the provider's own `loading`
        and subscription are untouched. */
    method HandleSubmit(fullName: string, email: string, password: string, confirmPassword: string,
                        signUpError: Option<Thrown>, current: Option<AuthUser>)
      modifies this, auth
      ensures !loading && successMessage == ""
      ensures ValidateForm(fullName, email, password, confirmPassword).Some? ==>
        && error == ValidateForm(fullName, email, password, confirmPassword).value
        && redirectHomeScheduled == old(redirectHomeScheduled)
        && unchanged(auth)
      ensures ValidateForm(fullName, email, password, confirmPassword).None? && signUpError.Some? ==>
        && error == MessageOf(signUpError.value, "Signup failed")
        && redirectHomeScheduled == old(redirectHomeScheduled)
        && auth.user == old(auth.user) && auth.error == Some(error)
      ensures ValidateForm(fullName, email, password, confirmPassword).None? && signUpError.None? ==>
        error == "" && redirectHomeScheduled && auth.user == current && auth.error == None
      ensures auth.loading == old(auth.loading) && auth.subscribed == old(auth.subscribed)
    {
      error := "";
      successMessage := "";
      loading := true;
      var invalid := ValidateForm(fullName, email, password, confirmPassword);
      if invalid.Some? {
        error := invalid.value;
      } else {
        var outcome := auth.Signup(signUpError, current);
        if outcome.Rejected? {
          error := MessageOf(outcome.reason, "Signup failed");
        } else {
          // `signup` resolves to `undefined`, so `result?.needsConfirmation` is falsy.
          redirectHomeScheduled := true;
        }
      }
      loading := false;
    }
  }
}
