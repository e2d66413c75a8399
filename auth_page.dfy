/**
 The sign-in page: which view it shows for its flags and the auth state, and
 the handlers and the onboarding check that flip those flags. The signed-in
 user and the auth loading flag come from the auth provider and are inputs.
 */
module AuthPage {
  import opened Text
  import opened Backend

  /** The flags the page's view depends on. */
  datatype Flags = Flags(
    isSignUp: bool, isForgotPassword: bool, resetSent: bool,
    onboardingChecked: bool, onboardingCompleted: bool, justSignedUp: bool)

  /** What the page renders. */
  datatype View =
    | Spinner
    | Redirect(to: string)
    /** The wizard, with the "already have an account" link when nobody is signed in. */
    | WizardView(haveAccountLink: bool)
    /** The forgot-password card: the email form, or the "email sent" panel. */
    | ForgotPanel(resetSent: bool)
    /** The login form, with the "create a new account" link below it. */
    | LoginForm

  const HomePath := "/"
  const NewSignupPath := "/?new_signup=true"

  /** The page's render decision. The spinner takes precedence over
      everything; a signed-in user whose onboarding is complete is always
      redirected; only then do the sign-up and forgot-password flags pick
      the card. */
  function Render(f: Flags, userPresent: bool, authLoading: bool): (v: View)
    ensures v == Spinner <==> authLoading || !f.onboardingChecked
    ensures v.Redirect? <==> !authLoading && f.onboardingChecked && userPresent && f.onboardingCompleted
    ensures v.Redirect? ==> v.to == (if f.justSignedUp then NewSignupPath else HomePath)
    ensures v.WizardView? <==> !v.Spinner? && !v.Redirect? && f.isSignUp
    ensures v.WizardView? ==> (v.haveAccountLink <==> !userPresent)
    ensures v.ForgotPanel? <==> !v.Spinner? && !v.Redirect? && !f.isSignUp && f.isForgotPassword
    ensures v.ForgotPanel? ==> v.resetSent == f.resetSent
    ensures v == LoginForm <==> !v.Spinner? && !v.Redirect? && !f.isSignUp && !f.isForgotPassword
  {
    if authLoading || !f.onboardingChecked then Spinner
    else if userPresent && f.onboardingCompleted then
      Redirect(if f.justSignedUp then NewSignupPath else HomePath)
    else if f.isSignUp then WizardView(!userPresent)
    else if f.isForgotPassword then ForgotPanel(f.resetSent)
    else LoginForm
  }

  /** The "create a new account" link is rendered exactly when the login form is. */
  predicate CreateAccountLinkShown(v: View)
  {
    v == LoginForm
  }

  /** The link is never shown while the forgot-password flag is set, nor
      before the onboarding check has finished. */
  lemma CreateAccountLinkOnlyOnLogin(f: Flags, userPresent: bool, authLoading: bool)
    ensures CreateAccountLinkShown(Render(f, userPresent, authLoading)) ==>
      !f.isForgotPassword && !f.isSignUp && f.onboardingChecked && !authLoading
  {
  }

  /** The `onboarding_completed` column of a `profiles` row; it is nullable. */
  datatype ProfileRow = ProfileRow(onboardingCompleted: Option<bool>)

  /** What the onboarding check concludes from the row it read (`None` when
      there is no row, or when the query reported an error and so gave no
      data): the completed flag, `false` unless stored as true, and whether
      the wizard must be forced. */
  datatype Onboarding = Onboarding(completed: bool, forceSignUp: bool)

  function OnboardingOf(data: Option<ProfileRow>): (o: Onboarding)
    ensures o.completed <==> data == Some(ProfileRow(Some(true)))
    ensures o.forceSignUp <==> data.Some? && !o.completed
  {
    match data
    case None => Onboarding(false, false)
    case Some(row) => Onboarding(row.onboardingCompleted == Some(true), row.onboardingCompleted != Some(true))
  }

  /** A missing row does not force the wizard; a row that is not marked
      completed, with a null flag or a false one, does. */
  lemma OnboardingRowCases(flag: Option<bool>)
    ensures OnboardingOf(None) == Onboarding(false, false)
    ensures OnboardingOf(Some(ProfileRow(flag))) ==
      (if flag == Some(true) then Onboarding(true, false) else Onboarding(false, true))
  {
  }

  /** The notices the page shows. */
  datatype Notice = ProvideEmail | ErrorMessage(text: string) | ResetLinkSent

  /** What the page asks of the outside world, in order. */
  datatype Effect =
    | ProfileQuery(userId: string)
    | SignIn(email: string, password: string)
    | ResetPassword(email: string)
    | Toast(notice: Notice)

  /** The notice that follows a reset call; none when it threw. */
  function ResetNotices(reply: Reply<Status>): (ns: seq<Effect>)
    ensures |ns| <= 1
    ensures ns == [] <==> reply.Throws?
    ensures ns == [Toast(ResetLinkSent)] <==> reply == Returns(Ok)
    ensures reply.Returns? && reply.value.Failed? ==> ns == [Toast(ErrorMessage(reply.value.message))]
  {
    match reply
    case Throws(_) => []
    case Returns(Ok) => [Toast(ResetLinkSent)]
    case Returns(Failed(m)) => [Toast(ErrorMessage(m))]
  }

  class Page {
    var isSignUp: bool
    var isForgotPassword: bool
    var loading: bool
    var email: string
    var password: string
    var resetSent: bool
    var onboardingChecked: bool
    var onboardingCompleted: bool
    var justSignedUp: bool
    /** Calls and notices issued so far, oldest first. */
    var effects: seq<Effect>

    function CurrentFlags(): (f: Flags)
      reads this
      ensures f.isSignUp == isSignUp && f.isForgotPassword == isForgotPassword
      ensures f.resetSent == resetSent && f.onboardingChecked == onboardingChecked
      ensures f.onboardingCompleted == onboardingCompleted && f.justSignedUp == justSignedUp
    {
      Flags(isSignUp, isForgotPassword, resetSent, onboardingChecked, onboardingCompleted, justSignedUp)
    }

    /** A fresh page: login form, nothing checked yet, so the spinner shows. */
    constructor ()
      ensures !isSignUp && !isForgotPassword && !loading && email == "" && password == ""
      ensures !resetSent && !onboardingChecked && !onboardingCompleted && !justSignedUp
      ensures effects == []
      ensures forall u: bool, a: bool :: Render(CurrentFlags(), u, a) == Spinner
    {
      isSignUp, isForgotPassword, loading := false, false, false;
      email, password := "", "";
      resetSent, onboardingChecked, onboardingCompleted, justSignedUp := false, false, false, false;
      effects := [];
    }

    /** The onboarding check, run whenever the signed-in user changes. With
        nobody signed in it finishes at once without a query; otherwise it
        reads the user's row. An exception from the query escapes the check
        and changes no flag, so the page stays checked if an earlier run
        checked it. */
    method CheckOnboarding(user: Option<SessionUser>, reply: Reply<Option<ProfileRow>>)
      modifies this
      ensures user.None? ==> effects == old(effects) && onboardingChecked
                             && onboardingCompleted == old(onboardingCompleted) && isSignUp == old(isSignUp)
      ensures user.Some? ==> effects == old(effects) + [ProfileQuery(user.value.id)]
      ensures user.Some? && reply.Throws? ==>
        onboardingChecked == old(onboardingChecked) && onboardingCompleted == old(onboardingCompleted)
        && isSignUp == old(isSignUp)
      ensures user.Some? && reply.Returns? ==>
        onboardingChecked && onboardingCompleted == OnboardingOf(reply.value).completed
        && isSignUp == (old(isSignUp) || OnboardingOf(reply.value).forceSignUp)
      ensures user.Some? && reply.Returns? && reply.value.Some? && reply.value.value.onboardingCompleted != Some(true) ==>
        Render(CurrentFlags(), true, false) == WizardView(false)
      ensures user.Some? && reply == Returns(Some(ProfileRow(Some(true)))) ==>
        Render(CurrentFlags(), true, false).Redirect?
      ensures isForgotPassword == old(isForgotPassword) && loading == old(loading) && email == old(email)
      ensures password == old(password) && resetSent == old(resetSent) && justSignedUp == old(justSignedUp)
    {
      match user {
        case None =>
          onboardingChecked := true;
        case Some(u) =>
          effects := effects + [ProfileQuery(u.id)];
          match reply {
            case Throws(_) =>
            case Returns(data) =>
              var o := OnboardingOf(data);
              onboardingCompleted := o.completed;
              onboardingChecked := true;
              if o.forceSignUp {
                isSignUp := true;
              }
          }
      }
    }

    /** Typing in the email field. */
    method SetEmail(e: string)
      modifies this
      ensures email == e
      ensures isSignUp == old(isSignUp) && isForgotPassword == old(isForgotPassword) && loading == old(loading)
      ensures password == old(password) && resetSent == old(resetSent) && effects == old(effects)
      ensures CurrentFlags() == old(CurrentFlags())
    {
      email := e;
    }

    /** Typing in the password field. */
    method SetPassword(p: string)
      modifies this
      ensures password == p
      ensures isSignUp == old(isSignUp) && isForgotPassword == old(isForgotPassword) && loading == old(loading)
      ensures email == old(email) && resetSent == old(resetSent) && effects == old(effects)
      ensures CurrentFlags() == old(CurrentFlags())
    {
      password := p;
    }

    /** Submitting the login form: one sign-in call with the fields as typed;
        a returned error is shown. An exception escapes the handler and
        leaves the page loading. */
    method EmailLogin(reply: Reply<Status>)
      modifies this
      ensures effects == old(effects) + [SignIn(old(email), old(password))] +
        (if reply.Returns? && reply.value.Failed? then [Toast(ErrorMessage(reply.value.message))] else [])
      ensures loading <==> reply.Throws?
      ensures CurrentFlags() == old(CurrentFlags())
      ensures email == old(email) && password == old(password)
    {
      loading := true;
      effects := effects + [SignIn(email, password)];
      match reply {
        case Throws(_) =>
        case Returns(status) =>
          if status.Failed? {
            effects := effects + [Toast(ErrorMessage(status.message))];
          }
          loading := false;
      }
    }

    /** Sending the reset link. A blank email (after trimming) is refused with
        a notice and no call; otherwise the trimmed email is sent, and only a
        reply without error marks the link as sent. */
    method ForgotPassword(reply: Reply<Status>)
      modifies this
      ensures Trim(old(email)) == "" ==>
        effects == old(effects) + [Toast(ProvideEmail)] && resetSent == old(resetSent) && loading == old(loading)
      ensures Trim(old(email)) != "" ==> (loading <==> reply.Throws?)
      ensures Trim(old(email)) != "" ==>
        effects == old(effects) + [ResetPassword(Trim(old(email)))] + ResetNotices(reply)
      ensures resetSent <==> old(resetSent) || (Trim(old(email)) != "" && reply == Returns(Ok))
      ensures isSignUp == old(isSignUp) && isForgotPassword == old(isForgotPassword)
      ensures onboardingChecked == old(onboardingChecked) && onboardingCompleted == old(onboardingCompleted)
      ensures justSignedUp == old(justSignedUp) && email == old(email) && password == old(password)
    {
      var trimmed := Trim(email);
      if trimmed == "" {
        effects := effects + [Toast(ProvideEmail)];
        return;
      }
      loading := true;
      effects := effects + [ResetPassword(trimmed)];
      match reply {
        case Throws(_) =>
        case Returns(Failed(m)) =>
          effects := effects + [Toast(ErrorMessage(m))];
          loading := false;
        case Returns(Ok) =>
          resetSent := true;
          effects := effects + [Toast(ResetLinkSent)];
          loading := false;
      }
    }

    /** "Back to login" on the forgot-password card. */
    method BackToLogin()
      modifies this
      ensures !isForgotPassword && !resetSent
      ensures isSignUp == old(isSignUp) && onboardingChecked == old(onboardingChecked)
      ensures onboardingCompleted == old(onboardingCompleted) && justSignedUp == old(justSignedUp)
      ensures loading == old(loading) && email == old(email) && password == old(password) && effects == old(effects)
      ensures forall u: bool, a: bool :: Render(old(CurrentFlags()), u, a).ForgotPanel? ==> Render(CurrentFlags(), u, a) == LoginForm
    {
      isForgotPassword := false;
      resetSent := false;
    }

    /** "Forgot password?" on the login form. */
    method OpenForgotPassword()
      modifies this
      ensures isForgotPassword
      ensures isSignUp == old(isSignUp) && resetSent == old(resetSent) && onboardingChecked == old(onboardingChecked)
      ensures onboardingCompleted == old(onboardingCompleted) && justSignedUp == old(justSignedUp)
      ensures loading == old(loading) && email == old(email) && password == old(password) && effects == old(effects)
      ensures forall u: bool, a: bool :: Render(old(CurrentFlags()), u, a) == LoginForm ==> Render(CurrentFlags(), u, a) == ForgotPanel(resetSent)
    {
      isForgotPassword := true;
    }

    /** "Create a new account" below the login form. */
    method OpenSignUp()
      modifies this
      ensures isSignUp
      ensures isForgotPassword == old(isForgotPassword) && resetSent == old(resetSent) && onboardingChecked == old(onboardingChecked)
      ensures onboardingCompleted == old(onboardingCompleted) && justSignedUp == old(justSignedUp)
      ensures loading == old(loading) && email == old(email) && password == old(password) && effects == old(effects)
      ensures forall u: bool, a: bool :: Render(old(CurrentFlags()), u, a) == LoginForm ==> Render(CurrentFlags(), u, a) == WizardView(!u)
    {
      isSignUp := true;
    }

    /** "Already have an account? Log in" below the wizard (the same
        transition is handed to the wizard as its back-to-login callback,
        which the wizard never invokes). */
    method HaveAccount()
      modifies this
      ensures !isSignUp
      ensures isForgotPassword == old(isForgotPassword) && resetSent == old(resetSent) && onboardingChecked == old(onboardingChecked)
      ensures onboardingCompleted == old(onboardingCompleted) && justSignedUp == old(justSignedUp)
      ensures loading == old(loading) && email == old(email) && password == old(password) && effects == old(effects)
    {
      isSignUp := false;
    }

    /** The wizard reports that onboarding is complete: a signed-in user is
        then redirected to the home page with the new-signup marker. */
    method WizardCompleted()
      modifies this
      ensures onboardingCompleted && justSignedUp
      ensures isSignUp == old(isSignUp) && isForgotPassword == old(isForgotPassword) && resetSent == old(resetSent)
      ensures onboardingChecked == old(onboardingChecked)
      ensures loading == old(loading) && email == old(email) && password == old(password) && effects == old(effects)
      ensures onboardingChecked ==> Render(CurrentFlags(), true, false) == Redirect(NewSignupPath)
    {
      onboardingCompleted := true;
      justSignedUp := true;
    }
  }

  /** A check that ran while nobody was signed in leaves the page checked;
      if the profile query for the user who then signs in throws, no flag
      changes, so that signed-in user sees the login form. */
  method ThrownQueryAfterSignedOutCheck(u: SessionUser, m: string) returns (p: Page)
    ensures p.onboardingChecked && !p.onboardingCompleted
    ensures Render(p.CurrentFlags(), true, false) == LoginForm
  {
    p := new Page();
    p.CheckOnboarding(None, Returns(None));
    p.CheckOnboarding(Some(u), Throws(m));
  }
}
