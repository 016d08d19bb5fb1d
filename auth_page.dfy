/**
 * The auth page (src/app/auth/page.tsx): two state cells -- the view mode and
 * the phone awaiting a code -- the handlers that move between the login,
 * signup and OTP views, and the choice of what to show.
 */
module AuthFlow {
  import opened Wrappers
  import opened AuthTypes
  import opened AuthHook

  /** What the page renders: the OTP card for a phone, or the tabbed card
      with a given tab value. */
  datatype View = OtpView(phone: string) | TabsView(tab: AuthMode)

  /** The two tab panels the tabbed card declares. */
  datatype Panel = LoginPanel | SignupPanel

  /** The panel the tabbed card shows for its tab value: the login form for
      "login", the signup form for "signup", and no panel otherwise -- "email"
      has a button but no panel of its own. */
  function PanelFor(tab: AuthMode): (p: Option<Panel>)
    ensures p == Some(LoginPanel) <==> tab == LoginMode
    ensures p == Some(SignupPanel) <==> tab == SignupMode
    ensures p.None? <==> tab == OtpMode || tab == EmailMode
  {
    match tab
    case LoginMode => Some(LoginPanel)
    case SignupMode => Some(SignupPanel)
    case _ => None
  }

  class AuthPage {
    var authMode: AuthMode
    var pendingPhone: string
    const auth: AuthStore

    /** The OTP view is only ever entered with a phone to verify, and the
        session store is between actions. */
    ghost predicate Valid()
      reads this, auth
    {
      && (authMode == OtpMode ==> pendingPhone != "")
      && auth.Valid()
    }

    /** The page opens on the login tab with no pending phone and a fresh session. */
    constructor ()
      ensures authMode == LoginMode && pendingPhone == ""
      ensures fresh(auth) && auth.state == InitialAuthState
      ensures Valid()
    {
      authMode := LoginMode;
      pendingPhone := "";
      auth := new AuthStore();
    }

    /** Only mode "otp" shows the OTP card, always for the pending phone;
        every other mode -- "email" included -- shows the tabbed card. */
    function CurrentView(): (v: View)
      reads this
      ensures v.OtpView? <==> authMode == OtpMode
      ensures v.OtpView? ==> v.phone == pendingPhone
      ensures v.TabsView? ==> v.tab == authMode && (PanelFor(v.tab).None? <==> authMode == EmailMode)
    {
      if authMode == OtpMode then OtpView(pendingPhone) else TabsView(authMode)
    }

    /** A login hands the form data to the session store; the page's own
        cells stay as they were. */
    method HandleLogin(data: LoginFormData, m: LoginMethod, b: Backend) returns (result: AuthResponse)
      requires Valid()
      modifies auth
      ensures Valid()
      ensures authMode == old(authMode) && pendingPhone == old(pendingPhone)
      ensures result == Respond(LoginOutcome(data, b))
      ensures auth.state == Settle(old(auth.state), LoginOutcome(data, b))
    {
      result := auth.Login(data, b);
    }

    /** A phone signup with a phone moves to the OTP view for that phone and
        does not reach the session store; any other signup goes to the store
        and leaves the view where it was. */
    method HandleSignup(data: SignupFormData, m: SignupMethod, b: Backend) returns (result: Option<AuthResponse>)
      requires Valid()
      modifies this, auth
      ensures Valid()
      ensures m == PhoneSignup && data.phone != "" ==>
        && authMode == OtpMode && pendingPhone == data.phone
        && result.None? && auth.state == old(auth.state) && auth.history == old(auth.history)
      ensures !(m == PhoneSignup && data.phone != "") ==>
        && authMode == old(authMode) && pendingPhone == old(pendingPhone)
        && result == Some(Respond(SignupOutcome(data, b)))
        && auth.state == Settle(old(auth.state), SignupOutcome(data, b))
    {
      if m == PhoneSignup && data.phone != "" {
        pendingPhone := data.phone;
        authMode := OtpMode;
        result := None;
      } else {
        var r := auth.Signup(data, b);
        result := Some(r);
      }
    }

    /** The OTP card's submission goes to the session store; the page stays
        on the OTP view whatever the outcome. */
    method HandleOtpVerification(data: OtpFormData, b: Backend) returns (result: AuthResponse)
      requires Valid()
      modifies auth
      ensures Valid()
      ensures authMode == old(authMode) && pendingPhone == old(pendingPhone)
      ensures result == Respond(VerifyOtpOutcome(data, b))
      ensures auth.state == Settle(old(auth.state), VerifyOtpOutcome(data, b))
    {
      result := auth.VerifyOtp(data, b);
    }

    method HandleGoogleLogin(b: Backend) returns (result: AuthResponse)
      requires Valid()
      modifies auth
      ensures Valid()
      ensures authMode == old(authMode) && pendingPhone == old(pendingPhone)
      ensures result == Respond(GoogleOutcome(b))
      ensures auth.state == Settle(old(auth.state), GoogleOutcome(b))
    {
      result := auth.GoogleLogin(b);
    }

    /** Resending only names the pending phone (to the log); nothing changes. */
    method HandleResendOtp() returns (target: string)
      requires Valid()
      ensures authMode == OtpMode ==> target != ""
      ensures target == pendingPhone
    {
      target := pendingPhone;
    }

    /** Back from the OTP card: always the signup tab, and the pending phone is
        forgotten -- from any state, a request in flight included, since the
        back button is never disabled. */
    method HandleBackToSignup()
      modifies this`authMode, this`pendingPhone
      ensures authMode == SignupMode && pendingPhone == ""
      ensures Valid() <==> auth.Valid()
    {
      authMode := SignupMode;
      pendingPhone := "";
    }

    /** A tab trigger: the tab list offers only "login" and "signup". */
    method SelectTab(value: AuthMode)
      requires Valid()
      requires value == LoginMode || value == SignupMode
      modifies this`authMode
      ensures authMode == value
      ensures Valid()
    {
      authMode := value;
    }

    /** The "Email" button: mode "email", which keeps the tabbed card. */
    method ChooseEmail()
      requires Valid()
      modifies this`authMode
      ensures authMode == EmailMode && CurrentView() == TabsView(EmailMode)
      ensures Valid()
    {
      authMode := EmailMode;
    }
  }
}
