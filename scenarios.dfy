/**
 * Whole journeys through the page, its forms and the session store, from a
 * freshly opened page: the forms' submissions are fed to the page's handlers
 * exactly as the rendered components wire them.
 */
module Scenarios {
  import opened Wrappers
  import opened AuthTypes
  import opened Patterns
  import opened FieldRules
  import opened AuthHook
  import opened AuthFlow
  import Signup
  import Login
  import OtpVerification

  /** Email login with a well-formed address and password: the session ends
      signed in under that address, with no error and nothing loading. */
  method EmailLoginJourney() returns (page: AuthPage)
    ensures page.Valid()
    ensures page.authMode == LoginMode
    ensures page.auth.state.user.Some? && page.auth.state.user.value.email == Some("a@b.com")
    ensures page.auth.state.error.None? && !page.auth.state.isLoading
  {
    page := new AuthPage();
    var form := new Login.LoginForm();
    form.HandleInputChange(Login.Email, "a@b.com");
    form.HandleInputChange(Login.Password, "secret1");
    EmailSample();
    var submitted := form.HandleSubmit();
    assert submitted.Some?;
    var _ := page.HandleLogin(submitted.value.0, submitted.value.1, Resolves);
  }

  /** A too-short password never reaches the store: the form's gate passes
      nothing on (so the page's `onSubmit` is never called), the form shows the
      password message and the session is untouched. */
  method ShortPasswordJourney() returns (page: AuthPage, form: Login.LoginForm, submitted: Option<(LoginFormData, LoginMethod)>)
    ensures submitted.None?
    ensures page.auth.state == InitialAuthState
    ensures form.validationErrors == map[Login.Password := PasswordTooShort]
  {
    page := new AuthPage();
    form := new Login.LoginForm();
    form.HandleInputChange(Login.Email, "a@b.com");
    form.HandleInputChange(Login.Password, "abc");
    EmailSample();
    submitted := form.HandleSubmit();
    assert form.validationErrors.Keys == {Login.Password};
  }

  /** A phone signup as typed into the form. */
  const AdaByPhone := SignupFormData("Ada", "Lovelace", "", "+1 555-0100", "", "")

  lemma AdaByPhoneIsValid()
    ensures Signup.SignupValid(AdaByPhone, PhoneSignup)
  {
    assert !IsSpace(AdaByPhone.firstName[0]) && !IsSpace(AdaByPhone.lastName[0]);
  }

  /** The signup form, switched to the phone method and filled in with visible
      names and a well-formed phone, submits exactly what was typed. */
  method PhoneSignupSubmission() returns (submitted: Option<(SignupFormData, SignupMethod)>)
    ensures submitted == Some((AdaByPhone, PhoneSignup))
  {
    var form := new Signup.SignupForm();
    form.HandleMethodChange(PhoneSignup);
    form.HandleInputChange(Signup.FirstName, "Ada");
    form.HandleInputChange(Signup.LastName, "Lovelace");
    form.HandleInputChange(Signup.Phone, "+1 555-0100");
    assert form.formData == AdaByPhone;
    AdaByPhoneIsValid();
    submitted := form.HandleSubmit();
  }

  /** Phone signup: the form's submission moves the page to the OTP card for
      that phone without calling signup, so the session is untouched. */
  method PhoneSignupJourney() returns (page: AuthPage)
    ensures page.Valid()
    ensures page.authMode == OtpMode && page.pendingPhone == "+1 555-0100"
    ensures page.CurrentView() == OtpView("+1 555-0100")
    ensures page.auth.state == InitialAuthState
  {
    page := new AuthPage();
    var submitted := PhoneSignupSubmission();
    var none := page.HandleSignup(submitted.value.0, submitted.value.1, Resolves);
  }

  /** On the OTP card, a well-formed but wrong code passes the card's own
      check and is refused by the store with "Invalid OTP": nobody is signed
      in and the page stays on the OTP card. */
  method WrongCodeJourney(page: AuthPage)
    requires page.Valid() && page.authMode == OtpMode && page.auth.state.user.None?
    modifies page.auth
    ensures page.Valid() && page.authMode == OtpMode
    ensures page.auth.state == AuthState(false, Some("Invalid OTP"), None)
  {
    var card := new OtpVerification.OtpForm(page.pendingPhone);
    assert AllDigits("000000");
    assert SanitizeOtp("000000") == "000000";
    card.HandleOtpChange("000000");
    assert card.otp == "000000" && card.phone == page.pendingPhone;
    var code := card.HandleSubmit();
    assert code == Some(OtpFormData("000000", page.pendingPhone));
    var result := page.HandleOtpVerification(code.value, Resolves);
  }

  /** Back from the OTP card after a phone signup: the signup tab again, the
      pending phone forgotten, the session untouched. */
  method BackFromOtpJourney() returns (page: AuthPage)
    ensures page.Valid()
    ensures page.authMode == SignupMode && page.pendingPhone == ""
    ensures page.CurrentView() == TabsView(SignupMode)
    ensures page.auth.state == InitialAuthState
  {
    page := new AuthPage();
    var _ := page.HandleSignup(SignupFormData("Ada", "Lovelace", "", "555", "", ""), PhoneSignup, Resolves);
    page.HandleBackToSignup();
  }
}
