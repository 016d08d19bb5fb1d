/**
 * The login form (src/components/auth/loginForm.tsx): its validator, the OTP
 * input sanitiser it applies, and the state cells it keeps -- the chosen
 * method, the field values and the per-field validation messages.
 */
module Login {
  import opened Wrappers
  import opened AuthTypes
  import opened Patterns
  import opened FieldRules

  /** The keys of LoginFormData, which also key the validation messages. */
  datatype LoginField = Email | Password | Phone | Otp

  function FieldValue(d: LoginFormData, f: LoginField): string
  {
    match f
    case Email => d.email
    case Password => d.password
    case Phone => d.phone
    case Otp => d.otp
  }

  /** `{ ...prev, [field]: value }`: the named field takes the new value and
      every other field keeps its old one. */
  function WithField(d: LoginFormData, f: LoginField, value: string): (r: LoginFormData)
    ensures FieldValue(r, f) == value
    ensures forall g | g != f :: FieldValue(r, g) == FieldValue(d, g)
  {
    match f
    case Email => d.(email := value)
    case Password => d.(password := value)
    case Phone => d.(phone := value)
    case Otp => d.(otp := value)
  }

  /** What a submittable login form looks like, apart from the validator: by
      email, an email matching the pattern and a password of at least six
      characters; by OTP, a phone matching the pattern and a six-digit code. */
  predicate LoginValid(d: LoginFormData, m: LoginMethod)
  {
    match m
    case EmailLogin => EmailPattern(d.email) && |d.password| >= MinPasswordLength
    case OtpLogin => PhonePattern(d.phone) && SixDigits(d.otp)
  }

  /** The email method's checks: email, then password. */
  function EmailMethodErrors(d: LoginFormData): (errs: map<LoginField, Message>)
    ensures Phone !in errs && Otp !in errs
    ensures Email in errs <==> !EmailPattern(d.email)
    ensures Email in errs ==> errs[Email] == if d.email == "" then EmailRequired else EmailInvalid
    ensures Password in errs <==> |d.password| < MinPasswordLength
    ensures Password in errs ==> errs[Password] == if d.password == "" then PasswordRequired else PasswordTooShort
  {
    Note(Note(map[], Email, EmailError(d.email)), Password, PasswordError(d.password))
  }

  /** The OTP method's checks: phone, then the code, whose three checks run in
      order (missing, wrong length, not all digits). */
  function OtpMethodErrors(d: LoginFormData): (errs: map<LoginField, Message>)
    ensures Email !in errs && Password !in errs
    ensures Phone in errs <==> !PhonePattern(d.phone)
    ensures Phone in errs ==> errs[Phone] == if d.phone == "" then PhoneRequired else PhoneInvalid
    ensures Otp in errs <==> !SixDigits(d.otp)
    ensures Otp in errs ==>
      errs[Otp] == (if d.otp == "" then OtpRequired else if |d.otp| != OtpLength then OtpWrongLength else OtpNotNumeric)
  {
    Note(Note(map[], Phone, PhoneError(d.phone)), Otp, OtpError(d.otp))
  }

  /** `validateForm`'s error map. Only the chosen method's two fields can
      receive a message, each at most one, as stated field by field. */
  function LoginErrors(d: LoginFormData, m: LoginMethod): (errs: map<LoginField, Message>)
    ensures m == EmailLogin ==> Phone !in errs && Otp !in errs
    ensures m == OtpLogin ==> Email !in errs && Password !in errs
    ensures Email in errs <==> m == EmailLogin && !EmailPattern(d.email)
    ensures Password in errs <==> m == EmailLogin && |d.password| < MinPasswordLength
    ensures Phone in errs <==> m == OtpLogin && !PhonePattern(d.phone)
    ensures Otp in errs <==> m == OtpLogin && !SixDigits(d.otp)
    ensures m == EmailLogin ==> errs == EmailMethodErrors(d)
    ensures m == OtpLogin ==> errs == OtpMethodErrors(d)
  {
    if m == EmailLogin then EmailMethodErrors(d)
    else
      assert m == OtpLogin;
      OtpMethodErrors(d)
  }

  /** `Object.keys(errors).length === 0` holds exactly for the submittable forms. */
  lemma LoginValidIff(d: LoginFormData, m: LoginMethod)
    ensures |LoginErrors(d, m)| == 0 <==> LoginValid(d, m)
  {
  }

  class LoginForm {
    var loginMethod: LoginMethod
    var formData: LoginFormData
    var validationErrors: map<LoginField, Message>

    /** The form opens on the email method, with every field empty and no messages. */
    constructor ()
      ensures loginMethod == EmailLogin && formData == EmptyLoginForm && validationErrors == map[]
    {
      loginMethod := EmailLogin;
      formData := EmptyLoginForm;
      validationErrors := map[];
    }

    /** Re-validates the chosen method's fields, shows the resulting messages,
        and reports whether the form may be submitted. */
    method ValidateForm() returns (ok: bool)
      modifies this`validationErrors
      ensures validationErrors == LoginErrors(formData, loginMethod)
      ensures ok <==> LoginValid(formData, loginMethod)
    {
      validationErrors := LoginErrors(formData, loginMethod);
      ok := |validationErrors| == 0;
      LoginValidIff(formData, loginMethod);
    }

    /** Submission passes the form data and method on only when validation
        succeeds; a failed validation passes nothing on. */
    method HandleSubmit() returns (submitted: Option<(LoginFormData, LoginMethod)>)
      modifies this`validationErrors
      ensures validationErrors == LoginErrors(formData, loginMethod)
      ensures submitted == if LoginValid(formData, loginMethod) then Some((formData, loginMethod)) else None
    {
      var ok := ValidateForm();
      if !ok {
        return None;
      }
      submitted := Some((formData, loginMethod));
    }

    /** Typing into `field` stores the new value there and drops that field's
        message only. */
    method HandleInputChange(field: LoginField, value: string)
      modifies this`formData, this`validationErrors
      ensures formData == WithField(old(formData), field, value)
      ensures validationErrors == old(validationErrors) - {field}
    {
      formData := WithField(formData, field, value);
      if field in validationErrors && Text(validationErrors[field]) != "" {
        validationErrors := validationErrors - {field};
      }
    }

    /** Switching method keeps the field values and clears every message. */
    method HandleMethodChange(m: LoginMethod)
      modifies this`loginMethod, this`validationErrors
      ensures loginMethod == m && validationErrors == map[]
    {
      loginMethod := m;
      validationErrors := map[];
    }

    /** Typing into the OTP box stores the sanitised text (digits only, at
        most six) and drops the OTP message only. */
    method HandleOtpChange(raw: string)
      modifies this`formData, this`validationErrors
      ensures formData == old(formData).(otp := SanitizeOtp(raw))
      ensures AllDigits(formData.otp) && |formData.otp| <= OtpLength
      ensures validationErrors == old(validationErrors) - {Otp}
    {
      var value := SanitizeOtp(raw);
      formData := formData.(otp := value);
      if Otp in validationErrors && Text(validationErrors[Otp]) != "" {
        validationErrors := validationErrors - {Otp};
      }
    }
  }
}
