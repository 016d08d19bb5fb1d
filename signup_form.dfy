/**
 * The signup form (src/components/auth/signupForm.tsx): its validator and the
 * state cells it keeps -- the chosen method, the field values and the
 * per-field validation messages.
 */
module Signup {
  import opened Wrappers
  import opened AuthTypes
  import opened Patterns
  import opened FieldRules

  /** The keys of SignupFormData, which also key the validation messages. */
  datatype SignupField = FirstName | LastName | Email | Phone | Password | ConfirmPassword

  function FieldValue(d: SignupFormData, f: SignupField): string
  {
    match f
    case FirstName => d.firstName
    case LastName => d.lastName
    case Email => d.email
    case Phone => d.phone
    case Password => d.password
    case ConfirmPassword => d.confirmPassword
  }

  /** `{ ...prev, [field]: value }`: the named field takes the new value and
      every other field keeps its old one. */
  function WithField(d: SignupFormData, f: SignupField, value: string): (r: SignupFormData)
    ensures FieldValue(r, f) == value
    ensures forall g | g != f :: FieldValue(r, g) == FieldValue(d, g)
  {
    match f
    case FirstName => d.(firstName := value)
    case LastName => d.(lastName := value)
    case Email => d.(email := value)
    case Phone => d.(phone := value)
    case Password => d.(password := value)
    case ConfirmPassword => d.(confirmPassword := value)
  }

  /** What a submittable signup form looks like, stated field by field apart
      from the validator: both names have a visible character; by email, the
      email matches the pattern, the password has at least six characters and
      the confirmation repeats it; by phone, the phone matches the pattern. */
  predicate SignupValid(d: SignupFormData, m: SignupMethod)
  {
    && !AllSpace(d.firstName)
    && !AllSpace(d.lastName)
    && match m
       case EmailSignup =>
         EmailPattern(d.email) && |d.password| >= MinPasswordLength && d.password == d.confirmPassword
       case PhoneSignup =>
         PhonePattern(d.phone)
  }

  /** The checks made whatever the method: each name must have a visible character. */
  function NameErrors(d: SignupFormData): (errs: map<SignupField, Message>)
    ensures Email !in errs && Phone !in errs && Password !in errs && ConfirmPassword !in errs
    ensures FirstName in errs <==> AllSpace(d.firstName)
    ensures FirstName in errs ==> errs[FirstName] == FirstNameRequired
    ensures LastName in errs <==> AllSpace(d.lastName)
    ensures LastName in errs ==> errs[LastName] == LastNameRequired
  {
    Note(Note(map[], FirstName, RequiredText(d.firstName, FirstNameRequired)),
         LastName, RequiredText(d.lastName, LastNameRequired))
  }

  /** The email method's checks: email, then password, then the confirmation,
      which is checked whatever became of the other two. */
  function EmailMethodErrors(d: SignupFormData): (errs: map<SignupField, Message>)
    ensures FirstName !in errs && LastName !in errs && Phone !in errs
    ensures Email in errs <==> !EmailPattern(d.email)
    ensures Email in errs ==> errs[Email] == if d.email == "" then EmailRequired else EmailInvalid
    ensures Password in errs <==> |d.password| < MinPasswordLength
    ensures Password in errs ==> errs[Password] == if d.password == "" then PasswordRequired else PasswordTooShort
    ensures ConfirmPassword in errs <==> d.password != d.confirmPassword
    ensures ConfirmPassword in errs ==> errs[ConfirmPassword] == PasswordsDoNotMatch
  {
    Note(Note(Note(map[], Email, EmailError(d.email)),
              Password, PasswordError(d.password)),
         ConfirmPassword, ConfirmError(d.password, d.confirmPassword))
  }

  /** The phone method's one check. */
  function PhoneMethodErrors(d: SignupFormData): (errs: map<SignupField, Message>)
    ensures FirstName !in errs && LastName !in errs && Email !in errs && Password !in errs && ConfirmPassword !in errs
    ensures Phone in errs <==> !PhonePattern(d.phone)
    ensures Phone in errs ==> errs[Phone] == if d.phone == "" then PhoneRequired else PhoneInvalid
  {
    Note(map[], Phone, PhoneError(d.phone))
  }

  /** `validateForm`'s error map, filled in the source's order: the two names
      whatever the method, then email, password and confirmation for the email
      method, or the phone for the phone method. Each field gets at most one
      message; which one, and when, is stated field by field. In particular the
      phone method never reports on email or passwords, and the email method
      never reports on the phone. */
  function SignupErrors(d: SignupFormData, m: SignupMethod): (errs: map<SignupField, Message>)
    ensures FirstName in errs <==> AllSpace(d.firstName)
    ensures FirstName in errs ==> errs[FirstName] == FirstNameRequired
    ensures LastName in errs <==> AllSpace(d.lastName)
    ensures LastName in errs ==> errs[LastName] == LastNameRequired
    ensures Email in errs <==> m == EmailSignup && !EmailPattern(d.email)
    ensures Email in errs ==> errs[Email] == if d.email == "" then EmailRequired else EmailInvalid
    ensures Password in errs <==> m == EmailSignup && |d.password| < MinPasswordLength
    ensures Password in errs ==> errs[Password] == if d.password == "" then PasswordRequired else PasswordTooShort
    ensures ConfirmPassword in errs <==> m == EmailSignup && d.password != d.confirmPassword
    ensures ConfirmPassword in errs ==> errs[ConfirmPassword] == PasswordsDoNotMatch
    ensures Phone in errs <==> m == PhoneSignup && !PhonePattern(d.phone)
    ensures Phone in errs ==> errs[Phone] == if d.phone == "" then PhoneRequired else PhoneInvalid
  {
    var names := NameErrors(d);
    if m == EmailSignup then names + EmailMethodErrors(d)
    else
      var phone := PhoneMethodErrors(d);
      var all := names + phone;
      assert m == PhoneSignup && Phone !in names;
      assert Phone in all <==> Phone in phone;
      all
  }

  /** `Object.keys(errors).length === 0` holds exactly for the submittable forms. */
  lemma SignupValidIff(d: SignupFormData, m: SignupMethod)
    ensures |SignupErrors(d, m)| == 0 <==> SignupValid(d, m)
  {
  }

  class SignupForm {
    var signupMethod: SignupMethod
    var formData: SignupFormData
    var validationErrors: map<SignupField, Message>

    /** The form opens on the email method, with every field empty and no messages. */
    constructor ()
      ensures signupMethod == EmailSignup && formData == EmptySignupForm && validationErrors == map[]
    {
      signupMethod := EmailSignup;
      formData := EmptySignupForm;
      validationErrors := map[];
    }

    /** Re-validates every field, shows the resulting messages, and reports
        whether the form may be submitted. */
    method ValidateForm() returns (ok: bool)
      modifies this`validationErrors
      ensures validationErrors == SignupErrors(formData, signupMethod)
      ensures ok <==> SignupValid(formData, signupMethod)
    {
      var errs := SignupErrors(formData, signupMethod);
      SignupValidIff(formData, signupMethod);
      ok := |errs| == 0;
      validationErrors := errs;
    }

    /** Submission passes the form data and method on only when validation
        succeeds; otherwise nothing is passed on. */
    method HandleSubmit() returns (submitted: Option<(SignupFormData, SignupMethod)>)
      modifies this`validationErrors
      ensures validationErrors == SignupErrors(formData, signupMethod)
      ensures submitted == if SignupValid(formData, signupMethod) then Some((formData, signupMethod)) else None
    {
      var ok := ValidateForm();
      if !ok {
        return None;
      }
      submitted := Some((formData, signupMethod));
    }

    /** Typing into `field` stores the new value there and drops that field's
        message only; every other message stays as it was. */
    method HandleInputChange(field: SignupField, value: string)
      modifies this`formData, this`validationErrors
      ensures formData == WithField(old(formData), field, value)
      ensures validationErrors == old(validationErrors) - {field}
    {
      formData := WithField(formData, field, value);
      if field in validationErrors && Text(validationErrors[field]) != "" {
        validationErrors := validationErrors - {field};
      }
    }

    /** Switching method keeps the field values and clears every message. */
    method HandleMethodChange(m: SignupMethod)
      modifies this`signupMethod, this`validationErrors
      ensures signupMethod == m && validationErrors == map[]
    {
      signupMethod := m;
      validationErrors := map[];
    }
  }
}
