/**
 * The per-field checks the three forms apply, each with its messages in the
 * order the forms test them. The login and signup forms check email and
 * password the same way, and the login and OTP forms check a one-time code the
 * same way, so each rule is stated once here.
 */
module FieldRules {
  import opened Wrappers
  import opened Patterns

  /** The validation messages the forms can show, one constructor per message. */
  datatype Message =
    | FirstNameRequired | LastNameRequired
    | EmailRequired | EmailInvalid
    | PasswordRequired | PasswordTooShort | PasswordsDoNotMatch
    | PhoneRequired | PhoneInvalid
    | OtpRequired | OtpWrongLength | OtpNotNumeric

  /** The words shown for each message. None is empty, so the forms'
      truthiness tests on a stored message always see it. */
  function Text(m: Message): (t: string)
    ensures |t| > 0
  {
    match m
    case FirstNameRequired => "First name is required"
    case LastNameRequired => "Last name is required"
    case EmailRequired => "Email is required"
    case EmailInvalid => "Email is invalid"
    case PasswordRequired => "Password is required"
    case PasswordTooShort => "Password must be at least 6 characters"
    case PasswordsDoNotMatch => "Passwords do not match"
    case PhoneRequired => "Phone number is required"
    case PhoneInvalid => "Phone number is invalid"
    case OtpRequired => "OTP is required"
    case OtpWrongLength => "OTP must be 6 digits"
    case OtpNotNumeric => "OTP must contain only numbers"
  }

  /** The minimum password length both forms demand. */
  const MinPasswordLength := 6

  /** The length of a one-time code. */
  const OtpLength := 6

  /** Records `message` (when there is one) under `field`, as the validators'
      `errors.field = "..."` assignments do; a later entry for the same field
      would replace an earlier one. */
  function Note<K(!new)>(errors: map<K, Message>, field: K, message: Option<Message>): (r: map<K, Message>)
    ensures message.Some? ==> field in r && r[field] == message.value
    ensures message.None? ==> r == errors
    ensures forall k | k != field :: (k in r <==> k in errors) && (k in r ==> r[k] == errors[k])
  {
    if message.Some? then errors[field := message.value] else errors
  }

  /** `if (!value.trim()) error = message`: a name made only of whitespace
      (the empty name included) is missing; any visible character makes it present. */
  function RequiredText(value: string, message: Message): (r: Option<Message>)
    ensures r.Some? <==> AllSpace(value)
    ensures r.Some? ==> r.value == message
  {
    if Trim(value) == "" then Some(message) else None
  }

  /** Empty email first, then the pattern. An email passes exactly when it
      matches the pattern (the empty string never does), and at most one
      message is produced. */
  function EmailError(email: string): (r: Option<Message>)
    ensures r.None? <==> EmailPattern(email)
    ensures r == Some(EmailRequired) <==> email == ""
    ensures r == Some(EmailInvalid) <==> email != "" && !EmailPattern(email)
  {
    if email == "" then Some(EmailRequired)
    else if !EmailPattern(email) then Some(EmailInvalid)
    else None
  }

  /** Empty password first, then the minimum length. A password passes exactly
      when it has at least six characters. */
  function PasswordError(password: string): (r: Option<Message>)
    ensures r.None? <==> |password| >= MinPasswordLength
    ensures r == Some(PasswordRequired) <==> password == ""
    ensures r == Some(PasswordTooShort) <==> 0 < |password| < MinPasswordLength
  {
    if password == "" then Some(PasswordRequired)
    else if |password| < MinPasswordLength then Some(PasswordTooShort)
    else None
  }

  /** The signup form's confirmation check: any difference between the two
      entries is reported, whatever else is wrong with them. */
  function ConfirmError(password: string, confirmPassword: string): (r: Option<Message>)
    ensures r.None? <==> password == confirmPassword
    ensures r.Some? ==> r.value == PasswordsDoNotMatch
  {
    if password != confirmPassword then Some(PasswordsDoNotMatch) else None
  }

  /** Empty phone first, then the pattern. A phone passes exactly when it
      matches the pattern (the empty string never does). */
  function PhoneError(phone: string): (r: Option<Message>)
    ensures r.None? <==> PhonePattern(phone)
    ensures r == Some(PhoneRequired) <==> phone == ""
    ensures r == Some(PhoneInvalid) <==> phone != "" && !PhonePattern(phone)
  {
    if phone == "" then Some(PhoneRequired)
    else if !PhonePattern(phone) then Some(PhoneInvalid)
    else None
  }

  /** Empty code first, then the length, then the digits. A code passes exactly
      when it is six decimal digits; the digit message is reached only by a
      six-character code with a non-digit in it. */
  function OtpError(otp: string): (r: Option<Message>)
    ensures r.None? <==> SixDigits(otp)
    ensures r == Some(OtpRequired) <==> otp == ""
    ensures r == Some(OtpWrongLength) <==> otp != "" && |otp| != OtpLength
    ensures r == Some(OtpNotNumeric) <==> |otp| == OtpLength && !AllDigits(otp)
  {
    if otp == "" then Some(OtpRequired)
    else if |otp| != OtpLength then Some(OtpWrongLength)
    else if !SixDigits(otp) then Some(OtpNotNumeric)
    else None
  }

  /** A code that came through the sanitising input box can be missing or too
      short, but never rejected for holding a non-digit. */
  lemma SanitizedOtpNeverNonNumeric(raw: string)
    ensures OtpError(SanitizeOtp(raw)) != Some(OtpNotNumeric)
  {
  }
}
