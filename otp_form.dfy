/**
 * The OTP verification form (src/components/auth/otpForm.tsx): the phone it
 * was opened for, the code typed so far and the single validation message it
 * shows.
 */
module OtpVerification {
  import opened Wrappers
  import opened AuthTypes
  import opened Patterns
  import opened FieldRules

  /** The words shown for an optional message; "" when there is none. */
  function Shown(m: Option<Message>): (t: string)
    ensures t == "" <==> m.None?
  {
    if m.Some? then Text(m.value) else ""
  }

  class OtpForm {
    const phone: string
    var otp: string
    var validationError: string

    /** Opened for `phone`, with no code typed and no message. */
    constructor (phone: string)
      ensures this.phone == phone && otp == "" && validationError == ""
    {
      this.phone := phone;
      otp := "";
      validationError := "";
    }

    /** The early-return chain: missing, then wrong length, then non-digits.
        It succeeds exactly for six decimal digits, and then leaves no message;
        otherwise it shows the message of the first check that fails. */
    method ValidateOtp() returns (ok: bool)
      modifies this`validationError
      ensures ok <==> SixDigits(otp)
      ensures validationError == Shown(OtpError(otp))
      ensures ok ==> validationError == ""
    {
      if otp == "" {
        validationError := Text(OtpRequired);
        return false;
      }
      if |otp| != OtpLength {
        validationError := Text(OtpWrongLength);
        return false;
      }
      if !SixDigits(otp) {
        validationError := Text(OtpNotNumeric);
        return false;
      }
      validationError := "";
      return true;
    }

    /** Submission hands the code and the phone on, unchanged, only when the
        code passes validation. */
    method HandleSubmit() returns (submitted: Option<OtpFormData>)
      modifies this`validationError
      ensures validationError == Shown(OtpError(otp))
      ensures submitted.Some? <==> SixDigits(otp)
      ensures submitted.Some? ==> submitted.value == OtpFormData(otp, phone)
    {
      var ok := ValidateOtp();
      if !ok {
        return None;
      }
      submitted := Some(OtpFormData(otp, phone));
    }

    /** Typing stores the sanitised text (the first digits typed, at most six)
        and clears any message. */
    method HandleOtpChange(raw: string)
      modifies this`otp, this`validationError
      ensures otp == SanitizeOtp(raw)
      ensures AllDigits(otp) && |otp| <= OtpLength
      ensures validationError == ""
    {
      otp := SanitizeOtp(raw);
      if validationError != "" {
        validationError := "";
      }
    }
  }
}
