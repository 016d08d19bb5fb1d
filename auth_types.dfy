/**
 * The records and enumerations of the authentication flow, as declared in
 * src/types/auth.ts. Form records hold plain strings: every form initialises
 * each of its keys to "" and only ever writes input text into them, so an
 * absent key never occurs in the flow.
 */
module AuthTypes {
  import opened Wrappers

  /** Which view the auth page is in ("login" | "signup" | "otp" | "email"). */
  datatype AuthMode = LoginMode | SignupMode | OtpMode | EmailMode

  /** The signup form's method toggle ("email" | "phone"). */
  datatype SignupMethod = EmailSignup | PhoneSignup

  /** The login form's method toggle ("email" | "otp"). */
  datatype LoginMethod = EmailLogin | OtpLogin

  datatype LoginFormData = LoginFormData(email: string, password: string, phone: string, otp: string)

  datatype SignupFormData = SignupFormData(
    firstName: string,
    lastName: string,
    email: string,
    phone: string,
    password: string,
    confirmPassword: string)

  datatype OtpFormData = OtpFormData(otp: string, phone: string)

  /** A signed-in user; `createdAt` is a clock reading and is not modelled. */
  datatype User = User(
    id: string,
    email: Option<string>,
    phone: Option<string>,
    firstName: string,
    lastName: string)

  datatype AuthResponse = AuthResponse(
    success: bool,
    message: string,
    user: Option<User>,
    token: Option<string>)

  /** The session record held by the auth hook. */
  datatype AuthState = AuthState(isLoading: bool, error: Option<string>, user: Option<User>)

  /** The hook's starting session: not loading, no error, nobody signed in. */
  const InitialAuthState := AuthState(false, None, None)

  const EmptyLoginForm := LoginFormData("", "", "", "")

  const EmptySignupForm := SignupFormData("", "", "", "", "", "")
}
