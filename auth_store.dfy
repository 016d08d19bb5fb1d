/**
 * The auth hook (src/hooks/useAuth.ts): one session record updated field by
 * field, and the actions that drive it. Each action turns on loading, clears
 * the error, runs its (mock) backend call, records either the user or the
 * failure message, and always turns loading off again.
 *
 * The backend call is not modelled; how it ends is a parameter, so that both
 * the success path and the `catch` path of every action are covered.
 */
module AuthHook {
  import opened Wrappers
  import opened AuthTypes

  /** What a `catch` block can receive: an `Error` (which carries a message)
      or any other thrown value. */
  datatype Fault = ErrorFault(message: string) | NonErrorFault

  /** How the simulated backend call of an action ends. */
  datatype Backend = Resolves | Rejects(fault: Fault)

  /** `error instanceof Error ? error.message : fallback`. */
  function FailureMessage(f: Fault, fallback: string): (m: string)
    ensures f.ErrorFault? ==> m == f.message
    ensures f.NonErrorFault? ==> m == fallback
  {
    if f.ErrorFault? then f.message else fallback
  }

  /** How an action's `try` block ends: the user it produced and its success
      message, or the message its `catch` block computed. */
  datatype Outcome = Succeeded(user: User, message: string) | Failed(message: string)

  /** The `try` block either throws `thrown` or completes with `user`; the
      `catch` turns a thrown fault into its message or the action's fallback. */
  function Conclude(thrown: Option<Fault>, user: User, message: string, fallback: string): (o: Outcome)
    ensures o.Succeeded? <==> thrown.None?
    ensures o.Succeeded? ==> o.user == user && o.message == message
    ensures thrown.Some? && thrown.value.ErrorFault? ==> o == Failed(thrown.value.message)
    ensures thrown.Some? && thrown.value.NonErrorFault? ==> o == Failed(fallback)
  {
    if thrown.None? then Succeeded(user, message) else Failed(FailureMessage(thrown.value, fallback))
  }

  /** The response an action returns: a success carries the user, a failure
      carries only its message, and neither carries a token. */
  function Respond(o: Outcome): (r: AuthResponse)
    ensures r.success <==> o.Succeeded?
    ensures r.message == o.message
    ensures r.user.Some? <==> r.success
    ensures r.success ==> r.user == Some(o.user)
    ensures r.token.None?
  {
    match o
    case Succeeded(u, m) => AuthResponse(true, m, Some(u), None)
    case Failed(m) => AuthResponse(false, m, None, None)
  }

  /** The session after an action: never loading; on success the new user and
      no error; on failure the failure message and the user it had before. */
  function Settle(before: AuthState, o: Outcome): (after: AuthState)
    ensures !after.isLoading
    ensures o.Succeeded? ==> after.user == Some(o.user) && after.error.None?
    ensures o.Failed? ==> after.user == before.user && after.error == Some(o.message)
  {
    match o
    case Succeeded(u, _) => AuthState(false, None, Some(u))
    case Failed(m) => AuthState(false, Some(m), before.user)
  }

  /** A rejected backend call is what the `try` block throws. */
  function Thrown(b: Backend): Option<Fault>
  {
    if b.Rejects? then Some(b.fault) else None
  }

  // ------------------------------------------------------------ the actions

  /** The one code the mock verification accepts. */
  const AcceptedOtp := "123456"

  /** The mock user id every action hands out. */
  const MockUserId := "1"

  /** `login`: a resolved call signs in a mock "John Doe" under the submitted
      email; a rejected one fails with its message or "Login failed". */
  function LoginOutcome(data: LoginFormData, b: Backend): (o: Outcome)
    ensures o.Succeeded? <==> b.Resolves?
    ensures o.Succeeded? ==> o.user.email == Some(data.email) && o.user.phone.None? && o.message == "Login successful"
    ensures o.Succeeded? ==> o.user.firstName == "John" && o.user.lastName == "Doe"
    ensures o.Failed? ==> o.message == FailureMessage(b.fault, "Login failed")
  {
    Conclude(Thrown(b), User(MockUserId, Some(data.email), None, "John", "Doe"), "Login successful", "Login failed")
  }

  /** `signup`: a resolved call signs in a user built from the submitted
      names, email and phone. */
  function SignupOutcome(data: SignupFormData, b: Backend): (o: Outcome)
    ensures o.Succeeded? <==> b.Resolves?
    ensures o.Succeeded? ==>
      && o.user.firstName == data.firstName && o.user.lastName == data.lastName
      && o.user.email == Some(data.email) && o.user.phone == Some(data.phone)
      && o.message == "Account created successfully"
    ensures o.Failed? ==> o.message == FailureMessage(b.fault, "Signup failed")
  {
    Conclude(Thrown(b),
      User(MockUserId, Some(data.email), Some(data.phone), data.firstName, data.lastName),
      "Account created successfully", "Signup failed")
  }

  /** `verifyOtp`'s `try` block: the backend call, then `throw new Error("Invalid OTP")`
      for any code other than the accepted one. */
  function OtpThrown(data: OtpFormData, b: Backend): (t: Option<Fault>)
    ensures t.None? <==> b.Resolves? && data.otp == AcceptedOtp
    ensures b.Rejects? ==> t == Some(b.fault)
    ensures b.Resolves? && data.otp != AcceptedOtp ==> t == Some(ErrorFault("Invalid OTP"))
  {
    if b.Rejects? then Some(b.fault)
    else if data.otp != AcceptedOtp then Some(ErrorFault("Invalid OTP"))
    else None
  }

  /** `verifyOtp`: succeeds exactly when the call resolves and the code is
      "123456", signing in a user under the submitted phone; a resolved call
      with any other code fails with "Invalid OTP". */
  function VerifyOtpOutcome(data: OtpFormData, b: Backend): (o: Outcome)
    ensures o.Succeeded? <==> b.Resolves? && data.otp == AcceptedOtp
    ensures o.Succeeded? ==>
      o.user.phone == Some(data.phone) && o.user.email.None? && o.message == "Phone verified successfully"
    ensures b.Resolves? && data.otp != AcceptedOtp ==> o == Failed("Invalid OTP")
    ensures b.Rejects? ==> o == Failed(FailureMessage(b.fault, "OTP verification failed"))
  {
    Conclude(OtpThrown(data, b),
      User(MockUserId, None, Some(data.phone), "John", "Doe"),
      "Phone verified successfully", "OTP verification failed")
  }

  /** `googleLogin`: a resolved call signs in the fixed "user@gmail.com" account. */
  function GoogleOutcome(b: Backend): (o: Outcome)
    ensures o.Succeeded? <==> b.Resolves?
    ensures o.Succeeded? ==> o.user.email == Some("user@gmail.com") && o.message == "Google login successful"
    ensures o.Failed? ==> o.message == FailureMessage(b.fault, "Google login failed")
  {
    Conclude(Thrown(b), User(MockUserId, Some("user@gmail.com"), None, "John", "Doe"),
      "Google login successful", "Google login failed")
  }

  /** Only the exact code "123456" is accepted: whatever the backend does,
      verification with any other code fails and leaves the session's user alone. */
  lemma OnlyAcceptedOtpSignsIn(before: AuthState, data: OtpFormData, b: Backend)
    requires data.otp != AcceptedOtp
    ensures !Respond(VerifyOtpOutcome(data, b)).success
    ensures Settle(before, VerifyOtpOutcome(data, b)).user == before.user
    ensures Settle(before, VerifyOtpOutcome(data, b)).error.Some?
  {
  }

  /** The four successive state values an action's updates produce, in the
      order they are applied: loading on, error cleared, one result recorded
      while still loading, loading off. */
  ghost predicate Bracketed(before: AuthState, h: seq<AuthState>, after: AuthState)
  {
    && |h| == 4
    && h[0] == before.(isLoading := true)
    && h[1] == h[0].(error := None)
    && h[2].isLoading
    && h[3] == h[2].(isLoading := false)
    && h[3] == after
  }

  class AuthStore {
    var state: AuthState
    /** The state value after each update applied so far, the current one last. */
    ghost var history: seq<AuthState>

    /** Between actions nothing is loading, and the last recorded value is the current state. */
    ghost predicate Valid()
      reads this
    {
      && !state.isLoading
      && |history| > 0 && history[|history| - 1] == state
    }

    constructor ()
      ensures state == InitialAuthState && history == [InitialAuthState]
      ensures Valid()
    {
      state := InitialAuthState;
      history := [InitialAuthState];
    }

    method SetLoading(loading: bool)
      modifies this
      ensures state == old(state).(isLoading := loading)
      ensures history == old(history) + [state]
    {
      state := state.(isLoading := loading);
      history := history + [state];
    }

    method SetError(error: Option<string>)
      modifies this
      ensures state == old(state).(error := error)
      ensures history == old(history) + [state]
    {
      state := state.(error := error);
      history := history + [state];
    }

    method SetUser(user: Option<User>)
      modifies this
      ensures state == old(state).(user := user)
      ensures history == old(history) + [state]
    {
      state := state.(user := user);
      history := history + [state];
    }

    /** The body every action shares: set loading, clear the error, then in
        `try` record the user, in `catch` record the message, and in
        `finally` clear loading. */
    method Perform(thrown: Option<Fault>, user: User, message: string, fallback: string) returns (r: AuthResponse)
      modifies this
      ensures r == Respond(Conclude(thrown, user, message, fallback))
      ensures state == Settle(old(state), Conclude(thrown, user, message, fallback))
      ensures |history| == |old(history)| + 4 && history[..|old(history)|] == old(history)
      ensures Bracketed(old(state), history[|old(history)|..], state)
      ensures Valid()
    {
      SetLoading(true);
      SetError(None);
      if thrown.None? {
        SetUser(Some(user));
        r := AuthResponse(true, message, Some(user), None);
      } else {
        var m := FailureMessage(thrown.value, fallback);
        SetError(Some(m));
        r := AuthResponse(false, m, None, None);
      }
      SetLoading(false);
      assert history[|old(history)|..] == history[|old(history)|..][..4];
    }

    method Login(data: LoginFormData, b: Backend) returns (r: AuthResponse)
      modifies this
      ensures r == Respond(LoginOutcome(data, b))
      ensures state == Settle(old(state), LoginOutcome(data, b))
      ensures |history| == |old(history)| + 4 && history[..|old(history)|] == old(history)
      ensures Bracketed(old(state), history[|old(history)|..], state)
      ensures Valid()
    {
      r := Perform(Thrown(b), User(MockUserId, Some(data.email), None, "John", "Doe"), "Login successful", "Login failed");
    }

    method Signup(data: SignupFormData, b: Backend) returns (r: AuthResponse)
      modifies this
      ensures r == Respond(SignupOutcome(data, b))
      ensures state == Settle(old(state), SignupOutcome(data, b))
      ensures |history| == |old(history)| + 4 && history[..|old(history)|] == old(history)
      ensures Bracketed(old(state), history[|old(history)|..], state)
      ensures Valid()
    {
      r := Perform(Thrown(b),
        User(MockUserId, Some(data.email), Some(data.phone), data.firstName, data.lastName),
        "Account created successfully", "Signup failed");
    }

    method VerifyOtp(data: OtpFormData, b: Backend) returns (r: AuthResponse)
      modifies this
      ensures r == Respond(VerifyOtpOutcome(data, b))
      ensures state == Settle(old(state), VerifyOtpOutcome(data, b))
      ensures |history| == |old(history)| + 4 && history[..|old(history)|] == old(history)
      ensures Bracketed(old(state), history[|old(history)|..], state)
      ensures Valid()
    {
      r := Perform(OtpThrown(data, b),
        User(MockUserId, None, Some(data.phone), "John", "Doe"),
        "Phone verified successfully", "OTP verification failed");
    }

    method GoogleLogin(b: Backend) returns (r: AuthResponse)
      modifies this
      ensures r == Respond(GoogleOutcome(b))
      ensures state == Settle(old(state), GoogleOutcome(b))
      ensures |history| == |old(history)| + 4 && history[..|old(history)|] == old(history)
      ensures Bracketed(old(state), history[|old(history)|..], state)
      ensures Valid()
    {
      r := Perform(Thrown(b), User(MockUserId, Some("user@gmail.com"), None, "John", "Doe"),
        "Google login successful", "Google login failed");
    }

    /** Signs out: the user and then the error are cleared; loading is untouched. */
    method Logout()
      modifies this
      ensures Valid() <==> !old(state).isLoading
      ensures state == old(state).(user := None, error := None)
      ensures history == old(history) + [old(state).(user := None), state]
    {
      SetUser(None);
      SetError(None);
    }
  }
}
