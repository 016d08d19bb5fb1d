# Expense Manager — client-side authentication flow

This project models the authentication flow of the Expense Manager web app in Dafny and proves its behaviour. It covers:

- the three forms (login, signup, one-time code) with their validators, submit gates and input handlers;
- the auth page, which switches between the login/signup tabs and the OTP card;
- the `useAuth` session store (`isLoading`, `error`, `user`) with its four backend actions and `logout`.

The modules follow the program's structure:

| module | file | models |
|---|---|---|
| `Wrappers` | wrappers.dfy | `Option`, for `T \| null` and optional properties |
| `AuthTypes` | auth_types.dfy | the records and enumerations of `src/types/auth.ts` |
| `Patterns` | patterns.dfy | `trim`, `\s`, `\d`, the email, phone and OTP regular expressions, and the OTP sanitiser, all as predicates over characters |
| `FieldRules` | field_rules.dfy | the per-field checks and their messages; the forms share them |
| `Signup` | signup_form.dfy | `signupForm.tsx`: the validator, plus a class for its state cells and handlers |
| `Login` | login_form.dfy | `loginForm.tsx`: the same, plus the OTP input handler |
| `OtpVerification` | otp_form.dfy | `otpForm.tsx`: the early-return validator and the input handler |
| `AuthHook` | auth_store.dfy | `useAuth.ts`: a class holding the session record, its setters and actions |
| `AuthFlow` | auth_page.dfy | `page.tsx`: a class holding `authMode` and `pendingPhone`, its handlers and the view choice |
| `Scenarios` | scenarios.dfy | whole journeys from a freshly opened page |

The signup and login validators are pure functions from the form record and method to a map from field to message; each of those forms' `validateForm` methods stores that map and reports whether it is empty. The OTP card's `validateOtp` instead writes a single string cell: the model computes its one optional message (`FieldRules.OtpError`) and stores its text, or "" when there is none. Each React state cell is a class field, and each handler is a method that reassigns exactly the cells it changes.

The backend is a mock: a timer, then a mock user built partly from the submitted data (the submitted email for `login`, the submitted names, email and phone for `signup`, the submitted phone for `verifyOtp`, a fixed account for `googleLogin`); `verifyOtp` also rejects every code but "123456". The model makes its outcome a parameter (`Backend`), so that both the `try` path and the `catch` path of every action are proved. The fault in the `catch` path is either an `Error`, which carries its message, or any other value, which falls back to the action's default message.

Some behaviour one might expect of such a flow is not what the code does; the model follows the code:

- **Resend.** One might expect a code to be sent when the OTP card opens and again on "resend". The code only logs the pending phone in `handleResendOtp`, and nothing is sent on entry.
- **Concurrency.** There is no single-flight guard, and a response arriving after "back" is not discarded. The only protection is buttons disabled while loading, which is presentation.
- **Email mode.** "email" is not a login-method sub-selector but a fourth page mode, set by the "Email" button. That mode keeps the tabbed card, but no tab panel exists for it, so neither form is shown (`AuthFlow.PanelFor`).
- **Email pattern.** The email pattern is stricter than `local@domain`: it also demands a `.` after the `@`, with a non-space on each side.

## Model

| member | source | states |
|---|---|---|
| Patterns.TrimStart | src/components/auth/signupForm.tsx:36 | removing leading whitespace: the rest is empty iff the input is all whitespace, and otherwise starts with a non-space |
| Patterns.TrimEnd | src/components/auth/signupForm.tsx:36 | removing trailing whitespace: the rest is empty iff the input is all whitespace, and otherwise ends with a non-space |
| Patterns.Trim | src/components/auth/signupForm.tsx:36-42 | `trim` leaves an empty string exactly when the input is all whitespace; otherwise the result has no whitespace at either end |
| Patterns.TrimStartIsSuffix | src/components/auth/signupForm.tsx:36 | removing leading whitespace leaves a suffix of the input, and what was removed is all whitespace |
| Patterns.TrimEndIsPrefix | src/components/auth/signupForm.tsx:36 | removing trailing whitespace leaves a prefix of the input, and what was removed is all whitespace |
| Patterns.TrimIsSlice | src/components/auth/signupForm.tsx:36 | `trim` keeps one contiguous stretch `s[a..b]` of its input and removes only whitespace before and after it |
| Patterns.EmailPattern | src/components/auth/loginForm.tsx:36 | `/\S+@\S+\.\S+/.test`, defined by where the `@` and the `.` of a match sit; a matching string has at least five characters and contains both an `@` and a `.`; see also EmailPatternUnanchored, EmailNeedsAtAndDot and EmailSample |
| Patterns.EmailPatternUnanchored | src/components/auth/loginForm.tsx:36 | the email pattern is unanchored: any text before or after a match keeps it matching |
| Patterns.EmailNeedsAtAndDot | src/components/auth/loginForm.tsx:36 | a string with no `@`, or with no `.`, never passes the email pattern |
| Patterns.EmailSample | src/components/auth/loginForm.tsx:36 | a plain address such as `a@b.com` passes the pattern |
| Patterns.PhonePattern | src/components/auth/loginForm.tsx:48 | `/^\+?[\d\s-()]+$/.test`, defined over characters; neither the empty string nor a lone `+` matches; characterised independently by PhonePatternCharacterised |
| Patterns.PhonePatternCharacterised | src/components/auth/loginForm.tsx:48 | `^\+?[\d\s-()]+$` holds iff the string is non-empty, is not a lone `+`, and has only digits, whitespace, `-`, `(` and `)`, except that the first character may be `+` |
| Patterns.SixDigits | src/components/auth/loginForm.tsx:56 | `/^\d{6}$/.test`: exactly six decimal digits, which stripping non-digits leaves unchanged |
| Patterns.KeepDigits | src/components/auth/loginForm.tsx:87 | `replace(/\D/g, "")` yields only digits, is no longer than its input, and leaves an all-digit string unchanged |
| Patterns.KeepDigitsConcat | src/components/auth/loginForm.tsx:87 | stripping non-digits distributes over concatenation, so it acts character by character and keeps order |
| Patterns.KeepDigitsSingle | src/components/auth/loginForm.tsx:87 | one character is kept exactly when it is a digit |
| Patterns.SanitizeOtp | src/components/auth/loginForm.tsx:86-88 | the sanitised code holds only digits and at most six of them: the first `min(6, number of digits)` digits of the input, in order |
| Patterns.SanitizeOtpIdempotent | src/components/auth/loginForm.tsx:87 | sanitising twice gives the same result as sanitising once |
| Patterns.SanitizedOtpValidIffFull | src/components/auth/otpForm.tsx:56 | a sanitised code is a valid code exactly when it has six characters |
| FieldRules.Text | src/components/auth/signupForm.tsx:36-65 | every validation message is non-empty, so the truthiness tests in the input handlers always see a stored message |
| FieldRules.Note | src/components/auth/signupForm.tsx:37 | `errors.field = message` when there is a message: that field gets it, nothing changes without one, and every other field keeps what it had |
| FieldRules.RequiredText | src/components/auth/signupForm.tsx:36-42 | a name is reported missing exactly when it is empty or all whitespace, and then with the given message |
| FieldRules.EmailError | src/components/auth/signupForm.tsx:45-49 | "Email is required" exactly for the empty email; "Email is invalid" exactly for a non-empty email failing the pattern; at most one message, and none iff the pattern matches |
| FieldRules.PasswordError | src/components/auth/signupForm.tsx:51-55 | "required" exactly for the empty password; "too short" exactly for lengths 1-5; no message iff the length is at least six |
| FieldRules.ConfirmError | src/components/auth/signupForm.tsx:57-59 | "Passwords do not match" exactly when the two entries differ, whatever else is wrong with them |
| FieldRules.PhoneError | src/components/auth/signupForm.tsx:61-65 | "required" exactly for the empty phone; "invalid" exactly for a non-empty phone failing the pattern; none iff the pattern matches |
| FieldRules.OtpError | src/components/auth/loginForm.tsx:52-58 | the checks run empty, then length, then digits: each message is characterised exactly, the digit message arises only for six characters with a non-digit, and there is no message iff the code is six digits |
| FieldRules.SanitizedOtpNeverNonNumeric | src/components/auth/loginForm.tsx:86-88 | a code typed through the sanitising input box is never rejected for holding a non-digit |
| Signup.WithField | src/components/auth/signupForm.tsx:81 | the edited field takes the new value and every other field keeps its value |
| Signup.NameErrors | src/components/auth/signupForm.tsx:36-42 | a blank first or last name always gets its "required" message; nothing else is reported |
| Signup.EmailMethodErrors | src/components/auth/signupForm.tsx:44-59 | the email method reports on email, password and confirmation only, each by its own rule |
| Signup.PhoneMethodErrors | src/components/auth/signupForm.tsx:60-66 | the phone method reports on the phone only |
| Signup.SignupErrors | src/components/auth/signupForm.tsx:33-67 | field by field, whether each key is present and its message: names whatever the method; email, password and confirmation only for the email method; phone only for the phone method |
| Signup.SignupValidIff | src/components/auth/signupForm.tsx:69 | the error map is empty iff the form is submittable: visible names and, by method, a matching email, a password of six or more equal to its confirmation, or a matching phone |
| Signup.SignupForm.constructor | src/components/auth/signupForm.tsx:20-31 | the form opens on the email method, with empty fields and no messages |
| Signup.SignupForm.ValidateForm | src/components/auth/signupForm.tsx:33-70 | stores the full error map and returns true iff the form is submittable |
| Signup.SignupForm.HandleSubmit | src/components/auth/signupForm.tsx:72-78 | the data and method are passed on iff validation succeeds |
| Signup.SignupForm.HandleInputChange | src/components/auth/signupForm.tsx:80-86 | stores the typed value in its field and removes only that field's message |
| Signup.SignupForm.HandleMethodChange | src/components/auth/signupForm.tsx:88-91 | sets the method and empties the error map |
| Login.WithField | src/components/auth/loginForm.tsx:74 | the edited field takes the new value and every other field keeps its value |
| Login.EmailMethodErrors | src/components/auth/loginForm.tsx:33-44 | the email method reports on email and password only, by the shared rules |
| Login.OtpMethodErrors | src/components/auth/loginForm.tsx:45-58 | the OTP method reports on phone and code only; the code's message follows the ordered checks |
| Login.LoginErrors | src/components/auth/loginForm.tsx:30-59 | only the chosen method's two fields can get a message, each exactly when its rule fails |
| Login.LoginValidIff | src/components/auth/loginForm.tsx:62 | the error map is empty iff the form is submittable: an email matching the pattern and a password of six or more, or a matching phone and a six-digit code |
| Login.LoginForm.constructor | src/components/auth/loginForm.tsx:20-28 | the form opens on the email method, with empty fields and no messages |
| Login.LoginForm.ValidateForm | src/components/auth/loginForm.tsx:30-63 | stores the full error map and returns true iff the form is submittable |
| Login.LoginForm.HandleSubmit | src/components/auth/loginForm.tsx:65-71 | a failed validation blocks the submission; a passing one passes the data and method on |
| Login.LoginForm.HandleInputChange | src/components/auth/loginForm.tsx:73-79 | stores the typed value in its field and removes only that field's message |
| Login.LoginForm.HandleMethodChange | src/components/auth/loginForm.tsx:81-84 | sets the method and empties the error map |
| Login.LoginForm.HandleOtpChange | src/components/auth/loginForm.tsx:86-92 | stores the sanitised code (digits only, at most six) and removes only the code's message |
| OtpVerification.Shown | src/components/auth/otpForm.tsx:28 | a message shows as non-empty text, and no message shows as "" |
| OtpVerification.OtpForm.constructor | src/components/auth/otpForm.tsx:26-28 | the card opens for its phone, with no code and no message |
| OtpVerification.OtpForm.ValidateOtp | src/components/auth/otpForm.tsx:30-45 | returns true iff the code is six decimal digits; shows the message of the first failing check, or "" on success |
| OtpVerification.OtpForm.HandleSubmit | src/components/auth/otpForm.tsx:47-53 | passes `{otp, phone}` on unchanged iff the code validates |
| OtpVerification.OtpForm.HandleOtpChange | src/components/auth/otpForm.tsx:55-61 | stores the sanitised code (digits only, at most six) and clears any message |
| AuthHook.FailureMessage | src/hooks/useAuth.ts:46 | a thrown `Error` gives its own message; any other thrown value gives the action's fallback |
| AuthHook.OtpThrown | src/hooks/useAuth.ts:97-99 | the verification `try` block throws nothing exactly when the call resolves and the code is "123456"; a rejected call throws its fault; a resolved call with another code throws the "Invalid OTP" error |
| AuthHook.Conclude | src/hooks/useAuth.ts:30-48 | the `try` succeeds iff nothing is thrown; a thrown `Error` yields its own message, and any other value yields the action's fallback |
| AuthHook.Respond | src/hooks/useAuth.ts:44-48 | a response succeeds iff the action did; only a success carries a user; no response carries a token |
| AuthHook.Settle | src/hooks/useAuth.ts:43-51 | after any action nothing is loading; success records the user and no error; failure records the message and keeps the previous user |
| AuthHook.LoginOutcome | src/hooks/useAuth.ts:25-54 | login succeeds iff the call resolves; the user is the mock "John Doe" under the submitted email, with no phone |
| AuthHook.SignupOutcome | src/hooks/useAuth.ts:56-86 | signup succeeds iff the call resolves; the user carries the submitted first name, last name, email and phone |
| AuthHook.VerifyOtpOutcome | src/hooks/useAuth.ts:88-121 | verification succeeds iff the call resolves and the code is "123456"; a resolved call with another code fails with "Invalid OTP"; the user carries the submitted phone |
| AuthHook.GoogleOutcome | src/hooks/useAuth.ts:123-148 | a resolved call signs in the fixed "user@gmail.com" account |
| AuthHook.OnlyAcceptedOtpSignsIn | src/hooks/useAuth.ts:97-99 | with any code other than "123456", verification fails, sets an error and leaves the session's user as it was |
| AuthHook.AuthStore.constructor | src/hooks/useAuth.ts:7-11 | the session starts with nothing loading, no error and no user |
| AuthHook.AuthStore.SetLoading | src/hooks/useAuth.ts:13-15 | changes `isLoading` only, and records the resulting state value |
| AuthHook.AuthStore.SetError | src/hooks/useAuth.ts:17-19 | changes `error` only, and records the resulting state value |
| AuthHook.AuthStore.SetUser | src/hooks/useAuth.ts:21-23 | changes `user` only, and records the resulting state value |
| AuthHook.AuthStore.Perform | src/hooks/useAuth.ts:27-51 | the shared `try`/`catch`/`finally` shape: four successive state values, in the order the updates are applied (React may batch them into fewer renders), with loading on, the error cleared, one result recorded while loading, then loading off; the end state is the settled one |
| AuthHook.AuthStore.Login | src/hooks/useAuth.ts:25-54 | returns the login response and leaves the settled session, bracketed by loading on and off |
| AuthHook.AuthStore.Signup | src/hooks/useAuth.ts:56-86 | the same for signup |
| AuthHook.AuthStore.VerifyOtp | src/hooks/useAuth.ts:88-121 | the same for OTP verification |
| AuthHook.AuthStore.GoogleLogin | src/hooks/useAuth.ts:123-148 | the same for Google login |
| AuthHook.AuthStore.Logout | src/hooks/useAuth.ts:150-153 | clears the user and then the error, and leaves `isLoading` alone, whatever the state before; the store is between actions afterwards iff it was not loading before |
| AuthFlow.PanelFor | src/app/auth/page.tsx:97-116 | the login form shows only for tab "login" and the signup form only for tab "signup"; "email" has no panel |
| AuthFlow.AuthPage.constructor | src/app/auth/page.tsx:15-18 | the page opens on "login" with no pending phone and the initial session |
| AuthFlow.AuthPage.CurrentView | src/app/auth/page.tsx:67-116 | only mode "otp" shows the OTP card, and always for the pending phone; every other mode, "email" included, shows the tabbed card |
| AuthFlow.AuthPage.HandleLogin | src/app/auth/page.tsx:20-26 | the session is settled by the login outcome; the mode and the pending phone are unchanged |
| AuthFlow.AuthPage.HandleSignup | src/app/auth/page.tsx:28-39 | a phone signup with a phone moves to "otp" for that phone and leaves the session alone; any other signup settles the session by the signup outcome and leaves the mode |
| AuthFlow.AuthPage.HandleOtpVerification | src/app/auth/page.tsx:41-47 | the session is settled by the verification outcome; the page stays where it is |
| AuthFlow.AuthPage.HandleGoogleLogin | src/app/auth/page.tsx:49-55 | the session is settled by the Google outcome; the page stays where it is |
| AuthFlow.AuthPage.HandleResendOtp | src/app/auth/page.tsx:57-60 | names the pending phone, which is non-empty on the OTP card, and changes nothing |
| AuthFlow.AuthPage.HandleBackToSignup | src/app/auth/page.tsx:62-65 | from any state, a request in flight included, moves to "signup" and forgets the pending phone; the page is consistent afterwards iff the session store is |
| AuthFlow.AuthPage.SelectTab | src/app/auth/page.tsx:97-101 | a tab trigger selects "login" or "signup" |
| AuthFlow.AuthPage.ChooseEmail | src/app/auth/page.tsx:128-137 | the "Email" button selects mode "email", which still shows the tabbed card |
| Scenarios.EmailLoginJourney | src/app/auth/page.tsx:20-26 | logging in with `a@b.com` and `secret1`, when the call resolves, leaves that address signed in, with no error |
| Scenarios.ShortPasswordJourney | src/components/auth/loginForm.tsx:65-71 | a three-character password is blocked by the form's gate (nothing is submitted), the only message is the too-short one, and the session is untouched |
| Scenarios.PhoneSignupSubmission | src/components/auth/signupForm.tsx:72-78 | the signup form, switched to the phone method and filled with visible names and a well-formed phone, submits exactly what was typed |
| Scenarios.PhoneSignupJourney | src/app/auth/page.tsx:28-31 | a valid phone signup reaches the OTP card for that phone without touching the session |
| Scenarios.WrongCodeJourney | src/app/auth/page.tsx:41-47 | the code `000000` passes the card's check, is refused with "Invalid OTP", signs nobody in, and keeps the page on the OTP card |
| Scenarios.BackFromOtpJourney | src/app/auth/page.tsx:62-65 | going back after a phone signup returns to the signup tab with no pending phone and the session untouched |

## Left out

- Rendering. The JSX markup, class names, icons and the show-password toggles (`showPassword`, `showConfirmPassword`) carry no logic. The same holds for `src/components/ui/button.tsx`, `src/components/ui/separator.tsx` and `tailwind.config.ts`.
- Browser input checks. The inputs carry `required`, the email inputs are `type="email"` and the code boxes have `maxLength={6}`. A browser enforces these before `handleSubmit` runs, so in a browser the only "… is required" messages that can appear are the names' (a name of spaces passes `required`). The model does not include these checks: its validators receive whatever was typed.
- Tabs internals. The tabs, card, input, label and alert components are not part of this model. `AuthFlow.PanelFor` models only which `TabsContent` values the page declares.
- Scheduling. The `setTimeout` delays, promise scheduling and React re-render timing are not modelled. Each action is one atomic step, and its backend outcome is a parameter.
- Disabled buttons. `disabled={isLoading}` is presentation and is not modelled. The code has no single-flight guard and no stale-response cancellation, and neither does the model.
- `createdAt`. It reads the clock, so `User` has no such field.
- `console.log`. The log calls are not modelled; `HandleResendOtp` returns the phone it would log.
- Google OAuth. It is simulated by the fixed "user@gmail.com" account.
- The regular-expression engine. Each pattern is stated as a predicate over characters.
- String lengths. JavaScript counts UTF-16 code units, while the model counts characters. The two differ only for characters outside the Basic Multilingual Plane.
  - FieldRules.PasswordError: the six-character minimum is counted in characters, not UTF-16 code units.
  - FieldRules.OtpError: the six-character length check is counted in characters. A code reaching that check holds only ASCII digits, so this makes no difference there.
- Signup.SignupForm.HandleInputChange, Login.LoginForm.HandleInputChange and Login.LoginForm.HandleOtpChange: the source writes `undefined` under the edited key (signupForm.tsx:84, loginForm.tsx:77, loginForm.tsx:90), while the model removes the key. Nothing reads the map's keys except through the truthiness of their values, so the two are indistinguishable.
- Login.LoginForm.HandleInputChange: the model also accepts the `Otp` field, although the rendered form routes the code box through `HandleOtpChange` only.
- Optional keys. `src/types/auth.ts` declares most form fields optional (all but `SignupFormData`'s `firstName` and `lastName`). Every form initialises each key to "" and only writes input text into it, so the model uses plain strings.
- Unused method argument. `handleLogin` receives the login method but never uses it; the model accepts and ignores it.
