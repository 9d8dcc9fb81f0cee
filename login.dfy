/**
 * The login page: the sign-up validator with its fixed check order, the
 * choice of submit handler, the OTP field and its verify button, and the
 * page state the handlers set around the (asynchronous) auth calls.
 */
module Login {
  import opened Wrappers
  import AppRouting

  datatype AuthMode = PhoneMode | OtpMode | PasswordMode
  datatype UserKind = CustomerKind | DriverKind
  datatype ProfileKind = RegularProfile | StudentProfile | WorkerProfile | ParentProfile

  function UserKindName(k: UserKind): string {
    match k
    case CustomerKind => "customer"
    case DriverKind => "driver"
  }

  // ---------------------------------------------------------------- sign-up

  datatype SignUpData = SignUpData(
    phone: string, name: string, password: string, confirmPassword: string,
    userType: UserKind, profileType: ProfileKind)

  /** The form's initial value. */
  const EmptySignUp := SignUpData("", "", "", "", CustomerKind, RegularProfile)

  datatype SignUpError = MissingFields | PasswordMismatch | PasswordTooShort

  function SignUpErrorMessage(e: SignUpError): string {
    match e
    case MissingFields => "Please fill in all required fields"
    case PasswordMismatch => "Passwords do not match"
    case PasswordTooShort => "Password must be at least 6 characters"
  }

  predicate FieldsPresent(d: SignUpData) {
    d.phone != "" && d.name != "" && d.password != ""
  }

  /**
   * The checks of `handleSignUp`, first failure wins: a missing phone,
   * name or password; then differing passwords; then a password shorter
   * than six characters.
   */
  function ValidateSignUp(d: SignUpData): (r: Option<SignUpError>)
    ensures r == Some(MissingFields) <==> !FieldsPresent(d)
    ensures r == Some(PasswordMismatch) <==> FieldsPresent(d) && d.password != d.confirmPassword
    ensures r == Some(PasswordTooShort)
      <==> FieldsPresent(d) && d.password == d.confirmPassword && |d.password| < 6
    ensures r.None? <==> FieldsPresent(d) && d.password == d.confirmPassword && |d.password| >= 6
  {
    if d.phone == "" || d.name == "" || d.password == "" then Some(MissingFields)
    else if d.password != d.confirmPassword then Some(PasswordMismatch)
    else if |d.password| < 6 then Some(PasswordTooShort)
    else None
  }

  /** What the page sends to `register`. */
  datatype RegisterRequest = RegisterRequest(
    phone: string, name: string, password: string, userType: UserKind, profileType: ProfileKind)

  /** The page state the handlers touch. */
  datatype LoginState = LoginState(
    authMode: AuthMode, otpSent: bool, phone: string, otp: string, devOtp: string,
    loading: bool, error: string)

  const InitialLogin := LoginState(PhoneMode, false, "", "", "", false, "")

  /**
   * `handleSignUp` up to the `register` call: the error is cleared, then
   * either the first failing check's message is shown and nothing is sent,
   * or the page starts loading and the form is sent as it is.
   */
  function HandleSignUp(s: LoginState, d: SignUpData): (r: (LoginState, Option<RegisterRequest>))
    ensures r.1.Some? <==> ValidateSignUp(d).None?
    ensures r.1.None? ==> r.0 == s.(error := SignUpErrorMessage(ValidateSignUp(d).value))
    ensures r.1.Some? ==> r.0 == s.(error := "", loading := true)
    ensures r.1.Some? ==> r.1.value == RegisterRequest(d.phone, d.name, d.password, d.userType, d.profileType)
  {
    match ValidateSignUp(d)
    case Some(e) => (s.(error := SignUpErrorMessage(e)), None)
    case None =>
      (s.(error := "", loading := true),
       Some(RegisterRequest(d.phone, d.name, d.password, d.userType, d.profileType)))
  }

  /** Every request the page sends satisfies all three checks. */
  lemma SentRequestsAreValid(s: LoginState, d: SignUpData)
    requires HandleSignUp(s, d).1.Some?
    ensures var q := HandleSignUp(s, d).1.value;
      q.phone != "" && q.name != "" && |q.password| >= 6 && q.password == d.confirmPassword
  {
  }

  /** A missing field is reported first, whatever else is wrong. */
  lemma MissingFieldsReportedFirst(d: SignUpData)
    requires d.password == ""
    ensures ValidateSignUp(d) == Some(MissingFields)
  {
  }

  // ------------------------------------------------------------ sign-in form

  datatype Handler = PasswordLogin | SendOtp | VerifyOtp

  /** Which handler the visible form submits to. */
  function SubmitHandler(s: LoginState): (h: Handler)
    ensures h == VerifyOtp <==> s.otpSent
    ensures h == PasswordLogin <==> !s.otpSent && s.authMode == PasswordMode
  {
    if s.otpSent then VerifyOtp
    else if s.authMode == PasswordMode then PasswordLogin
    else SendOtp
  }

  /** "Use OTP instead" / "Use password instead": password mode goes to phone mode, any other mode to password mode. */
  function ToggleAuthMode(s: LoginState): (t: LoginState)
    ensures t == s.(authMode := t.authMode)
    ensures (t.authMode == PasswordMode) <==> (s.authMode != PasswordMode)
  {
    s.(authMode := if s.authMode == PasswordMode then PhoneMode else PasswordMode)
  }

  /** Toggling twice from phone or password mode returns to it. */
  lemma ToggleTwice(s: LoginState)
    requires s.authMode != OtpMode
    ensures ToggleAuthMode(ToggleAuthMode(s)) == s
  {
  }

  /** The OTP input keeps at most six characters (`maxLength={6}`). */
  function OtpTyped(s: LoginState, text: string): (t: LoginState)
    ensures t == s.(otp := t.otp)
    ensures |t.otp| == if |text| < 6 then |text| else 6
    ensures t.otp == text[..|t.otp|]
  {
    s.(otp := if |text| <= 6 then text else text[..6])
  }

  /** The verify button is enabled only when not loading and the OTP has exactly six characters. */
  function VerifyEnabled(s: LoginState): bool {
    !s.loading && |s.otp| == 6
  }

  /** Typed text enables verification exactly when at least six characters were typed. */
  lemma TypedOtpEnablesVerify(s: LoginState, text: string)
    requires !s.loading
    ensures VerifyEnabled(OtpTyped(s, text)) <==> |text| >= 6
  {
  }

  /** A `sendOTP` call's outcome: a development code may come back. */
  datatype SendResult = Sent(devOtp: Option<string>) | SendFailed(message: string)

  /** `handleSendOTP` after the call settles. */
  function SendOtpSettled(s: LoginState, r: SendResult): (t: LoginState)
    ensures !t.loading
    ensures r.Sent? ==> t.otpSent && t.authMode == OtpMode
    ensures r.SendFailed? ==> t == s.(error := r.message, loading := false)
  {
    match r
    case Sent(dev) =>
      s.(otpSent := true, authMode := OtpMode, devOtp := if dev.Some? then dev.value else s.devOtp,
         error := "", loading := false)
    case SendFailed(msg) => s.(error := msg, loading := false)
  }

  /** "Change phone number": back to the phone form with the code cleared; the mode stays. */
  function ChangePhone(s: LoginState): (t: LoginState)
    ensures !t.otpSent && t.otp == "" && t.devOtp == "" && t.authMode == s.authMode
  {
    s.(otpSent := false, otp := "", devOtp := "")
  }

  /** After a code was sent and the number changed, the form sends a new code. */
  lemma ChangePhoneResendsOtp(s: LoginState, dev: Option<string>)
    ensures SubmitHandler(ChangePhone(SendOtpSettled(s, Sent(dev)))) == SendOtp
  {
  }

  /** Where a successful sign-in or sign-up navigates: `/<user_type>`. */
  function AfterAuthPath(k: UserKind): (path: string)
    ensures path == "/customer" || path == "/driver"
  {
    "/" + UserKindName(k)
  }

  /** A user who lands on `/<user_type>` with the matching profile sees their own page. */
  lemma AfterAuthShowsOwnPage(k: UserKind)
    ensures k == CustomerKind ==>
      AppRouting.Route(AfterAuthPath(k), Some(AppRouting.CustomerUser)) == AppRouting.CustomerPage
    ensures k == DriverKind ==>
      AppRouting.Route(AfterAuthPath(k), Some(AppRouting.DriverUser)) == AppRouting.DriverPage
  {
    AppRouting.RolePages(Some(AppRouting.CustomerUser));
    AppRouting.RolePages(Some(AppRouting.DriverUser));
  }

}
