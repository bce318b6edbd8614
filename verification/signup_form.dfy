/**
 * The signup form's `handleSubmit`: three client-side checks in order, the
 * request sent when they pass, and what the page does with the reply.
 */
module SignupForm {
  import opened Wrappers

  datatype Form = Form(firstName: string, lastName: string, workEmail: string,
                       password: string, confirmPassword: string, agreeToTerms: bool)

  /** The body posted to the signup endpoint. */
  datatype SignupRequest = SignupRequest(firstName: string, lastName: string, email: string, password: string)

  const PasswordMismatch: string := "Passwords do not match."
  const PasswordTooShort: string := "Password must be at least 6 characters long."
  const TermsNotAgreed: string := "Please agree to the Terms of Service and Privacy Policy."

  /** Shortest password the form accepts. */
  const MinPasswordLength: nat := 6

  /** The first failing check, or none. */
  function Validate(f: Form): (error: Option<string>)
    ensures error == Some(PasswordMismatch) <==> f.password != f.confirmPassword
    ensures error == Some(PasswordTooShort) <==>
      f.password == f.confirmPassword && |f.password| < MinPasswordLength
    ensures error == Some(TermsNotAgreed) <==>
      f.password == f.confirmPassword && |f.password| >= MinPasswordLength && !f.agreeToTerms
    ensures error.None? <==>
      f.password == f.confirmPassword && |f.password| >= MinPasswordLength && f.agreeToTerms
  {
    if f.password != f.confirmPassword then Some(PasswordMismatch)
    else if |f.password| < MinPasswordLength then Some(PasswordTooShort)
    else if !f.agreeToTerms then Some(TermsNotAgreed)
    else None
  }

  /** What the request produced: a reply body with or without a token, or a
      failure with the server's message, if there was one. */
  datatype Response = Replied(token: Option<string>) | Rejected(message: Option<string>)

  /** The page after a submit: the error shown (cleared at the start), the
      request sent, the token stored and the navigation. */
  datatype Submitted = Submitted(error: string, sent: Option<SignupRequest>, storedToken: Option<string>, navigation: Option<string>)

  const NoTokenReceived: string := "Signup failed. No token received."
  const SignupFailed: string := "Signup failed. Try again."

  /** `handleSubmit`, with `response` what the request would produce. */
  function HandleSubmit(f: Form, response: Response): (r: Submitted)
    // Nothing is sent while a check fails; its message is shown.
    ensures r.sent.None? <==> Validate(f).Some?
    ensures r.sent.None? ==> r.error == Validate(f).value && r.storedToken.None? && r.navigation.None?
    // The request carries the work email as `email`.
    ensures r.sent.Some? ==> r.sent.value == SignupRequest(f.firstName, f.lastName, f.workEmail, f.password)
    // Success: a token came back; it is stored and the dashboard opens.
    ensures r.navigation.Some? <==> r.sent.Some? && response.Replied? && Present(response.token)
    ensures r.navigation.Some? ==>
      r.navigation.value == "/dashboard" && r.storedToken == response.token && r.error == ""
    ensures r.navigation.None? ==> r.storedToken.None? && r.error != ""
    ensures r.sent.Some? && response.Replied? && !Present(response.token) ==> r.error == NoTokenReceived
    ensures r.sent.Some? && response.Rejected? ==>
      r.error == if Present(response.message) then response.message.value else SignupFailed
  {
    match Validate(f)
    case Some(e) => Submitted(e, None, None, None)
    case None =>
      var request := SignupRequest(f.firstName, f.lastName, f.workEmail, f.password);
      match response
      case Replied(token) =>
        if Present(token) then Submitted("", Some(request), token, Some("/dashboard"))
        else Submitted(NoTokenReceived, Some(request), None, None)
      case Rejected(message) =>
        Submitted(if Present(message) then message.value else SignupFailed, Some(request), None, None)
  }

  /** A request the form sends always carries a password, so the server
      never answers it with its missing-credentials check for the
      password. */
  lemma SentPasswordPresent(f: Form, response: Response)
    requires HandleSubmit(f, response).sent.Some?
    ensures Present(Some(HandleSubmit(f, response).sent.value.password))
    ensures |HandleSubmit(f, response).sent.value.password| >= MinPasswordLength
  {
  }
}
