/**
 * `handleSubmit` of frontend/src/pages/RegisterPage.jsx: the two password
 * checks, in order, then the call to `register` and what its result does.
 */
module RegisterPage {
  import opened Common
  import opened AuthContext

  datatype RegisterForm = RegisterForm(name: string, email: string, password: string, confirm: string)

  /** What is sent to `register`: the confirmation is not part of it. */
  datatype Payload = Payload(name: string, email: string, password: string)

  /**
   * The result of one submit: the error line shown afterwards (it is cleared
   * first, so the previous one plays no part), the payload sent if any, and
   * where the page navigated if it did.
   */
  datatype Outcome = Outcome(error: string, sent: Option<Payload>, navigatedTo: Option<string>)

  const MismatchMessage: string := "Passwords do not match"
  const TooShortMessage: string := "Password must be at least 6 characters"
  const MinPasswordLength: int := 6

  /**
   * One submit; `reply` is what `register` resolves to, used only when it is
   * called. The password length counts characters.
   */
  function Submit(form: RegisterForm, reply: AuthResult): (o: Outcome)
    ensures o.sent.Some? <==> form.password == form.confirm && |form.password| >= MinPasswordLength
    ensures o.sent.Some? ==> o.sent.value == Payload(form.name, form.email, form.password)
    ensures form.password != form.confirm ==> o.error == MismatchMessage
    ensures form.password == form.confirm && |form.password| < MinPasswordLength ==> o.error == TooShortMessage
    ensures o.navigatedTo.Some? <==> o.sent.Some? && reply.Succeeded?
    ensures o.navigatedTo.Some? ==> o.navigatedTo.value == "/" && o.error == ""
    ensures o.sent.Some? && reply.Failed? ==> o.error == reply.message
  {
    if form.password != form.confirm then Outcome(MismatchMessage, None, None)
    else if |form.password| < MinPasswordLength then Outcome(TooShortMessage, None, None)
    else if reply.Succeeded? then Outcome("", Some(Payload(form.name, form.email, form.password)), Some("/"))
    else Outcome(reply.message, Some(Payload(form.name, form.email, form.password)), None)
  }

  /**
   * The match check comes first: a short password that also differs from its
   * confirmation reports the mismatch, and fixing the mismatch then reveals
   * the length error.
   */
  lemma MismatchReportedFirst(name: string, email: string, password: string, confirm: string, reply: AuthResult)
    requires password != confirm && |password| < MinPasswordLength
    ensures Submit(RegisterForm(name, email, password, confirm), reply).error == MismatchMessage
    ensures Submit(RegisterForm(name, email, password, password), reply).error == TooShortMessage
  {
  }

  /**
   * A server rejection reaches the page as the server's message, or
   * "Registration failed" when it sent none, and nothing navigates.
   */
  lemma ServerErrorShown(form: RegisterForm, message: Option<string>)
    requires form.password == form.confirm && |form.password| >= MinPasswordLength
    ensures var o := Submit(form, RegisterResult(Err(message)));
            && o.navigatedTo.None?
            && o.error == (if Truthy(message) then message.value else "Registration failed")
  {
  }
}
