/** The login page's form action. */
module LoginPage {
  import opened Wrappers
  import opened Text
  import opened Wire
  import opened AuthContext

  const LoginFallback := "Login failed. Please try again."

  /**
   * The form's username and password go to `login` unchanged; success shows
   * the message (or 'Login successful') and moves on to the job list, failure
   * shows the message (or the fallback) and stays.
   */
  function LoginAction(result: LoginResult): (r: ActionOutcome)
    ensures r.redirect.Some? <==> result.success
    ensures result.success ==> r == ActionOutcome(OrElse(result.message, "Login successful"), Some("/joblist"))
    ensures !result.success ==> r.message == OrElse(result.message, LoginFallback)
  {
    if result.success then ActionOutcome(OrElse(result.message, "Login successful"), Some("/joblist"))
    else ActionOutcome(OrElse(result.message, LoginFallback), None)
  }

  /**
   * The provider always gives a failed login a message that is not empty, so
   * the page shows exactly that message and its own fallback is never used.
   */
  lemma FailureShowsProviderMessage(s: Session, response: Response<LoginBody, MessageBody>)
    requires !response.Ok?
    ensures var result := LoginNext(s, response).result;
      && Truthy(result.message)
      && LoginAction(result) == ActionOutcome(result.message.value, None)
  {
  }

  /** The page after a successful login: the server's message, then the job list. */
  lemma SuccessMovesToJobList(s: Session, body: LoginBody)
    ensures LoginAction(LoginNext(s, Ok(body)).result) == ActionOutcome(OrElse(body.message, "Login successful"), Some("/joblist"))
  {
  }
}
