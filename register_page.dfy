/** The registration page's form action. */
module RegisterPage {
  import opened Wrappers
  import opened Text
  import opened Wire
  import opened AuthContext

  const RegisterSuccessFallback := "Registration successful! Please login."
  const RegisterFailureFallback := "Registration failed. Please try again."

  /**
   * The form's inputs: the four text inputs always have a value; the names
   * have no inputs, so reading them gives `null` unless a field is added.
   */
  datatype RegisterForm = RegisterForm(
    username: string, email: string, password: string, password2: string,
    firstName: Option<string>, lastName: Option<string>)

  /** The arguments the action passes to `register`: a missing or empty name becomes ''. */
  function RegisterArguments(form: RegisterForm): (r: RegisterPayload)
    ensures r.username == form.username && r.email == form.email
    ensures r.password == form.password && r.password2 == form.password2
    ensures r.firstName == (if Truthy(form.firstName) then form.firstName.value else "")
    ensures r.lastName == (if Truthy(form.lastName) then form.lastName.value else "")
  {
    RegisterPayload(form.username, form.email, form.password, form.password2,
      OrElse(form.firstName, ""), OrElse(form.lastName, ""))
  }

  /** `${key}: ${value}` for one entry of the errors object; the message list renders joined by ','. */
  function ErrorEntryText(entry: (string, seq<string>)): (r: string)
    ensures |r| >= |entry.0| + 2 && r[..|entry.0|] == entry.0 && r[|entry.0|..|entry.0| + 2] == ": "
  {
    entry.0 + ": " + Join(",", entry.1)
  }

  /** The entries of the errors object as text, joined by ', '. */
  function ErrorsText(errors: FieldErrors): (r: string)
  {
    Join(", ", seq(|errors|, i requires 0 <= i < |errors| => ErrorEntryText(errors[i])))
  }

  /**
   * The action: success shows the message (or the success fallback) and
   * moves on to the login page; a failure with an errors object shows its
   * entries (or the failure fallback when it has none); any other failure
   * shows the message or the failure fallback.
   */
  function RegisterAction(result: RegisterResult): (r: ActionOutcome)
    ensures r.redirect.Some? <==> result.success
    ensures result.success ==> r == ActionOutcome(OrElse(result.message, RegisterSuccessFallback), Some("/login"))
    ensures !result.success && result.errors.Some? ==> r.message == OrElse(Some(ErrorsText(result.errors.value)), RegisterFailureFallback)
    ensures !result.success && result.errors.None? ==> r.message == OrElse(result.message, RegisterFailureFallback)
  {
    if result.success then ActionOutcome(OrElse(result.message, RegisterSuccessFallback), Some("/login"))
    else if result.errors.Some? then ActionOutcome(OrElse(Some(ErrorsText(result.errors.value)), RegisterFailureFallback), None)
    else ActionOutcome(OrElse(result.message, RegisterFailureFallback), None)
  }

  /**
   * A refusal with field errors shows those errors, never the fallback: the
   * fallback appears only for an errors object without entries.
   */
  lemma FieldErrorsShown(result: RegisterResult)
    requires !result.success && result.errors.Some?
    ensures result.errors.value != [] ==> RegisterAction(result).message == ErrorsText(result.errors.value) != ""
    ensures result.errors.value == [] ==> RegisterAction(result).message == RegisterFailureFallback
  {
    var errors := result.errors.value;
    var parts := seq(|errors|, i requires 0 <= i < |errors| => ErrorEntryText(errors[i]));
    JoinEmptyIff(", ", parts);
    if errors == [] {
      assert parts == [];
    }
  }

  /** A single field with a single message reads `field: message`. */
  lemma SingleErrorText(field: string, message: string)
    ensures ErrorsText([(field, [message])]) == field + ": " + message
  {
  }
}
