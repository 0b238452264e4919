/**
 * The replacement `Login.submitLoginRequest` of the sign-in page: normalise
 * the username, then check the required fields in order and either report
 * the first error or submit the form. The handler always returns `false`,
 * so the browser's own form submission never runs.
 */
module LoginForm {
  import opened Checks
  import opened UserNames

  /** The outcomes of one call: one of the page's `LoginErrors`, or the form is submitted. */
  datatype Outcome = UserNameFormatError | PasswordEmpty | Submit

  /**
   * What one call leaves behind: the form's `UserName` field, the outcome,
   * and the handler's return value.
   */
  datatype Submission = Submission(userNameField: string, outcome: Outcome, returned: bool)

  /**
   * The handler, given the typed username, the prior value of the form's
   * `UserName` field and the typed password. The emptiness checks read the
   * typed username; by `UserNames.Normalise` that is the same test when the
   * input is itself the `UserName` field.
   */
  function SubmitLoginRequest(typed: string, field: string, password: string): (r: Submission)
    ensures r.userNameField == FormUserName(typed, field)
    ensures r.outcome == UserNameFormatError <==> typed == ""
    ensures r.outcome == PasswordEmpty <==> typed != "" && password == ""
    ensures r.outcome == Submit <==> typed != "" && password != ""
    ensures !r.returned
  {
    var userNameField := FormUserName(typed, field);
    if typed == "" then Submission(userNameField, UserNameFormatError, false)
    else if password == "" then Submission(userNameField, PasswordEmpty, false)
    else Submission(userNameField, Submit, false)
  }

  /** The required-field checks in the order the handler runs them. */
  function LoginChecks(typed: string, password: string): (checks: seq<Check<Outcome>>)
  {
    [Check(typed == "", UserNameFormatError), Check(password == "", PasswordEmpty)]
  }

  /**
   * The handler reports exactly the first failing check of the chain, and
   * submits exactly when every check passes.
   */
  lemma LoginReportsFirstFailure(typed: string, field: string, password: string)
    ensures var checks := LoginChecks(typed, password);
            var i := FirstFailing(checks);
            SubmitLoginRequest(typed, field, password).outcome
              == if i < |checks| then checks[i].error else Submit
  {
  }

  /**
   * When the username input is itself the form's `UserName` field, every
   * username that is actually submitted names a domain.
   */
  lemma SubmittedNameNamesDomain(typed: string, password: string)
    requires SubmitLoginRequest(typed, typed, password).outcome == Submit
    ensures NamesDomain(SubmitLoginRequest(typed, typed, password).userNameField)
  {
  }
}
