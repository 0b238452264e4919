/**
 * The replacement `UpdatePassword.submitPasswordChange` of the
 * password-change page: the same username normalisation as the sign-in
 * page, then seven checks with an early return each. The handler returns
 * `true`, letting the form go, only when every check passes.
 */
module PasswordChange {
  import opened Checks
  import opened UserNames

  /** The page's `UpdErrors`, one per check. */
  datatype UpdError =
    | UserNameFormatError
    | OldPasswordEmpty
    | OldPasswordTooLong
    | NewPasswordEmpty
    | ConfirmNewPasswordEmpty
    | NewPasswordTooLong
    | MismatchError

  datatype Verdict = Accepted | Rejected(error: UpdError)

  /**
   * What one call leaves behind: the form's `UserName` field, the verdict,
   * and the handler's return value.
   */
  datatype Submission = Submission(userNameField: string, verdict: Verdict, returned: bool)

  /**
   * The length a JavaScript string reports: UTF-16 code units, so a
   * character outside the Basic Multilingual Plane counts twice.
   */
  function CodeUnits(s: string): (n: nat)
    ensures |s| <= n <= 2 * |s|
    ensures (forall i :: 0 <= i < |s| ==> s[i] as int < 0x1_0000) ==> n == |s|
    ensures (forall i :: 0 <= i < |s| ==> s[i] as int >= 0x1_0000) ==> n == 2 * |s|
  {
    if s == [] then 0
    else (if s[0] as int < 0x1_0000 then 1 else 2) + CodeUnits(s[1..])
  }

  /**
   * The length of a concatenation is the sum of the lengths, and a single
   * character is one code unit inside the Basic Multilingual Plane and two
   * (a surrogate pair) outside it.
   */
  lemma {:induction false} CodeUnitsAppend(a: string, b: string)
    ensures CodeUnits(a + b) == CodeUnits(a) + CodeUnits(b)
    ensures |a| == 1 ==> CodeUnits(a) == if a[0] as int < 0x1_0000 then 1 else 2
  {
    if a == [] {
      assert a + b == b;
    } else {
      assert (a + b)[1..] == a[1..] + b;
      CodeUnitsAppend(a[1..], b);
    }
  }

  /** A password is too long when its length exceeds the page's maximum. */
  predicate TooLong(password: string, maxPasswordLength: int)
  {
    CodeUnits(password) > maxPasswordLength
  }

  /**
   * The handler, given the typed username, the prior value of the form's
   * `UserName` field, the three password inputs and the page's
   * `maxPasswordLength`.
   */
  function SubmitPasswordChange(typed: string, field: string, oldPassword: string,
                                newPassword: string, confirmNewPassword: string,
                                maxPasswordLength: int): (r: Submission)
    ensures r.userNameField == FormUserName(typed, field)
    ensures r.returned <==> r.verdict == Accepted
    ensures r.returned <==>
      && typed != "" && oldPassword != "" && newPassword != "" && confirmNewPassword != ""
      && CodeUnits(oldPassword) <= maxPasswordLength
      && CodeUnits(newPassword) <= maxPasswordLength
      && newPassword == confirmNewPassword
  {
    var userNameField := FormUserName(typed, field);
    var verdict :=
      if typed == "" then Rejected(UserNameFormatError)
      else if oldPassword == "" then Rejected(OldPasswordEmpty)
      else if TooLong(oldPassword, maxPasswordLength) then Rejected(OldPasswordTooLong)
      else if newPassword == "" then Rejected(NewPasswordEmpty)
      else if confirmNewPassword == "" then Rejected(ConfirmNewPasswordEmpty)
      else if TooLong(newPassword, maxPasswordLength) then Rejected(NewPasswordTooLong)
      else if newPassword != confirmNewPassword then Rejected(MismatchError)
      else Accepted;
    Submission(userNameField, verdict, verdict == Accepted)
  }

  /** The seven checks in the order the handler runs them. */
  function ChangeChecks(typed: string, oldPassword: string, newPassword: string,
                        confirmNewPassword: string, maxPasswordLength: int): (checks: seq<Check<UpdError>>)
  {
    [ Check(typed == "", UserNameFormatError),
      Check(oldPassword == "", OldPasswordEmpty),
      Check(TooLong(oldPassword, maxPasswordLength), OldPasswordTooLong),
      Check(newPassword == "", NewPasswordEmpty),
      Check(confirmNewPassword == "", ConfirmNewPasswordEmpty),
      Check(TooLong(newPassword, maxPasswordLength), NewPasswordTooLong),
      Check(newPassword != confirmNewPassword, MismatchError) ]
  }

  /**
   * The handler reports exactly the first failing check of the chain, and
   * accepts exactly when every check passes.
   */
  lemma ChangeReportsFirstFailure(typed: string, field: string, oldPassword: string,
                                  newPassword: string, confirmNewPassword: string,
                                  maxPasswordLength: int)
    ensures var checks := ChangeChecks(typed, oldPassword, newPassword, confirmNewPassword, maxPasswordLength);
            var i := FirstFailing(checks);
            SubmitPasswordChange(typed, field, oldPassword, newPassword, confirmNewPassword,
                                 maxPasswordLength).verdict
              == if i < |checks| then Rejected(checks[i].error) else Accepted
  {
    var checks := ChangeChecks(typed, oldPassword, newPassword, confirmNewPassword, maxPasswordLength);
    var i :=
      if typed == "" then 0
      else if oldPassword == "" then 1
      else if TooLong(oldPassword, maxPasswordLength) then 2
      else if newPassword == "" then 3
      else if confirmNewPassword == "" then 4
      else if TooLong(newPassword, maxPasswordLength) then 5
      else if newPassword != confirmNewPassword then 6
      else 7;
    FirstFailingUnique(checks, i);
  }

  /**
   * A password exactly `maxPasswordLength` code units long is not too long:
   * with every other check passing, such a change is accepted.
   */
  lemma MaximumLengthAccepted(typed: string, field: string, password: string, maxPasswordLength: int)
    requires typed != "" && password != ""
    requires CodeUnits(password) == maxPasswordLength
    ensures SubmitPasswordChange(typed, field, password, password, password, maxPasswordLength).returned
  {
  }
}
