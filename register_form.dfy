/**
 * The sign-up form (app/register.tsx): three checks in order on the four
 * inputs, then one sign-up request without the confirmation field.
 */
module RegisterForm {
  import opened Wrappers
  import Feedback

  const FillAllFields := "Please fill all fields"
  const PasswordsDoNotMatch := "Passwords do not match"
  const PasswordTooShort := "Password too short"
  const RegistrationFailed := "Registration failed"
  const MinPasswordLength := 6

  /** What the sign-up request carries. */
  datatype SignUpPayload = SignUpPayload(username: string, email: string, password: string)

  /** Either an alert (and no request) or the request to send. */
  datatype RegisterOutcome = Alert(text: string) | Submit(payload: SignUpPayload)

  /** One check of the form: whether it fails and the text shown when it does. */
  datatype Check = Check(fails: bool, text: string)

  /** The checks of the form in the order they are made. */
  function Checks(username: string, email: string, password: string, confirmPassword: string): seq<Check> {
    [ Check(username == "" || email == "" || password == "" || confirmPassword == "", FillAllFields),
      Check(password != confirmPassword, PasswordsDoNotMatch),
      Check(|password| < MinPasswordLength, PasswordTooShort) ]
  }

  /** The text of the first failing check, if any. */
  function FirstFailure(checks: seq<Check>): (text: Option<string>)
    ensures text.None? <==> forall k :: 0 <= k < |checks| ==> !checks[k].fails
    ensures text.Some? ==> exists k :: 0 <= k < |checks| && checks[k].fails && checks[k].text == text.value &&
                                       forall l :: 0 <= l < k ==> !checks[l].fails
  {
    if checks == [] then None
    else if checks[0].fails then Some(checks[0].text)
    else
      var rest := FirstFailure(checks[1..]);
      assert forall k :: 1 <= k < |checks| ==> checks[k] == checks[1..][k - 1];
      rest
  }

  /** The submit handler of the form. */
  function HandleRegister(username: string, email: string, password: string, confirmPassword: string): (r: RegisterOutcome)
    ensures r.Submit? <==>
              && username != "" && email != "" && password != "" && confirmPassword != ""
              && password == confirmPassword
              && |password| >= MinPasswordLength
    ensures r.Submit? ==> r.payload == SignUpPayload(username, email, password)
    ensures username == "" || email == "" || password == "" || confirmPassword == "" ==> r == Alert(FillAllFields)
    ensures username != "" && email != "" && password != "" && confirmPassword != "" && password != confirmPassword ==>
              r == Alert(PasswordsDoNotMatch)
    ensures username != "" && email != "" && password != "" && password == confirmPassword && |password| < MinPasswordLength ==>
              r == Alert(PasswordTooShort)
  {
    if username == "" || email == "" || password == "" || confirmPassword == "" then Alert(FillAllFields)
    else if password != confirmPassword then Alert(PasswordsDoNotMatch)
    else if |password| < MinPasswordLength then Alert(PasswordTooShort)
    else Submit(SignUpPayload(username, email, password))
  }

  /** The handler alerts with the text of the first failing check, and submits when none fails. */
  lemma HandleRegisterFollowsCheckOrder(username: string, email: string, password: string, confirmPassword: string)
    ensures var r := HandleRegister(username, email, password, confirmPassword);
            match FirstFailure(Checks(username, email, password, confirmPassword))
            case Some(text) => r == Alert(text)
            case None => r.Submit?
  {
    var checks := Checks(username, email, password, confirmPassword);
    if FirstFailure(checks).None? {
      assert !checks[0].fails && !checks[1].fails && !checks[2].fails;
    }
  }

  /** The alert shown when the sign-up request fails. */
  function RegisterFailureText(errorMessage: Option<string>): (text: string)
    ensures text != ""
    ensures errorMessage.Some? && errorMessage.value != "" ==> text == errorMessage.value
    ensures errorMessage.None? || errorMessage.value == "" ==> text == RegistrationFailed
  {
    Feedback.ErrorText(errorMessage, RegistrationFailed)
  }
}
