/** The sign-in form (app/login.tsx): a non-empty check on both fields, then one sign-in request. */
module LoginForm {
  import opened Wrappers
  import Feedback

  const FillAllFields := "Please fill all fields"
  const LoginFailed := "Login failed"

  /** What the sign-in request carries. */
  datatype Credentials = Credentials(email: string, password: string)

  /** Either an alert (and no request) or the request to send. */
  datatype LoginOutcome = Alert(text: string) | Submit(credentials: Credentials)

  /** The submit handler of the form; fields are not trimmed. */
  function HandleLogin(email: string, password: string): (r: LoginOutcome)
    ensures r.Submit? <==> email != "" && password != ""
    ensures r.Submit? ==> r.credentials == Credentials(email, password)
    ensures r.Alert? ==> r.text == FillAllFields
  {
    if email == "" || password == "" then Alert(FillAllFields)
    else Submit(Credentials(email, password))
  }

  /** The text holds only spaces, tabs and line breaks. */
  predicate IsBlank(s: string) {
    forall i :: 0 <= i < |s| ==> s[i] == ' ' || s[i] == '\t' || s[i] == '\n' || s[i] == '\r'
  }

  /** Whitespace counts as input: non-empty blank fields are submitted as they are, untrimmed. */
  lemma BlankFieldsAreSubmitted(email: string, password: string)
    requires email != "" && password != ""
    requires IsBlank(email) && IsBlank(password)
    ensures HandleLogin(email, password) == Submit(Credentials(email, password))
  {
  }

  /** The text shown when the sign-in request fails (the alert and the inline error line alike). */
  function LoginFailureText(errorMessage: Option<string>): (text: string)
    ensures text != ""
    ensures errorMessage.Some? && errorMessage.value != "" ==> text == errorMessage.value
    ensures errorMessage.None? || errorMessage.value == "" ==> text == LoginFailed
  {
    Feedback.ErrorText(errorMessage, LoginFailed)
  }
}
