/** The login form of Movie-app/src/pages/Login.jsx: a guard chain; nothing is sent anywhere. */
module LoginPage {
  import opened Wrappers

  const AllFieldsRequired := "All fields are required"
  const PasswordTooShort := "Password must be at least 6 characters long"
  const MinPasswordLength := 6

  /** The `error` state after a submit, and where the page navigates, if anywhere. */
  datatype LoginStep = LoginStep(error: Option<string>, navigateTo: Option<string>)

  /**
   * `handleLogin` given the fields and the current error: emptiness is checked before
   * length, `handleLogin` itself does not check the email's format, and a success leaves
   * the old error in place.
   */
  function HandleLogin(email: string, password: string, error: Option<string>): (r: LoginStep)
    ensures r.navigateTo.Some? <==> email != "" && |password| >= MinPasswordLength
    ensures r.navigateTo.Some? ==> r.navigateTo.value == "/" && r.error == error
    ensures email == "" || password == "" ==> r.error == Some(AllFieldsRequired)
    ensures email != "" && password != "" && |password| < MinPasswordLength ==> r.error == Some(PasswordTooShort)
    ensures error.Some? ==> r.error.Some?
  {
    if email == "" || password == "" then LoginStep(Some(AllFieldsRequired), None)
    else if |password| < MinPasswordLength then LoginStep(Some(PasswordTooShort), None)
    else LoginStep(error, Some("/"))
  }
}
