/**
 * The HR login page: its employee-code and password schema and what a login
 * attempt does to the session slots.
 */
module HrLoginPage {
  import opened Wrappers
  import opened Storage
  import opened Router
  import opened Api
  import AppRoutes
  import PublicRoute

  const CodeRequiredMessage := "Employee code is required"
  const PasswordTooShortMessage := "Password must be at least 5 characters"
  const SuccessToast := "Login successful! Redirecting to HR portal..."
  const FailureFallback := "Login failed. Please try again."
  const Target: Path := "/hr-panel"

  const MinCode := 1
  const MinPassword := 5

  /** The messages shown under the two fields; both empty when the form is valid. */
  datatype FieldErrors = FieldErrors(employeeCode: Option<string>, password: Option<string>)

  /** loginSchema: each field is checked on its own length. */
  function SchemaErrors(employeeCode: string, password: string): (e: FieldErrors)
    ensures e.employeeCode.None? <==> employeeCode != ""
    ensures e.password.None? <==> |password| >= MinPassword
    ensures e.employeeCode.Some? ==> e.employeeCode.value == CodeRequiredMessage
    ensures e.password.Some? ==> e.password.value == PasswordTooShortMessage
  {
    FieldErrors(
      if |employeeCode| < MinCode then Some(CodeRequiredMessage) else None,
      if |password| < MinPassword then Some(PasswordTooShortMessage) else None)
  }

  /** The form is valid when neither field has a message. */
  predicate Valid(employeeCode: string, password: string) {
    SchemaErrors(employeeCode, password) == FieldErrors(None, None)
  }

  /**
   * With a code entered, a four-character password fails and a five-character
   * one passes; with no code, no password is enough.
   */
  lemma PasswordBoundary(employeeCode: string)
    requires employeeCode != ""
    ensures !Valid(employeeCode, "abcd")
    ensures Valid(employeeCode, "abcde")
    ensures forall password :: !Valid("", password)
  {
  }

  /**
   * Submitting the form: nothing is sent unless both fields are valid; a
   * successful login writes the `hr` slot and nothing else and then opens the
   * HR panel; a failed one changes no slot and shows the server's message or
   * the fixed fallback.
   */
  method SubmitLogin(store: BrowserStorage, employeeCode: string, password: string, response: Response<JsonText>)
    returns (effect: LoginEffect)
    modifies store
    ensures !Valid(employeeCode, password) ==> effect == FormRejected && store.items == old(store.items)
    ensures Valid(employeeCode, password) && response.Ok? ==>
      store.items == old(store.items)[Hr.Key() := response.data] && effect == LoggedIn(SuccessToast, Target)
    ensures Valid(employeeCode, password) && response.Err? ==>
      store.items == old(store.items) && effect == LoginFailed(ErrorText(response.message, FailureFallback))
  {
    if !Valid(employeeCode, password) {
      return FormRejected;
    }
    match response
    case Ok(data) =>
      store.SetItem("hr", data);
      effect := LoggedIn(SuccessToast, Target);
    case Err(message) =>
      effect := LoginFailed(ErrorText(message, FailureFallback));
  }

  /** The page's target is the panel the table protects with `hr`. */
  lemma TargetIsPanel()
    ensures Target == PublicRoute.Target(Hr)
  {
  }

  /** After a successful login, the `hr` panel admits the visitor. */
  lemma LoginOpensTarget(m: Slots, data: JsonText)
    ensures AppRoutes.Navigate(m[Hr.Key() := data], PublicRoute.Target(Hr)) == AppRoutes.Render(AppRoutes.HrPanel)
  {
    var m' := m[Hr.Key() := data];
    assert Present(m', Hr);
    AppRoutes.PanelAdmits(m', Hr);
  }

  /**
   * The login page is only shown to a visitor holding no slot, so a
   * successful login through it leaves exactly the `hr` slot present.
   */
  lemma LoginFromSignedOut(m: Slots, data: JsonText)
    requires !AnyPresent(m)
    ensures OnlyPresent(m[Hr.Key() := data], Hr)
  {
    WriteLeavesOtherSlots(m, Hr, data);
    forall r: Role | r != Hr ensures !Present(m, r) {
      if Present(m, r) {
        AnyPresentWitness(m, r);
      }
    }
  }
}
