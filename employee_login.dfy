/**
 * The employee login page: its WhatsApp-number schema and what a login
 * attempt does to the session slots.
 */
module EmployeeLoginPage {
  import opened Wrappers
  import opened Storage
  import opened Router
  import opened Api
  import AppRoutes
  import PublicRoute

  const RequiredMessage := "WhatsApp number is required"
  const InvalidMessage := "Please enter a valid WhatsApp number"
  const SuccessToast := "Login successful! Redirecting to your portal..."
  const FailureFallback := "Login failed. Please try again."
  const Target: Path := "/employee-leave"

  predicate IsDigit(c: char) {
    '0' <= c <= '9'
  }

  predicate AllDigits(s: string) {
    forall i :: 0 <= i < |s| ==> IsDigit(s[i])
  }

  /** The pattern `^\+?[0-9]{10,15}$`, stated directly: an optional `+`, then 10 to 15 digits and nothing else. */
  predicate WhatsappPattern(s: string) {
    var digits := if |s| > 0 && s[0] == '+' then s[1..] else s;
    10 <= |digits| <= 15 && AllDigits(digits)
  }

  /** The states of a deterministic automaton for the pattern. */
  datatype MatchState = Start | Digits(count: nat) | Dead

  function Step(st: MatchState, c: char): MatchState {
    match st
    case Start => if c == '+' then Digits(0) else if IsDigit(c) then Digits(1) else Dead
    case Digits(n) => if IsDigit(c) && n < 15 then Digits(n + 1) else Dead
    case Dead => Dead
  }

  function Run(st: MatchState, s: string): MatchState
    decreases |s|
  {
    if s == [] then st else Run(Step(st, s[0]), s[1..])
  }

  /** A final state of the automaton that accepts: 10 to 15 digits read. */
  predicate Accepting(st: MatchState) {
    st.Digits? && 10 <= st.count <= 15
  }

  lemma {:induction false} RunDead(s: string)
    ensures Run(Dead, s) == Dead
    decreases |s|
  {
    if s != [] {
      RunDead(s[1..]);
    }
  }

  /** After `n` digits, the rest of the input is read as further digits, up to 15 in all. */
  lemma {:induction false} RunDigits(n: nat, s: string)
    requires n <= 15
    ensures Run(Digits(n), s) == if AllDigits(s) && n + |s| <= 15 then Digits(n + |s|) else Dead
    decreases |s|
  {
    if s != [] {
      if IsDigit(s[0]) && n < 15 {
        RunDigits(n + 1, s[1..]);
        assert AllDigits(s) <==> AllDigits(s[1..]) by {
          assert forall i :: 0 < i < |s| ==> s[i] == s[1..][i - 1];
        }
      } else {
        RunDead(s[1..]);
        if IsDigit(s[0]) {
          assert n == 15;
        }
      }
    }
  }

  /** Run over the whole string, the automaton accepts exactly the strings the pattern describes. */
  lemma RunMatchesPattern(s: string)
    ensures Accepting(Run(Start, s)) <==> WhatsappPattern(s)
  {
    if s != [] {
      if s[0] == '+' {
        RunDigits(0, s[1..]);
      } else if IsDigit(s[0]) {
        RunDigits(1, s[1..]);
        assert AllDigits(s) <==> AllDigits(s[1..]) by {
          assert forall i :: 0 < i < |s| ==> s[i] == s[1..][i - 1];
        }
      } else {
        RunDead(s[1..]);
      }
    }
  }

  /**
   * The pattern decided by a deterministic automaton run over the whole
   * string. It accepts exactly the strings the pattern describes.
   */
  predicate RegexMatches(s: string)
    ensures RegexMatches(s) <==> WhatsappPattern(s)
  {
    RunMatchesPattern(s);
    Accepting(Run(Start, s))
  }

  /**
   * The message shown under the field: the first failing check of the schema
   * (`min(1)`, then the pattern), or none when the number is accepted.
   */
  function WhatsappError(s: string): (e: Option<string>)
    ensures e.None? <==> WhatsappPattern(s)
    ensures e == Some(RequiredMessage) <==> s == ""
    ensures e.Some? ==> e.value in {RequiredMessage, InvalidMessage}
  {
    if |s| < 1 then Some(RequiredMessage)
    else if !RegexMatches(s) then Some(InvalidMessage)
    else None
  }

  /** The `min(1)` check is implied by the pattern: every accepted number has at least 10 characters. */
  lemma PatternImpliesMinLength(s: string)
    requires WhatsappPattern(s)
    ensures |s| >= 10
  {
  }

  /** A well-formed international number is accepted. */
  lemma AcceptedExample()
    ensures WhatsappError("+919147389854") == None
  {
    var s := "+919147389854";
    var d := "919147389854";
    assert s[1..] == d;
    assert AllDigits(d) by {
      assert d == ['9', '1', '9', '1', '4', '7', '3', '8', '9', '8', '5', '4'];
    }
    assert WhatsappPattern(s);
  }

  /** Nine digits, sixteen digits, a doubled `+` and an embedded letter are each refused. */
  lemma RejectedExamples()
    ensures WhatsappError("914738985") == Some(InvalidMessage)
    ensures WhatsappError("9191473898541234") == Some(InvalidMessage)
    ensures WhatsappError("++919147389854") == Some(InvalidMessage)
    ensures WhatsappError("+91914a389854") == Some(InvalidMessage)
  {
    var s := "+91914a389854";
    assert s[1..][5] == 'a';
    var t := "++919147389854";
    assert t[1..][0] == '+';
  }

  /**
   * Submitting the form: nothing is sent unless the number is accepted; a
   * successful login writes the `user` slot and nothing else and then opens
   * the employee panel; a failed one changes no slot.
   */
  method SubmitLogin(store: BrowserStorage, whatsappNumber: string, response: Response<JsonText>)
    returns (effect: LoginEffect)
    modifies store
    ensures WhatsappError(whatsappNumber).Some? ==> effect == FormRejected && store.items == old(store.items)
    ensures WhatsappError(whatsappNumber).None? && response.Ok? ==>
      store.items == old(store.items)[User.Key() := response.data] && effect == LoggedIn(SuccessToast, Target)
    ensures WhatsappError(whatsappNumber).None? && response.Err? ==>
      store.items == old(store.items) && effect == LoginFailed(ErrorText(response.message, FailureFallback))
  {
    if WhatsappError(whatsappNumber).Some? {
      return FormRejected;
    }
    match response
    case Ok(data) =>
      store.SetItem("user", data);
      effect := LoggedIn(SuccessToast, Target);
    case Err(message) =>
      effect := LoginFailed(ErrorText(message, FailureFallback));
  }

  /** The page's target is the panel the table protects with `user`. */
  lemma TargetIsPanel()
    ensures Target == PublicRoute.Target(User)
  {
  }

  /** After a successful login, the `user` panel admits the visitor. */
  lemma LoginOpensTarget(m: Slots, data: JsonText)
    ensures AppRoutes.Navigate(m[User.Key() := data], PublicRoute.Target(User)) == AppRoutes.Render(AppRoutes.EmployeeLeave)
  {
    var m' := m[User.Key() := data];
    assert Present(m', User);
    AppRoutes.PanelAdmits(m', User);
  }

  /**
   * The login page is only shown to a visitor holding no slot, so a
   * successful login through it leaves exactly the `user` slot present.
   */
  lemma LoginFromSignedOut(m: Slots, data: JsonText)
    requires !AnyPresent(m)
    ensures OnlyPresent(m[User.Key() := data], User)
  {
    WriteLeavesOtherSlots(m, User, data);
    forall r: Role | r != User ensures !Present(m, r) {
      if Present(m, r) {
        AnyPresentWitness(m, r);
      }
    }
  }
}
