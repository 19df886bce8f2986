/** The login page (Login.tsx): the email/phone tabs, the two-step phone
    login with a one-time password, and the submit button's label. */
module LoginPage {
  import opened Wrappers

  datatype LoginMethod = Email | Phone

  /** The arguments of a `login(email, password)` call. */
  datatype Credentials = Credentials(email: string, password: string)

  /** The accepted one-time password and the password a phone login sends. */
  const MockOtp: string := "123456"
  const PhonePassword: string := "password123"

  /** The form's state fields. */
  datatype LoginState = LoginState(
    email: string, password: string, loginMethod: LoginMethod,
    phone: string, isOtpSent: bool, otp: string)

  /** An OTP is only ever outstanding in phone mode. */
  predicate Consistent(s: LoginState)
  {
    s.isOtpSent ==> s.loginMethod == Phone
  }

  const InitialLoginState: LoginState := LoginState("", "", Email, "", false, "")

  /** `toggleLoginMethod`: the other tab, with no OTP outstanding. Both
      tab buttons call it, so the active tab's button switches too. */
  function Toggled(s: LoginState): (r: LoginState)
    ensures r.loginMethod != s.loginMethod && !r.isOtpSent
    ensures Consistent(r)
  {
    s.(loginMethod := if s.loginMethod == Email then Phone else Email, isOtpSent := false)
  }

  datatype SubmitOutcome = SubmitOutcome(next: LoginState, attempt: Option<Credentials>)

  /** `handleSubmit`: email mode logs in with the typed credentials; phone
      mode first marks the OTP as sent, then logs in as
      `<phone>@example.com` only when the OTP is the accepted one. */
  function Submitted(s: LoginState): (r: SubmitOutcome)
    ensures s.loginMethod == Email ==> r.next == s && r.attempt == Some(Credentials(s.email, s.password))
    ensures s.loginMethod == Phone && !s.isOtpSent ==> r.next == s.(isOtpSent := true) && r.attempt.None?
    ensures s.loginMethod == Phone && s.isOtpSent ==>
              r.next == s && (r.attempt.Some? <==> s.otp == MockOtp)
    ensures r.attempt.Some? && s.loginMethod == Phone ==>
              r.attempt.value == Credentials(s.phone + "@example.com", PhonePassword)
    ensures Consistent(s) ==> Consistent(r.next)
  {
    if s.loginMethod == Email then SubmitOutcome(s, Some(Credentials(s.email, s.password)))
    else if !s.isOtpSent then SubmitOutcome(s.(isOtpSent := true), None)
    else if s.otp == MockOtp then SubmitOutcome(s, Some(Credentials(s.phone + "@example.com", PhonePassword)))
    else SubmitOutcome(s, None)
  }

  /** The submit button's text. */
  function SubmitLabel(loading: bool, s: LoginState): (text: string)
    ensures text == "Loading..." <==> loading
    ensures !loading && s.isOtpSent ==> text == "Verify OTP"
  {
    if loading then "Loading..."
    else if s.isOtpSent then "Verify OTP"
    else if s.loginMethod == Email then "Login"
    else "Send OTP"
  }

  /** In a consistent state the label names the step the next submit takes. */
  lemma LabelNamesNextStep(loading: bool, s: LoginState)
    requires Consistent(s)
    ensures SubmitLabel(loading, s) == "Login" <==> !loading && s.loginMethod == Email
    ensures SubmitLabel(loading, s) == "Send OTP" <==> !loading && s.loginMethod == Phone && !s.isOtpSent
    ensures SubmitLabel(loading, s) == "Verify OTP" <==> !loading && s.isOtpSent
    ensures !loading && SubmitLabel(loading, s) != "Send OTP" ==> Submitted(s).next == s
  {
  }

  /** A phone login takes two submits: the first sends the OTP and logs
      nobody in, the second logs in with the mock OTP. */
  lemma PhoneLoginTakesTwoSubmits(s: LoginState)
    requires s.loginMethod == Phone && !s.isOtpSent && s.otp == MockOtp
    ensures Submitted(s).attempt.None?
    ensures Submitted(Submitted(s).next).attempt == Some(Credentials(s.phone + "@example.com", PhonePassword))
  {
  }

  /** Toggling twice returns to the same tab with no OTP outstanding, and
      any toggle abandons an outstanding OTP. */
  lemma ToggleTwice(s: LoginState)
    ensures Toggled(Toggled(s)) == s.(isOtpSent := false)
    ensures Submitted(Toggled(Toggled(s))).attempt.None? <==> s.loginMethod == Phone
  {
  }

  /** The page's form. */
  class LoginForm {
    var email: string
    var password: string
    var loginMethod: LoginMethod
    var phone: string
    var isOtpSent: bool
    var otp: string

    function State(): LoginState
      reads this
    {
      LoginState(email, password, loginMethod, phone, isOtpSent, otp)
    }

    ghost predicate Valid()
      reads this
    {
      Consistent(State())
    }

    constructor()
      ensures Valid() && State() == InitialLoginState
    {
      email, password, loginMethod, phone, isOtpSent, otp := "", "", Email, "", false, "";
    }

    /** The `onChange` handlers of the four inputs. */
    method Edit(email': string, password': string, phone': string, otp': string)
      requires Valid()
      modifies this`email, this`password, this`phone, this`otp
      ensures Valid()
      ensures State() == old(State()).(email := email', password := password', phone := phone', otp := otp')
    {
      email, password, phone, otp := email', password', phone', otp';
    }

    method ToggleLoginMethod()
      requires Valid()
      modifies this`loginMethod, this`isOtpSent
      ensures Valid()
      ensures State() == Toggled(old(State()))
    {
      loginMethod := if loginMethod == Email then Phone else Email;
      isOtpSent := false;
    }

    /** Returns the `login` call the submit makes, if any. */
    method HandleSubmit() returns (attempt: Option<Credentials>)
      requires Valid()
      modifies this`isOtpSent
      ensures Valid()
      ensures State() == Submitted(old(State())).next && attempt == Submitted(old(State())).attempt
    {
      if loginMethod == Email {
        attempt := Some(Credentials(email, password));
      } else if !isOtpSent {
        isOtpSent := true;
        attempt := None;
      } else if otp == MockOtp {
        attempt := Some(Credentials(phone + "@example.com", PhonePassword));
      } else {
        attempt := None;
      }
    }
  }
}
