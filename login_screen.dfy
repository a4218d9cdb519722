/** The sign-in screen: a presence check on both fields and the sign-in
    sequence. */
module Login {
  import opened Wrappers
  import opened Forms

  const FieldsMissing := Alert("Hata", "Lütfen e-posta ve şifre alanlarını doldurun.")
  const RetryTitle := "Lütfen Tekrar Deneyin"

  /** `validateForm`: both fields non-empty; no format or length check. */
  function ValidateForm(email: string, password: string): (r: FormCheck)
    ensures r.Valid? <==> email != "" && password != ""
    ensures r.Invalid? ==> r.alert == FieldsMissing
  {
    if email == "" || password == "" then Invalid(FieldsMissing) else Valid
  }

  class LoginScreen {
    var email: string
    var password: string
    var loading: bool

    constructor ()
      ensures email == "" && password == "" && !loading
    {
      email, password, loading := "", "", false;
    }

    method ChangeEmail(text: string)
      modifies this`email
      ensures email == text
    {
      email := text;
    }

    method ChangePassword(text: string)
      modifies this`password
      ensures password == text
    {
      password := text;
    }

    /** `handleLogin`, with `signIn` the answer of the identity provider.
        An invalid form shows its alert and calls nothing; otherwise
        `loading` brackets the sign-in call, success navigates to the home
        screen and a rejection shows its message. */
    method HandleLogin(signIn: Outcome) returns (effects: seq<Effect>)
      modifies this`loading
      ensures ValidateForm(email, password).Invalid? ==>
        effects == [ShowAlert(FieldsMissing)] && loading == old(loading)
      ensures ValidateForm(email, password).Valid? ==>
        LoadingBracketed(effects) && !loading && effects[1] == SignIn(email, password)
      ensures Navigate("Home") in effects <==> ValidateForm(email, password).Valid? && signIn.Success?
      ensures ValidateForm(email, password).Valid? && signIn.Failure? ==>
        ShowAlert(Alert(RetryTitle, signIn.message)) in effects
      ensures forall e :: e in effects && IsBackendCall(e) ==> e == SignIn(email, password)
      ensures ValidateForm(email, password).Valid? ==>
        |effects| == 4 &&
        effects[2] == if signIn.Success? then Navigate("Home") else ShowAlert(Alert(RetryTitle, signIn.message))
    {
      var check := ValidateForm(email, password);
      if check.Invalid? {
        effects := [ShowAlert(check.alert)];
        return;
      }
      loading := true;
      effects := [SetLoading(true), SignIn(email, password)];
      if signIn.Success? {
        effects := effects + [Navigate("Home")];
      } else {
        effects := effects + [ShowAlert(Alert(RetryTitle, signIn.message))];
      }
      loading := false;
      effects := effects + [SetLoading(false)];
    }
  }
}
