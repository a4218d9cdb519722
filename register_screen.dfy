/** The sign-up screen: form validation, the terms checkbox and the
    account-creation sequence. */
module Register {
  import opened Wrappers
  import opened Firestore
  import opened Forms

  const FieldsMissing := Alert("Hata", "Lütfen tüm alanları doldurun.")
  const PasswordTooShort := Alert("Hata", "Şifre en az 6 karakter olmalıdır.")
  const TermsNotAccepted := Alert("Hata", "Lütfen kullanım şartlarını kabul edin.")
  const Registered := Alert("Başarı", "Kullanıcı başarıyla kaydedildi.")

  /** `validateForm`: the three checks in order, the first failing one
      choosing the alert. A field counts as missing only when it is "":
      nothing is trimmed. */
  function ValidateForm(email: string, password: string, username: string, acceptedTerms: bool): (r: FormCheck)
    ensures r.Valid? <==> email != "" && password != "" && username != "" && |password| > 6 && acceptedTerms
    ensures email == "" || password == "" || username == "" ==> r == Invalid(FieldsMissing)
    ensures r == Invalid(PasswordTooShort) <==> email != "" && password != "" && username != "" && |password| <= 6
    ensures r == Invalid(TermsNotAccepted) <==> email != "" && username != "" && |password| > 6 && !acceptedTerms
  {
    if email == "" || password == "" || username == "" then Invalid(FieldsMissing)
    else if |password| <= 6 then Invalid(PasswordTooShort)
    else if !acceptedTerms then Invalid(TermsNotAccepted)
    else Valid
  }

  /** A six-character password is refused, although the alert it raises
      asks for at least six characters; whitespace-only fields pass. */
  lemma ValidateFormBoundaries()
    ensures ValidateForm("a@b.co", "123456", "ayse", true) == Invalid(PasswordTooShort)
    ensures ValidateForm("a@b.co", "1234567", "ayse", true) == Valid
    ensures ValidateForm(" ", "       ", " ", true) == Valid
  {
  }

  /** The answer of `createUserWithEmailAndPassword`. */
  datatype CreateResult = Created(uid: string) | CreateFailed(message: string)

  /** The answers the three awaited calls of `handleRegister` would give. */
  datatype RegisterResponses = RegisterResponses(create: CreateResult, profile: Outcome, store: Outcome)

  /** The error message of the first call that rejects, if any. */
  function FirstFailure(responses: RegisterResponses): Option<string> {
    match responses.create
    case CreateFailed(m) => Some(m)
    case Created(_) =>
      if responses.profile.Failure? then Some(responses.profile.message)
      else if responses.store.Failure? then Some(responses.store.message)
      else None
  }

  class RegisterScreen {
    var email: string
    var password: string
    var username: string
    var loading: bool
    var acceptedTerms: bool

    constructor ()
      ensures email == "" && password == "" && username == ""
      ensures !loading && !acceptedTerms
    {
      email, password, username := "", "", "";
      loading, acceptedTerms := false, false;
    }

    method ChangeEmail(text: string)
      modifies this`email
      ensures email == text
    {
      email := text;
    }

    method ChangePassword(text: string)
      modifies this`password
      ensures password == text
    {
      password := text;
    }

    method ChangeUsername(text: string)
      modifies this`username
      ensures username == text
    {
      username := text;
    }

    /** The terms checkbox: `setAcceptedTerms(!acceptedTerms)`. */
    method ToggleTerms()
      modifies this`acceptedTerms
      ensures acceptedTerms == !old(acceptedTerms)
    {
      acceptedTerms := !acceptedTerms;
    }

    /** `handleRegister`, with `responses` the answers of the identity
        provider and the store. An invalid form shows its alert and calls
        nothing; otherwise `loading` brackets create, profile update and
        user-document write, the first rejection ends the attempt with its
        message, and only a full success navigates to the login screen. */
    method HandleRegister(responses: RegisterResponses) returns (effects: seq<Effect>)
      modifies this`loading
      ensures var check := ValidateForm(email, password, username, acceptedTerms);
        (check.Invalid? ==> effects == [ShowAlert(check.alert)] && loading == old(loading)) &&
        (check.Valid? ==> LoadingBracketed(effects) && !loading && effects[1] == CreateUser(email, password))
      ensures ValidateForm(email, password, username, acceptedTerms).Valid? && FirstFailure(responses).Some? ==>
        ShowAlert(Alert("Hata", FirstFailure(responses).value)) in effects
      ensures Navigate("Login") in effects <==>
        ValidateForm(email, password, username, acceptedTerms).Valid? && FirstFailure(responses).None?
      ensures forall e :: e in effects && e.UpdateProfile? ==>
        responses.create.Created? && e == UpdateProfile(responses.create.uid, username)
      ensures forall e :: e in effects && e.WriteUser? ==>
        responses.create.Created? && responses.profile.Success? &&
        e == WriteUser(["users", responses.create.uid], UserRecord(email, username, responses.create.uid))
      ensures ValidateForm(email, password, username, acceptedTerms).Valid? && responses.create.Created? ==>
        |effects| >= 5 && effects[2] == UpdateProfile(responses.create.uid, username)
      ensures ValidateForm(email, password, username, acceptedTerms).Valid? && responses.create.Created? && responses.profile.Success? ==>
        |effects| >= 6 && effects[3] == WriteUser(["users", responses.create.uid], UserRecord(email, username, responses.create.uid))
      ensures ValidateForm(email, password, username, acceptedTerms).Valid? && FirstFailure(responses).Some? ==>
        |effects| == (if responses.create.CreateFailed? then 4 else if responses.profile.Failure? then 5 else 6) &&
        effects[|effects| - 2] == ShowAlert(Alert("Hata", FirstFailure(responses).value)) &&
        ShowAlert(Registered) !in effects
      ensures ValidateForm(email, password, username, acceptedTerms).Valid? && FirstFailure(responses).None? ==>
        |effects| == 7 && effects[4] == ShowAlert(Registered) && effects[5] == Navigate("Login")
    {
      var check := ValidateForm(email, password, username, acceptedTerms);
      if check.Invalid? {
        effects := [ShowAlert(check.alert)];
        return;
      }
      loading := true;
      effects := [SetLoading(true), CreateUser(email, password)];
      match responses.create {
        case CreateFailed(message) =>
          effects := effects + [ShowAlert(Alert("Hata", message))];
        case Created(uid) =>
          effects := effects + [UpdateProfile(uid, username)];
          if responses.profile.Failure? {
            effects := effects + [ShowAlert(Alert("Hata", responses.profile.message))];
          } else {
            effects := effects + [WriteUser(["users", uid], UserRecord(email, username, uid))];
            if responses.store.Failure? {
              effects := effects + [ShowAlert(Alert("Hata", responses.store.message))];
            } else {
              effects := effects + [ShowAlert(Registered), Navigate("Login")];
            }
          }
      }
      loading := false;
      effects := effects + [SetLoading(false)];
    }
  }

  /** Pressing the terms checkbox twice leaves it as it was. */
  method ToggleTermsTwice(screen: RegisterScreen)
    modifies screen
    ensures screen.acceptedTerms == old(screen.acceptedTerms)
  {
    screen.ToggleTerms();
    screen.ToggleTerms();
  }
}
