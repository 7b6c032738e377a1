/** The login form: validation, the NIM field cap, and handing a successful login to the session. */
module LoginPage {
  import opened Wrappers
  import opened Text
  import opened FormRules
  import opened Socket
  import opened Auth

  datatype LoginForm = LoginForm(nim: string, password: string)

  const LoginFallback := "Login gagal. Periksa NIM dan password Anda."

  /** A form worth sending: a valid NIM and any non-empty password (no length rule here). */
  predicate Acceptable(form: LoginForm) {
    IsValidNim(form.nim) && form.password != ""
  }

  /**
   * The messages `validateForm` leaves. The format test only runs on a present NIM, so the
   * NIM entry is the same required-or-format message as on the registration form; the
   * password is only checked for presence.
   */
  function LoginErrors(form: LoginForm): (errors: map<string, string>)
    ensures errors == map[] <==> Acceptable(form)
    ensures errors.Keys <= {"nim", "password"}
    ensures form.nim == "" ==> "nim" in errors && errors["nim"] == NimRequired
    ensures form.nim != "" && !IsValidNim(form.nim) ==> "nim" in errors && errors["nim"] == NimFormat
    ensures IsValidNim(form.nim) ==> "nim" !in errors
    ensures form.password == "" <==> "password" in errors
    ensures "password" in errors ==> errors["password"] == PasswordRequired
  {
    var afterNim := PutError(map[], "nim", NimError(form.nim));
    var errors := PutError(afterNim, "password", if form.password == "" then Some(PasswordRequired) else None);
    assert errors.Keys == {} ==> errors == map[];
    errors
  }

  /**
   * `validateForm`: presence of the NIM, presence of the password, then the format of a
   * present NIM, each writing its message under the field's key.
   */
  method Validate(form: LoginForm) returns (ok: bool, errors: map<string, string>)
    ensures errors == LoginErrors(form)
    ensures ok <==> errors == map[]
    ensures ok <==> Acceptable(form)
  {
    errors := map[];
    if form.nim == "" {
      errors := errors["nim" := NimRequired];
    }
    if form.password == "" {
      errors := errors["password" := PasswordRequired];
    }
    if form.nim != "" && !IsValidNim(form.nim) {
      errors := errors["nim" := NimFormat];
    }
    assert errors == LoginErrors(form);
    ok := |errors.Keys| == 0;
    if !ok {
      assert errors != map[];
    } else {
      assert errors.Keys == {};
    }
  }

  datatype LoginOutcome = LoggedIn(data: LoginData) | LoginRejected(serverMsg: Option<string>)

  class Login {
    var form: LoginForm
    var errors: map<string, string>
    var requests: seq<LoginForm>
    const session: AuthContext

    constructor (session: AuthContext)
      ensures this.session == session
      ensures form == LoginForm("", "") && errors == map[] && requests == []
    {
      this.session := session;
      form := LoginForm("", "");
      errors := map[];
      requests := [];
    }

    /** The NIM field: an edit longer than 15 characters leaves the form unchanged. */
    method EditNim(value: string)
      modifies this`form
      ensures form == if |value| <= NimMaxLength then old(form).(nim := value) else old(form)
    {
      form := form.(nim := NimEdit(form.nim, value));
    }

    method EditPassword(value: string)
      modifies this`form
      ensures form == old(form).(password := value)
    {
      form := form.(password := value);
    }

    /**
     * `handleSubmit`: an unacceptable form only shows its errors; an acceptable one is posted,
     * and the answer either starts the session or shows the server's message, else the fallback.
     */
    method Submit(outcome: LoginOutcome)
      modifies this`errors, this`requests, session
      ensures !Acceptable(form) ==>
        requests == old(requests) && errors == LoginErrors(form) &&
        session.user == old(session.user) && session.storage == old(session.storage) &&
        session.emitted == old(session.emitted)
      ensures Acceptable(form) ==> requests == old(requests) + [form]
      ensures Acceptable(form) && outcome.LoggedIn? ==>
        errors == map[] && session.user == Some(Normalize(outcome.data)) &&
        session.storage == Store(old(session.storage), Entries(Normalize(outcome.data))) &&
        session.emitted == old(session.emitted) +
          if Truthy(Normalize(outcome.data).id) then [RegisterUserSocket(Normalize(outcome.data).id.value)] else []
      ensures Acceptable(form) && outcome.LoginRejected? ==>
        session.user == old(session.user) && session.storage == old(session.storage) &&
        session.emitted == old(session.emitted) &&
        errors == map["general" := OrElse(outcome.serverMsg, LoginFallback)]
    {
      var ok, newErrors := Validate(form);
      errors := newErrors;
      if !ok {
        return;
      }
      requests := requests + [form];
      match outcome
      case LoggedIn(data) =>
        session.Login(data);
      case LoginRejected(serverMsg) =>
        errors := map["general" := OrElse(serverMsg, LoginFallback)];
    }
  }
}
