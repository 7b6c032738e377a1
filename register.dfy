/** The registration form: validation, the NIM field cap, and submission. */
module RegisterPage {
  import opened Wrappers
  import opened Text
  import opened FormRules

  datatype RegisterForm = RegisterForm(nim: string, password: string, confirmPassword: string)

  const PasswordTooShort := "Password minimal 6 karakter"
  const ConfirmRequired := "Konfirmasi password wajib diisi"
  const ConfirmMismatch := "Password tidak cocok"
  const RegisterSuccess := "Registrasi berhasil! Menunggu persetujuan admin."
  const RegisterFallback := "Registrasi gagal. Coba lagi."

  /** The form the server may receive: a valid NIM, a password of at least 6 characters, confirmed. */
  predicate Acceptable(form: RegisterForm) {
    IsValidNim(form.nim) && |form.password| >= 6 && form.confirmPassword == form.password
  }

  /** The password message: required when empty, too short under 6 characters, else none. */
  function PasswordError(password: string): (e: Option<string>)
    ensures e.None? <==> |password| >= 6
    ensures e == Some(PasswordRequired) <==> password == ""
    ensures e == Some(PasswordTooShort) <==> password != "" && |password| < 6
  {
    if password == "" then Some(PasswordRequired)
    else if |password| < 6 then Some(PasswordTooShort)
    else None
  }

  /** The confirmation message: required when empty, a mismatch when it differs, else none. */
  function ConfirmError(form: RegisterForm): (e: Option<string>)
    ensures e.None? <==> form.confirmPassword != "" && form.confirmPassword == form.password
    ensures e == Some(ConfirmRequired) <==> form.confirmPassword == ""
    ensures e == Some(ConfirmMismatch) <==> form.confirmPassword != "" && form.confirmPassword != form.password
  {
    if form.confirmPassword == "" then Some(ConfirmRequired)
    else if form.password != form.confirmPassword then Some(ConfirmMismatch)
    else None
  }

  /** The messages `validateForm` leaves: one entry per failing field, under that field's name. */
  function FormErrors(form: RegisterForm): (errors: map<string, string>)
    ensures errors == map[] <==> Acceptable(form)
    ensures errors.Keys <= {"nim", "password", "confirmPassword"}
    ensures form.nim == "" ==> "nim" in errors && errors["nim"] == NimRequired
    ensures form.nim != "" && !IsValidNim(form.nim) ==> "nim" in errors && errors["nim"] == NimFormat
    ensures IsValidNim(form.nim) ==> "nim" !in errors
    ensures form.password == "" ==> "password" in errors && errors["password"] == PasswordRequired
    ensures form.password != "" && |form.password| < 6 ==> "password" in errors && errors["password"] == PasswordTooShort
    ensures |form.password| >= 6 ==> "password" !in errors
    ensures form.confirmPassword == "" ==> "confirmPassword" in errors && errors["confirmPassword"] == ConfirmRequired
    ensures form.confirmPassword != "" && form.confirmPassword != form.password ==>
      "confirmPassword" in errors && errors["confirmPassword"] == ConfirmMismatch
    ensures form.confirmPassword != "" && form.confirmPassword == form.password ==> "confirmPassword" !in errors
  {
    var afterNim := PutError(map[], "nim", NimError(form.nim));
    var afterPassword := PutError(afterNim, "password", PasswordError(form.password));
    var errors := PutError(afterPassword, "confirmPassword", ConfirmError(form));
    assert errors.Keys == {} ==> errors == map[];
    errors
  }

  /** `validateForm`: one check per field, each writing at most one message under its key. */
  method Validate(form: RegisterForm) returns (ok: bool, errors: map<string, string>)
    ensures errors == FormErrors(form)
    ensures ok <==> errors == map[]
    ensures ok <==> Acceptable(form)
  {
    errors := map[];
    if form.nim == "" {
      errors := errors["nim" := NimRequired];
    } else if !IsValidNim(form.nim) {
      errors := errors["nim" := NimFormat];
    }
    if form.password == "" {
      errors := errors["password" := PasswordRequired];
    } else if |form.password| < 6 {
      errors := errors["password" := PasswordTooShort];
    }
    if form.confirmPassword == "" {
      errors := errors["confirmPassword" := ConfirmRequired];
    } else if form.password != form.confirmPassword {
      errors := errors["confirmPassword" := ConfirmMismatch];
    }
    assert errors == FormErrors(form);
    ok := |errors.Keys| == 0;
    if !ok {
      assert errors != map[];
    } else {
      assert errors.Keys == {};
    }
  }

  /** The body posted to the register endpoint. */
  datatype RegisterRequest = RegisterRequest(nim: string, password: string)

  /** What the server answers: accepted, or rejected with an optional message. */
  datatype RegisterOutcome = Registered | RegisterRejected(serverMsg: Option<string>)

  class Register {
    var form: RegisterForm
    var errors: map<string, string>
    var requests: seq<RegisterRequest>
    /** The three-second redirect to `/login` is scheduled. */
    var redirectScheduled: bool

    constructor ()
      ensures form == RegisterForm("", "", "") && errors == map[] && requests == [] && !redirectScheduled
    {
      form := RegisterForm("", "", "");
      errors := map[];
      requests := [];
      redirectScheduled := false;
    }

    /** The NIM field: an edit longer than 15 characters leaves the form unchanged. */
    method EditNim(value: string)
      modifies this`form
      ensures form == if |value| <= NimMaxLength then old(form).(nim := value) else old(form)
    {
      form := form.(nim := NimEdit(form.nim, value));
    }

    method EditPassword(value: string)
      modifies this`form
      ensures form == old(form).(password := value)
    {
      form := form.(password := value);
    }

    method EditConfirm(value: string)
      modifies this`form
      ensures form == old(form).(confirmPassword := value)
    {
      form := form.(confirmPassword := value);
    }

    /**
     * `handleSubmit`: an unacceptable form only shows its errors and sends nothing; an
     * acceptable one posts the NIM and password, then shows success (with the redirect
     * scheduled) or the server's message, else the fallback.
     */
    method Submit(outcome: RegisterOutcome)
      modifies this`errors, this`requests, this`redirectScheduled
      ensures !Acceptable(form) ==> requests == old(requests) && redirectScheduled == old(redirectScheduled)
      ensures !Acceptable(form) ==> errors == FormErrors(form)
      ensures Acceptable(form) ==> requests == old(requests) + [RegisterRequest(form.nim, form.password)]
      ensures Acceptable(form) && outcome.Registered? ==> errors == map["success" := RegisterSuccess] && redirectScheduled
      ensures Acceptable(form) && outcome.RegisterRejected? ==>
        redirectScheduled == old(redirectScheduled) &&
        errors == map["general" := OrElse(outcome.serverMsg, RegisterFallback)]
    {
      var ok, newErrors := Validate(form);
      errors := newErrors;
      if !ok {
        return;
      }
      requests := requests + [RegisterRequest(form.nim, form.password)];
      match outcome
      case Registered =>
        errors := map["success" := RegisterSuccess];
        redirectScheduled := true;
      case RegisterRejected(serverMsg) =>
        errors := map["general" := OrElse(serverMsg, RegisterFallback)];
    }
  }
}
