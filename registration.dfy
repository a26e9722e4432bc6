/** Registration.tsx: the login / register / password-reset screen. The checks
    of `handleSubmit` are the pure function `Submit`; the screen's state (mode,
    form, message) is the class `Screen`. */
module Registration {
  import opened Types

  datatype AuthMode = Login | Register | Reset

  datatype Form = Form(name: string, email: string, phone: string, password: string, confirmPassword: string)

  const EMPTY_FORM: Form := Form("", "", "", "", "")

  /** The message banner: `isError` is `type === 'error'`. */
  datatype Message = Message(isError: bool, text: string)

  const LOGIN_FAILED := "E-mail ou senha incorretos."
  const MISSING_FIELDS := "Por favor, preencha todos os campos."
  const SHORT_PASSWORD := "A senha deve ter pelo menos 6 caracteres."
  const UNKNOWN_EMAIL := "E-mail não encontrado. Verifique e tente novamente."
  const MISMATCH := "As senhas não coincidem."
  const SHORT_NEW_PASSWORD := "A nova senha deve ter pelo menos 6 caracteres."
  const RESET_DONE := "Senha redefinida com sucesso. Você já pode entrar."

  const MIN_PASSWORD: nat := 6

  /** The callback a submission fires, if any. */
  datatype Effect =
    | NoEffect
    | LoggedIn(email: string)
    | Completed(form: Form)
    | PasswordReset(email: string, newPassword: string)

  datatype Outcome = Outcome(effect: Effect, message: Option<Message>)

  /** `Array.prototype.find`, as the index of the first element satisfying `p`. */
  function FindIndex<T>(s: seq<T>, p: T -> bool): (r: Option<nat>)
    ensures r.Some? ==> r.value < |s| && p(s[r.value]) && forall k :: 0 <= k < r.value ==> !p(s[k])
    ensures r.None? ==> forall k :: 0 <= k < |s| ==> !p(s[k])
  {
    if s == [] then None
    else if p(s[0]) then Some(0)
    else match FindIndex(s[1..], p)
      case None => None
      case Some(i) => Some(i + 1)
  }

  /** A stored user without a password never matches a typed one. */
  predicate Credentials(u: UserProfile, email: string, password: string) {
    u.email == email && u.password == Some(password)
  }

  predicate HasEmail(u: UserProfile, email: string) {
    u.email == email
  }

  function Error(text: string): Option<Message> {
    Some(Message(true, text))
  }

  /** `handleSubmit` in the given mode. The message is computed afresh: the
      previous one is cleared first. */
  function Submit(mode: AuthMode, form: Form, users: seq<UserProfile>): (o: Outcome)
    // login
    ensures mode == Login ==>
      (o.effect.LoggedIn? <==> exists i :: 0 <= i < |users| && Credentials(users[i], form.email, form.password))
    ensures mode == Login && o.effect.LoggedIn? ==> o.effect.email == form.email && o.message == None
    ensures mode == Login && !o.effect.LoggedIn? ==> o.effect == NoEffect && o.message == Error(LOGIN_FAILED)
    // register
    ensures mode == Register && (form.name == "" || form.email == "" || form.password == "") ==>
      o == Outcome(NoEffect, Error(MISSING_FIELDS))
    ensures mode == Register && form.name != "" && form.email != "" && form.password != "" && |form.password| < 6 ==>
      o == Outcome(NoEffect, Error(SHORT_PASSWORD))
    ensures mode == Register ==>
      (o.effect != NoEffect <==> form.name != "" && form.email != "" && form.password != "" && |form.password| >= 6)
    ensures mode == Register && o.effect != NoEffect ==> o == Outcome(Completed(form), None)
    // reset, in this order: unknown e-mail, mismatch, short password
    ensures mode == Reset && (forall i :: 0 <= i < |users| ==> !HasEmail(users[i], form.email)) ==>
      o == Outcome(NoEffect, Error(UNKNOWN_EMAIL))
    ensures mode == Reset && (exists i :: 0 <= i < |users| && HasEmail(users[i], form.email)) ==>
      && (form.password != form.confirmPassword ==> o == Outcome(NoEffect, Error(MISMATCH)))
      && (form.password == form.confirmPassword && |form.password| < 6 ==> o == Outcome(NoEffect, Error(SHORT_NEW_PASSWORD)))
      && (form.password == form.confirmPassword && |form.password| >= 6 ==>
            o == Outcome(PasswordReset(form.email, form.password), Some(Message(false, RESET_DONE))))
    // only the matching callback ever fires
    ensures o.effect.LoggedIn? ==> mode == Login
    ensures o.effect.Completed? ==> mode == Register
    ensures o.effect.PasswordReset? ==> mode == Reset
    ensures o.effect != NoEffect <==> (o.message == None || !o.message.value.isError)
  {
    match mode
    case Login =>
      (match FindIndex(users, u => Credentials(u, form.email, form.password))
       case Some(i) => Outcome(LoggedIn(users[i].email), None)
       case None => Outcome(NoEffect, Error(LOGIN_FAILED)))
    case Register =>
      if form.name == "" || form.email == "" || form.password == "" then Outcome(NoEffect, Error(MISSING_FIELDS))
      else if |form.password| < MIN_PASSWORD then Outcome(NoEffect, Error(SHORT_PASSWORD))
      else Outcome(Completed(form), None)
    case Reset =>
      if FindIndex(users, u => HasEmail(u, form.email)).None? then Outcome(NoEffect, Error(UNKNOWN_EMAIL))
      else if form.password != form.confirmPassword then Outcome(NoEffect, Error(MISMATCH))
      else if |form.password| < MIN_PASSWORD then Outcome(NoEffect, Error(SHORT_NEW_PASSWORD))
      else Outcome(PasswordReset(form.email, form.password), Some(Message(false, RESET_DONE)))
  }

  /** The phone is never checked: registering gives the same verdict whatever it holds. */
  lemma RegisterIgnoresPhone(form: Form, phone: string, users: seq<UserProfile>)
    ensures Submit(Register, form.(phone := phone), users).message == Submit(Register, form, users).message
    ensures Submit(Register, form.(phone := phone), users).effect.Completed? == Submit(Register, form, users).effect.Completed?
  {
  }

  /** Registering never looks at the stored users: an e-mail already in use is accepted. */
  lemma RegisterIgnoresUsers(form: Form, users: seq<UserProfile>, others: seq<UserProfile>)
    ensures Submit(Register, form, users) == Submit(Register, form, others)
  {
  }

  /** A user stored without a password can never log in. */
  lemma NoPasswordNoLogin(form: Form, users: seq<UserProfile>)
    requires forall i :: 0 <= i < |users| && users[i].email == form.email ==> users[i].password.None?
    ensures Submit(Login, form, users) == Outcome(NoEffect, Error(LOGIN_FAILED))
  {
  }

  /** The unknown-e-mail check comes first: with no such user, neither the
      confirmation nor the length of the new password matters. */
  lemma UnknownEmailFirst(form: Form, password: string, confirm: string, users: seq<UserProfile>)
    requires forall i :: 0 <= i < |users| ==> users[i].email != form.email
    ensures Submit(Reset, form.(password := password, confirmPassword := confirm), users).message == Error(UNKNOWN_EMAIL)
  {
    var f := form.(password := password, confirmPassword := confirm);
    assert forall i :: 0 <= i < |users| ==> !HasEmail(users[i], f.email);
  }

  /** The screen's state. */
  class Screen {
    var mode: AuthMode
    var form: Form
    var message: Option<Message>

    /** The screen opens in register mode with an empty form and no message. */
    constructor ()
      ensures mode == Register && form == Form("", "", "", "", "") && message == None
    {
      mode, form, message := Register, EMPTY_FORM, None;
    }

    /** The `onChange` handlers of the inputs. */
    method Edit(f: Form)
      modifies this
      ensures form == f && mode == old(mode) && message == old(message)
    {
      form := f;
    }

    /** The links under the form: "Esqueci minha senha" (shown in login mode),
        "Cadastre-se" (shown outside register mode) and "Entrar" (shown outside
        login mode). Each switches the mode and clears the message. */
    method SwitchMode(m: AuthMode)
      requires m == Reset ==> mode == Login
      requires m == Register ==> mode != Register
      requires m == Login ==> mode != Login
      modifies this
      ensures mode == m && message == None && form == old(form)
    {
      mode, message := m, None;
    }

    /** `handleSubmit`: clear the message, run the checks of the current mode,
        show their message and report the callback they fire. */
    method HandleSubmit(users: seq<UserProfile>) returns (effect: Effect)
      modifies this
      ensures effect == Submit(old(mode), old(form), users).effect
      ensures message == Submit(old(mode), old(form), users).message
      ensures mode == old(mode) && form == old(form)
    {
      message := None;
      var o := Submit(mode, form, users);
      message := o.message;
      effect := o.effect;
    }
  }
}
