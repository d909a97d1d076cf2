/** Customer sign-up (js/systemaregistro.js): the form's checks run in a fixed
    order and the first failure is reported; only a form that passes them
    all reaches `createClientUser`; a created account is signed in with the
    same credentials. */
module Registration {
  import opened Common
  import Menu
  import Functions

  /** The sign-up form's four inputs and the terms checkbox. */
  datatype RegisterForm = RegisterForm(name: string, email: string, password: string, phone: string, termsChecked: bool)

  const AllRequired := "Todos os campos são obrigatórios."
  const ShortPassword := "A senha deve ter no mínimo 6 caracteres."
  const TermsRequired := "Você deve aceitar os Termos de Uso."
  const CreateFailed := "Erro ao criar conta."
  const EmailInUseMessage := "Este e-mail já está em uso."
  const Creating := "Criando sua conta..."
  /** The code the rewrite looks for in an error message. */
  const EmailInUseCode := "auth/email-already-in-use"
  const MinPasswordLength := 6

  /** The message of the first check the form fails, or `None` when it
      passes all three: every field filled, a password of at least six
      characters, the terms accepted. */
  function FirstFailure(f: RegisterForm): (r: Option<string>)
    ensures r == Some(AllRequired) <==> f.name == "" || f.email == "" || f.password == "" || f.phone == ""
    ensures r == Some(ShortPassword) <==>
      f.name != "" && f.email != "" && f.password != "" && f.phone != "" && Utf16Length(f.password) < MinPasswordLength
    ensures r == Some(TermsRequired) <==>
      f.name != "" && f.email != "" && f.phone != "" && Utf16Length(f.password) >= MinPasswordLength && !f.termsChecked
    ensures r.None? <==>
      f.name != "" && f.email != "" && f.phone != "" && Utf16Length(f.password) >= MinPasswordLength && f.termsChecked
  {
    if f.name == "" || f.email == "" || f.password == "" || f.phone == "" then Some(AllRequired)
    else if Utf16Length(f.password) < MinPasswordLength then Some(ShortPassword)
    else if !f.termsChecked then Some(TermsRequired)
    else None
  }

  /** The length check counts UTF-16 code units: three characters beyond
      U+FFFF make a password long enough. */
  lemma AstralPasswordLength(name: string, email: string, phone: string)
    requires name != "" && email != "" && phone != ""
    ensures Utf16Length("\U{1F600}\U{1F600}\U{1F600}") == 6
    ensures FirstFailure(RegisterForm(name, email, "\U{1F600}\U{1F600}\U{1F600}", phone, true)).None?
  {
    assert "\U{1F600}\U{1F600}\U{1F600}"[1..] == "\U{1F600}\U{1F600}";
    assert "\U{1F600}\U{1F600}"[1..] == "\U{1F600}";
    assert "\U{1F600}"[1..] == "";
  }

  /** `formData`, the request `createClientUser` receives. */
  function RequestData(f: RegisterForm): (d: Menu.Record)
    ensures d.Keys == {"name", "email", "password", "phone"}
    ensures d["name"] == f.name && d["email"] == f.email && d["password"] == f.password && d["phone"] == f.phone
  {
    map["name" := f.name, "email" := f.email, "password" := f.password, "phone" := f.phone]
  }

  /** The catch block's rewrite of a message that mentions the client SDK's
      "e-mail in use" code. */
  function Rewrite(msg: string): (r: string)
    ensures Contains(msg, EmailInUseCode) ==> r == EmailInUseMessage
    ensures !Contains(msg, EmailInUseCode) ==> r == msg
  {
    if Contains(msg, EmailInUseCode) then EmailInUseMessage else msg
  }

  /** How the automatic sign-in after a creation ended. */
  datatype SignIn = SignedIn | SignInFailed(message: string)

  /** What a submit did: the request sent (if any), whether the modal was
      hidden, the credentials signed in with (if tried), and the feedback
      text left in the form with its error flag. */
  datatype Submit = Submit(
    request: Option<Menu.Record>, modalHidden: bool, signIn: Option<(string, string)>,
    feedback: string, isError: bool)

  /** `handleRegisterSubmit`. `outcome` is what the callable gave and
      `signIn` how the sign-in ended; each is used only once the submit
      gets that far. */
  function HandleRegisterSubmit(f: RegisterForm, outcome: Functions.ClientOutcome, signIn: SignIn): (s: Submit)
    ensures s.request.Some? <==> FirstFailure(f).None?
    ensures s.request.Some? ==> s.request.value == RequestData(f)
    ensures FirstFailure(f).Some? ==> s == Submit(None, false, None, FirstFailure(f).value, true)
    ensures s.modalHidden <==> FirstFailure(f).None? && outcome.Returned? && outcome.success
    ensures s.modalHidden ==> s.signIn == Some((f.email, f.password))
    ensures !s.modalHidden ==> s.signIn.None?
    ensures !s.isError <==> s.modalHidden && signIn.SignedIn?
    ensures !s.isError ==> s.feedback == Creating
  {
    match FirstFailure(f)
    case Some(msg) =>
      CheckMessagesKept();
      Submit(None, false, None, Rewrite(msg), true)
    case None =>
      var request := Some(RequestData(f));
      match outcome
      case Threw(reason) => Submit(request, false, None, Rewrite(reason), true)
      case Returned(success, message) =>
        if !success then Submit(request, false, None, Rewrite(OptOr(message, CreateFailed)), true)
        else match signIn
          case SignedIn => Submit(request, true, Some((f.email, f.password)), Creating, false)
          case SignInFailed(m) => Submit(request, true, Some((f.email, f.password)), Rewrite(m), true)
  }

  /** None of the three check messages mentions the code the catch block
      rewrites, so each is shown as it is. */
  lemma CheckMessagesKept()
    ensures Rewrite(AllRequired) == AllRequired
    ensures Rewrite(ShortPassword) == ShortPassword
    ensures Rewrite(TermsRequired) == TermsRequired
  {
    NoCodeIn(AllRequired);
    NoCodeIn(ShortPassword);
    NoCodeIn(TermsRequired);
  }

  /** A text without a `/` cannot hold the code. */
  lemma NoCodeIn(t: string)
    requires forall i :: 0 <= i < |t| ==> t[i] != '/'
    ensures !Contains(t, EmailInUseCode)
  {
    forall i | 0 <= i <= |t| - |EmailInUseCode|
      ensures !StartsWith(t[i..], EmailInUseCode)
    {
      assert EmailInUseCode[4] == '/';
      assert t[i..][4] == t[i + 4];
    }
  }
}
