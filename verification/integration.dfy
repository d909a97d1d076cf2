/** How the pages and the cloud functions fit together: what the sign-up
    page and the admin tab send is what the callables read, and the errors
    the callables raise reach the user as the pages show them. */
module Integration {
  import opened Common
  import Menu
  import Functions
  import Registration
  import Admin

  /** A sign-up form that passes the page's own checks is never refused by
      `createClientUser` for a missing field: the call succeeds exactly when
      the Admin SDK calls do, and then the customer's document holds the
      name, the e-mail and the phone typed into the form. */
  lemma {:induction false} RegistrationPassesBackendCheck(f: Registration.RegisterForm, uid: string,
                                                          run: Functions.CreateRun, now: nat)
    requires Registration.FirstFailure(f).None?
    ensures var c := Functions.CreateClientUser(Some(Registration.RequestData(f)), uid, run, now);
      (c.result.Ok? <==> run.CreateOk?) &&
      (c.result.Err? ==> c.result.error.code != Functions.InvalidArgument) &&
      (c.result.Ok? ==> c.writes[2] == Functions.SetUserDoc(uid, Functions.UserDoc(
         map["name" := f.name, "email" := f.email, "phone" := f.phone, "role" := Functions.ClientRole], now)))
  {
    var d := Some(Registration.RequestData(f));
    assert Functions.HasArg(d, "email") && Functions.HasArg(d, "password");
    assert Functions.HasArg(d, "name") && Functions.HasArg(d, "phone");
  }

  /** An address the Admin SDK reports as taken reaches the person signing
      up as the Portuguese "e-mail in use" message: the callable raises
      `already-exists` with that text, the page shows it unchanged, and the
      modal stays open with nothing signed in. */
  lemma {:induction false} EmailTakenReachesUser(f: Registration.RegisterForm, uid: string, now: nat,
                                                 message: string, text: string, signIn: Registration.SignIn)
    requires Registration.FirstFailure(f).None?
    ensures var run := Functions.CreateUserFails(Functions.SdkError(Some(Functions.EmailExistsCode), message, text));
      var c := Functions.CreateClientUser(Some(Registration.RequestData(f)), uid, run, now);
      var s := Registration.HandleRegisterSubmit(f, Functions.Delivered(c), signIn);
      c.writes == [] && c.result.Err? && c.result.error.code == Functions.AlreadyExists &&
      s.feedback == Registration.EmailInUseMessage && s.isError && !s.modalHidden && s.signIn.None?
  {
    var run := Functions.CreateUserFails(Functions.SdkError(Some(Functions.EmailExistsCode), message, text));
    RegistrationPassesBackendCheck(f, uid, run, now);
    Registration.NoCodeIn(Functions.EmailInUse);
  }

  /** The admin's "add seller" form sends every field `createSeller` reads:
      with all four filled in, an admin's call succeeds exactly when the
      Admin SDK calls do, and the new account gets the seller role and a
      document carrying its WhatsApp number. */
  lemma {:induction false} AddSellerPassesBackendCheck(auth: Functions.CallerAuth, name: string, whatsapp: string,
                                                       email: string, password: string,
                                                       uid: string, run: Functions.CreateRun, now: nat)
    requires Functions.IsAdmin(auth)
    requires name != "" && whatsapp != "" && email != "" && password != ""
    ensures var c := Functions.CreateSeller(auth, Some(Admin.AddSellerRequest(name, whatsapp, email, password)), uid, run, now);
      (c.result.Ok? <==> run.CreateOk?) &&
      (c.result.Ok? ==>
         c.writes[1] == Functions.SetClaims(uid, Functions.SellerRole) &&
         c.writes[2] == Functions.SetUserDoc(uid, Functions.UserDoc(
           map["name" := name, "email" := email, "whatsapp" := whatsapp, "role" := Functions.SellerRole], now))) &&
      (Admin.AddSellerEffect(Functions.Delivered(c)).reload <==> run.CreateOk?)
  {
    var d := Some(Admin.AddSellerRequest(name, whatsapp, email, password));
    assert Functions.HasArg(d, "email") && Functions.HasArg(d, "password");
    assert Functions.HasArg(d, "name") && Functions.HasArg(d, "whatsapp");
  }

  /** An add-seller form with an empty field is refused by the callable,
      and the modal shows the refusal after `Erro: ` and stays open. */
  lemma {:induction false} EmptySellerFieldShown(auth: Functions.CallerAuth, name: string, whatsapp: string,
                                                 email: string, password: string,
                                                 uid: string, run: Functions.CreateRun, now: nat)
    requires Functions.IsAdmin(auth)
    requires name == "" || whatsapp == "" || email == "" || password == ""
    ensures var c := Functions.CreateSeller(auth, Some(Admin.AddSellerRequest(name, whatsapp, email, password)), uid, run, now);
      var e := Admin.AddSellerEffect(Functions.Delivered(c));
      c.writes == [] && e.error == Some(Admin.ErrorPrefix + Functions.AllFieldsRequired) && !e.closeModal
  {
    var d := Some(Admin.AddSellerRequest(name, whatsapp, email, password));
    assert !(Functions.HasArg(d, "email") && Functions.HasArg(d, "password") &&
             Functions.HasArg(d, "name") && Functions.HasArg(d, "whatsapp"));
  }

  /** The request the confirmation's "yes" sends for a listed seller passes
      `deleteSeller`'s check: an admin's call removes exactly that account
      and its document when the Admin SDK calls succeed, and the list is
      then reloaded. */
  lemma {:induction false} ConfirmedDeleteRemovesSeller(auth: Functions.CallerAuth, id: string, run: Functions.DeleteRun)
    requires Functions.IsAdmin(auth) && id != ""
    ensures var c := Functions.DeleteSeller(auth, Some(map["uid" := id]), run);
      (c.result.Ok? <==> run.DeleteOk?) &&
      (c.result.Ok? ==> c.writes == [Functions.DeleteAuthUser(id), Functions.DeleteUserDoc(id)]) &&
      (Admin.DeleteEffect(Functions.Delivered(c)).reload <==> run.DeleteOk?)
  {
    assert Functions.HasArg(Some(map["uid" := id]), "uid");
  }
}
