/** The callable cloud functions and the product trigger (functions/index.js):
    each handler is a chain of guards followed by awaited Admin SDK calls. A
    handler is modelled as a function from the caller's token, the request
    data and the outcome of the backend calls to the response (or the
    `HttpsError` thrown) and the writes that were carried out, in order. */
module Functions {
  import opened Common
  import Menu

  // ---------------------------------------------------------------------
  // Requests, errors and writes
  // ---------------------------------------------------------------------

  /** The `HttpsError` codes the handlers throw. */
  datatype ErrorCode = InvalidArgument | PermissionDenied | AlreadyExists | Internal

  datatype HttpsError = HttpsError(code: ErrorCode, message: string)

  /** `request.auth`: absent, or present with a decoded token that may itself
      be missing. */
  datatype CallerAuth = Unauthenticated | Authenticated(token: Option<Menu.Record>)

  const AllFieldsRequired := "Todos os campos são obrigatórios."
  const NoPermission := "Você não tem permissão para executar esta ação."
  const EmailInUse := "Este e-mail já está em uso."
  const UidRequired := "UID do vendedor é obrigatório."
  const SellerRemoved := "Vendedor removido com sucesso."
  /** The Admin SDK's code for a taken e-mail address. */
  const EmailExistsCode := "auth/email-already-exists"

  const ClientRole := "cliente"
  const SellerRole := "vendedor"

  /** `request.auth && request.auth.token && request.auth.token.role === 'admin'`. */
  predicate IsAdmin(auth: CallerAuth) {
    auth.Authenticated? && auth.token.Some? && Menu.Field(auth.token.value, "role") == Some("admin")
  }

  /** A field destructured from `request.data || {}` is truthy. */
  predicate HasArg(data: Option<Menu.Record>, k: string) {
    data.Some? && k in data.value && Truthy(data.value[k])
  }

  /** A field destructured from `request.data || {}`; only read once
      `HasArg` holds. */
  function Arg(data: Option<Menu.Record>, k: string): string
    requires HasArg(data, k)
  {
    data.value[k]
  }

  /** An error raised by an Admin SDK call: its `code` (if any), its
      `message`, and what `String(error)` gives. */
  datatype SdkError = SdkError(code: Option<string>, message: string, text: string)

  /** The document `users/<uid>` a creation writes: its fields and the
      `createdAt` date (the clock is an input). */
  datatype UserDoc = UserDoc(fields: Menu.Record, createdAt: nat)

  /** A backend change that was carried out. */
  datatype Write =
    | CreateAuthUser(email: string, password: string, displayName: string)
    | SetClaims(uid: string, role: string)
    | SetUserDoc(uid: string, doc: UserDoc)
    | DeleteAuthUser(uid: string)
    | DeleteUserDoc(uid: string)
    | SetLastProductTimestamp(uid: string, timestamp: nat)

  /** What a callable returned: `{success: true, uid}` or
      `{success: true, message}`. */
  datatype Response = Created(uid: string) | Removed(message: string)

  /** A handler's response or thrown error, with the writes it made. */
  datatype Call = Call(result: Result<Response, HttpsError>, writes: seq<Write>)

  // ---------------------------------------------------------------------
  // createClientUser and createSeller
  // ---------------------------------------------------------------------

  /** Where the three awaited calls of an account creation stop:
      `createUser`, `setCustomUserClaims`, then the `users` document. */
  datatype CreateRun = CreateOk | CreateUserFails(err: SdkError) | ClaimsFail(err: SdkError) | DocWriteFails(err: SdkError)

  /** The catch block of both creation handlers. */
  function CreateError(err: SdkError): (e: HttpsError)
    ensures e.code == AlreadyExists <==> err.code == Some(EmailExistsCode)
    ensures e.code != AlreadyExists ==> e.code == Internal && e.message == OrElse(err.message, err.text)
    ensures e.code == AlreadyExists ==> e.message == EmailInUse
  {
    if err.code == Some(EmailExistsCode) then HttpsError(AlreadyExists, EmailInUse)
    else HttpsError(Internal, OrElse(err.message, err.text))
  }

  /** The body the two creation handlers share once the caller has been
      accepted: four required fields (`contact` is `phone` or `whatsapp`),
      then the user, the role claim and the user document, in that order.
      `uid` is the id `createUser` hands out and `now` is `new Date()`. */
  function CreateAccount(data: Option<Menu.Record>, contact: string, role: string, uid: string, run: CreateRun, now: nat)
    : (c: Call)
    ensures !(HasArg(data, "email") && HasArg(data, "password") && HasArg(data, "name") && HasArg(data, contact)) ==>
      c == Call(Err(HttpsError(InvalidArgument, AllFieldsRequired)), [])
    ensures c.result.Ok? <==>
      HasArg(data, "email") && HasArg(data, "password") && HasArg(data, "name") && HasArg(data, contact) && run.CreateOk?
    ensures c.result.Ok? ==>
      (c.result.value == Created(uid) && |c.writes| == 3 &&
       c.writes[0] == CreateAuthUser(Arg(data, "email"), Arg(data, "password"), Arg(data, "name")) &&
       c.writes[1] == SetClaims(uid, role) &&
       c.writes[2] == SetUserDoc(uid, UserDoc(map["name" := Arg(data, "name"), "email" := Arg(data, "email"),
                                              contact := Arg(data, contact), "role" := role], now)))
    ensures c.result.Err? && c.result.error.code != InvalidArgument ==> !run.CreateOk? && CreateError(run.err) == c.result.error
  {
    if !(HasArg(data, "email") && HasArg(data, "password") && HasArg(data, "name") && HasArg(data, contact)) then
      Call(Err(HttpsError(InvalidArgument, AllFieldsRequired)), [])
    else
      var email, password, name, contactValue := Arg(data, "email"), Arg(data, "password"), Arg(data, "name"), Arg(data, contact);
      var user := CreateAuthUser(email, password, name);
      var claims := SetClaims(uid, role);
      var doc := SetUserDoc(uid, UserDoc(map["name" := name, "email" := email, contact := contactValue, "role" := role], now));
      match run
      case CreateUserFails(err) => Call(Err(CreateError(err)), [])
      case ClaimsFail(err) => Call(Err(CreateError(err)), [user])
      case DocWriteFails(err) => Call(Err(CreateError(err)), [user, claims])
      case CreateOk => Call(Ok(Created(uid)), [user, claims, doc])
  }

  /** `createClientUser`: open to anyone; a customer with a `phone`. */
  function CreateClientUser(data: Option<Menu.Record>, uid: string, run: CreateRun, now: nat): (c: Call)
    ensures c == CreateAccount(data, "phone", ClientRole, uid, run, now)
  {
    CreateAccount(data, "phone", ClientRole, uid, run, now)
  }

  /** `createSeller`: only an administrator, checked before anything in the
      request is looked at; a seller with a `whatsapp`. */
  function CreateSeller(auth: CallerAuth, data: Option<Menu.Record>, uid: string, run: CreateRun, now: nat): (c: Call)
    ensures !IsAdmin(auth) ==> c == Call(Err(HttpsError(PermissionDenied, NoPermission)), [])
    ensures IsAdmin(auth) ==> c == CreateAccount(data, "whatsapp", SellerRole, uid, run, now)
  {
    if !IsAdmin(auth) then Call(Err(HttpsError(PermissionDenied, NoPermission)), [])
    else CreateAccount(data, "whatsapp", SellerRole, uid, run, now)
  }

  /** The role in the custom claims and the role in the user document are
      the same, and it is the one the handler assigns. */
  lemma {:induction false} CreatedRoleAgrees(data: Option<Menu.Record>, contact: string, role: string, uid: string, run: CreateRun, now: nat)
    requires contact != "role" && contact != "password"
    ensures var c := CreateAccount(data, contact, role, uid, run, now);
      forall w :: w in c.writes ==>
        (w.SetClaims? ==> w.role == role && w.uid == uid) &&
        (w.SetUserDoc? ==> w.uid == uid && "role" in w.doc.fields && w.doc.fields["role"] == role &&
                           "password" !in w.doc.fields)
  {
    var c := CreateAccount(data, contact, role, uid, run, now);
    if c.writes != [] {
      var email, password, name, contactValue := Arg(data, "email"), Arg(data, "password"), Arg(data, "name"), Arg(data, contact);
      var fields := map["name" := name, "email" := email, contact := contactValue, "role" := role];
      assert fields.Keys == {"name", "email", contact, "role"};
      assert fields["role"] == role;
    }
  }

  /** A customer account is created with role `cliente` and a seller
      account with role `vendedor`, in the claims and in the document. */
  lemma AssignedRoles(auth: CallerAuth, data: Option<Menu.Record>, uid: string, run: CreateRun, now: nat)
    ensures forall w :: w in CreateClientUser(data, uid, run, now).writes ==>
      (w.SetClaims? ==> w.role == ClientRole) && (w.SetUserDoc? ==> Menu.Field(w.doc.fields, "role") == Some(ClientRole))
    ensures forall w :: w in CreateSeller(auth, data, uid, run, now).writes ==>
      (w.SetClaims? ==> w.role == SellerRole) && (w.SetUserDoc? ==> Menu.Field(w.doc.fields, "role") == Some(SellerRole))
  {
    CreatedRoleAgrees(data, "phone", ClientRole, uid, run, now);
    CreatedRoleAgrees(data, "whatsapp", SellerRole, uid, run, now);
  }

  /** The writes of a creation form a prefix of user, claims, document: a
      user document never exists without its claims, nor claims without
      the user. */
  lemma CreationWritesInOrder(data: Option<Menu.Record>, contact: string, role: string, uid: string, run: CreateRun, now: nat)
    ensures var c := CreateAccount(data, contact, role, uid, run, now);
      |c.writes| <= 3 &&
      (|c.writes| >= 1 ==> c.writes[0].CreateAuthUser?) &&
      (|c.writes| >= 2 ==> c.writes[1] == SetClaims(uid, role)) &&
      (|c.writes| == 3 ==> c.writes[2].SetUserDoc? && c.result.Ok?)
  {
  }

  // ---------------------------------------------------------------------
  // deleteSeller
  // ---------------------------------------------------------------------

  /** Where the two awaited calls of a deletion stop: `deleteUser`, then the
      `users` document. */
  datatype DeleteRun = DeleteOk | DeleteUserFails(err: SdkError) | DeleteDocFails(err: SdkError)

  /** `deleteSeller`: only an administrator, checked first; then the `uid`;
      then the auth user and its document. Every backend failure is
      `internal`. */
  function DeleteSeller(auth: CallerAuth, data: Option<Menu.Record>, run: DeleteRun): (c: Call)
    ensures !IsAdmin(auth) ==> c == Call(Err(HttpsError(PermissionDenied, NoPermission)), [])
    ensures IsAdmin(auth) && !HasArg(data, "uid") ==> c == Call(Err(HttpsError(InvalidArgument, UidRequired)), [])
    ensures c.result.Ok? <==> IsAdmin(auth) && HasArg(data, "uid") && run.DeleteOk?
    ensures c.result.Ok? ==>
      c.result.value == Removed(SellerRemoved) && c.writes == [DeleteAuthUser(Arg(data, "uid")), DeleteUserDoc(Arg(data, "uid"))]
    ensures IsAdmin(auth) && HasArg(data, "uid") && !run.DeleteOk? ==>
      c.result == Err(HttpsError(Internal, OrElse(run.err.message, run.err.text)))
  {
    if !IsAdmin(auth) then Call(Err(HttpsError(PermissionDenied, NoPermission)), [])
    else if !HasArg(data, "uid") then Call(Err(HttpsError(InvalidArgument, UidRequired)), [])
    else
      var uid := Arg(data, "uid");
      match run
      case DeleteUserFails(err) => Call(Err(HttpsError(Internal, OrElse(err.message, err.text))), [])
      case DeleteDocFails(err) => Call(Err(HttpsError(Internal, OrElse(err.message, err.text))), [DeleteAuthUser(uid)])
      case DeleteOk => Call(Ok(Removed(SellerRemoved)), [DeleteAuthUser(uid), DeleteUserDoc(uid)])
  }

  /** A refused or malformed call changes nothing, whichever handler it
      reached. */
  lemma RejectedCallsWriteNothing(auth: CallerAuth, data: Option<Menu.Record>, uid: string,
                                  createRun: CreateRun, deleteRun: DeleteRun, now: nat)
    ensures var calls := [CreateClientUser(data, uid, createRun, now), CreateSeller(auth, data, uid, createRun, now),
                          DeleteSeller(auth, data, deleteRun)];
      forall c :: c in calls && c.result.Err? && c.result.error.code in {PermissionDenied, InvalidArgument} ==> c.writes == []
  {
    var c1 := CreateClientUser(data, uid, createRun, now);
    var c2 := CreateSeller(auth, data, uid, createRun, now);
    var c3 := DeleteSeller(auth, data, deleteRun);
    assert c1.result.Err? && c1.result.error.code in {PermissionDenied, InvalidArgument} ==> c1.writes == [];
    assert c2.result.Err? && c2.result.error.code in {PermissionDenied, InvalidArgument} ==> c2.writes == [];
  }

  // ---------------------------------------------------------------------
  // updateSellerLastProductTimestamp
  // ---------------------------------------------------------------------

  /** The new `produtos` document the trigger receives: its `sellerId` and
      its `createdAt` timestamp, either of which may be missing. */
  datatype ProductSnapshot = ProductSnapshot(sellerId: Option<string>, createdAt: Option<nat>)

  /** What the trigger returns: `null`, `{success: true}` or
      `{success: false, error}`. */
  datatype TriggerResult = NoData | Updated | UpdateFailed(error: string)

  /** `updateSellerLastProductTimestamp`: no snapshot or no `sellerId` gives
      `null` and writes nothing; otherwise the seller's document gets the
      product's `createdAt` (the current time when it has none). `now` is
      `Timestamp.now()` and `failure` the update's error message, if any. */
  function UpdateSellerLastProductTimestamp(snapshot: Option<ProductSnapshot>, now: nat, failure: Option<string>)
    : (r: (TriggerResult, seq<Write>))
    ensures r.0 == NoData <==> snapshot.None? || !(snapshot.value.sellerId.Some? && Truthy(snapshot.value.sellerId.value))
    ensures r.0 == NoData ==> r.1 == []
    ensures r.0 == Updated <==> r.0 != NoData && failure.None?
    ensures r.0.UpdateFailed? ==> r.1 == [] && r.0.error == failure.value
    ensures r.0 == Updated ==>
      r.1 == [SetLastProductTimestamp(snapshot.value.sellerId.value, snapshot.value.createdAt.GetOr(now))]
  {
    if snapshot.None? then (NoData, [])
    else
      var createdAt := snapshot.value.createdAt.GetOr(now);
      var sellerId := snapshot.value.sellerId;
      if !(sellerId.Some? && |sellerId.value| > 0) then (NoData, [])
      else if failure.Some? then (UpdateFailed(failure.value), [])
      else (Updated, [SetLastProductTimestamp(sellerId.value, createdAt)])
  }

  // ---------------------------------------------------------------------
  // The client's side of a callable
  // ---------------------------------------------------------------------

  /** What `httpsCallable(...)(data)` gives the page: the returned `data`
      (`success` and an optional `message`), or a rejection with the
      error's message. */
  datatype ClientOutcome = Returned(success: bool, message: Option<string>) | Threw(reason: string)

  /** How a handler's result reaches the page: a response arrives as
      `{success: true, ...}` and a thrown `HttpsError` as a rejection
      carrying its message. */
  function Delivered(c: Call): (o: ClientOutcome)
    ensures o.Returned? <==> c.result.Ok?
    ensures o.Returned? ==> o.success
    ensures o.Threw? ==> o.reason == c.result.error.message
  {
    match c.result
    case Ok(Created(_)) => Returned(true, None)
    case Ok(Removed(m)) => Returned(true, Some(m))
    case Err(e) => Threw(e.message)
  }
}
