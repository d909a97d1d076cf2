/** The top navigation and the user menu (js/systemamenu.js): which nav link
    is highlighted, the user record assembled at login, the dashboard button,
    the effect of an auth change on the side panels, and e-mail login. */
module Menu {
  import opened Common
  import Ui

  // ---------------------------------------------------------------------
  // Active navigation link
  // ---------------------------------------------------------------------

  const SellersPath := "/vendedores"
  const SellerProfilePrefix := "/vendedores/"

  /** The rule `setActiveLink` applies to one link, whose `href` attribute
      may be absent (`None`). */
  predicate IsActiveFor(href: Option<string>, path: string) {
    href == Some(path) || (StartsWith(path, SellerProfilePrefix) && href == Some(SellersPath))
  }

  /** The `.nav-link` elements: their `href` attributes and `active` classes. */
  class NavBar {
    const hrefs: array<Option<string>>
    const active: array<bool>

    ghost predicate Valid()
      reads this
    {
      hrefs.Length == active.Length
    }

    constructor (links: seq<Option<string>>)
      ensures Valid() && hrefs[..] == links
      ensures fresh(hrefs) && fresh(active)
      ensures forall i :: 0 <= i < active.Length ==> !active[i]
    {
      hrefs := new Option<string>[|links|](i requires 0 <= i < |links| => links[i]);
      active := new bool[|links|](_ => false);
    }

    /** `setActiveLink(path)`: every link is made active or inactive by
        `IsActiveFor`; the hrefs are not touched. */
    method SetActiveLink(path: string)
      requires Valid()
      modifies active
      ensures Valid()
      ensures forall i :: 0 <= i < active.Length ==> active[i] == IsActiveFor(hrefs[i], path)
    {
      var i := 0;
      while i < active.Length
        invariant 0 <= i <= active.Length
        invariant forall j :: 0 <= j < i ==> active[j] == IsActiveFor(hrefs[j], path)
      {
        active[i] := hrefs[i] == Some(path) || (StartsWith(path, SellerProfilePrefix) && hrefs[i] == Some(SellersPath));
        i := i + 1;
      }
    }
  }

  /** For a path outside the seller profiles, a link is active iff its href
      is the path exactly; for a seller profile, the links to that exact
      path and to the seller list are. */
  lemma ActiveLinkCases(href: Option<string>, path: string)
    ensures !StartsWith(path, SellerProfilePrefix) ==> (IsActiveFor(href, path) <==> href == Some(path))
    ensures StartsWith(path, SellerProfilePrefix) ==>
      (IsActiveFor(href, path) <==> href == Some(path) || href == Some(SellersPath))
    ensures href.None? ==> !IsActiveFor(href, path)
  {
  }

  // ---------------------------------------------------------------------
  // The logged-in user
  // ---------------------------------------------------------------------

  /** A flat record of string fields (the auth user, a Firestore document). */
  type Record = map<string, string>

  /** The result of reading `users/<uid>`. */
  datatype DocRead = Exists(data: Record) | NotFound | ReadError

  const DefaultUserData: Record := map["role" := "cliente"]

  /** `fetchUserData`: the document's data, or `{role: 'cliente'}` when the
      document is missing or the read fails. */
  function FetchUserData(read: DocRead): (r: Record)
    ensures read.Exists? ==> r == read.data
    ensures !read.Exists? ==> "role" in r && r["role"] == "cliente" && r.Keys == {"role"}
  {
    if read.Exists? then read.data else DefaultUserData
  }

  /** `{...user, ...userData}`: every field of either record, the document's
      value winning on a clash. */
  function MergeUser(authUser: Record, userData: Record): (r: Record)
    ensures r.Keys == authUser.Keys + userData.Keys
    ensures forall k :: k in userData ==> r[k] == userData[k]
    ensures forall k :: k in authUser && k !in userData ==> r[k] == authUser[k]
  {
    authUser + userData
  }

  /** A user whose document could not be read is treated as a customer,
      whatever the auth record says about its role. */
  lemma UnreadUserIsCustomer(authUser: Record, read: DocRead)
    requires !read.Exists?
    ensures var u := MergeUser(authUser, FetchUserData(read));
      "role" in u && u["role"] == "cliente"
  {
  }

  /** The field a record holds, or `None` for `undefined`. */
  function Field(u: Record, k: string): Option<string> {
    if k in u then Some(u[k]) else None
  }

  /** The dashboard button is shown iff someone is logged in with the role
      `vendedor` or `admin`. */
  function DashboardVisible(user: Option<Record>): (v: bool)
    ensures v <==> user.Some? && (Field(user.value, "role") == Some("vendedor") || Field(user.value, "role") == Some("admin"))
  {
    match user
    case None => false
    case Some(u) => Field(u, "role") == Some("vendedor") || Field(u, "role") == Some("admin")
  }

  /** `user.displayName || user.name || user.email`. */
  function DisplayName(u: Record): (r: Option<string>)
    ensures Field(u, "displayName").Some? && Truthy(u["displayName"]) ==> r == Some(u["displayName"])
    ensures (!(Field(u, "displayName").Some? && Truthy(u["displayName"])) &&
             Field(u, "name").Some? && Truthy(u["name"])) ==> r == Some(u["name"])
    ensures (!(Field(u, "displayName").Some? && Truthy(u["displayName"])) &&
             !(Field(u, "name").Some? && Truthy(u["name"]))) ==> r == Field(u, "email")
  {
    if "displayName" in u && |u["displayName"]| > 0 then Some(u["displayName"])
    else if "name" in u && |u["name"]| > 0 then Some(u["name"])
    else Field(u, "email")
  }

  /** The header's user section. */
  datatype UserView = LoggedOut | LoggedIn(displayName: Option<string>, dashboard: bool)

  /** `updateUI`: draws the user section and ALWAYS closes the user panel and
      hides the overlay, without looking at the filter panel. The overlay
      therefore still tracks the panels exactly when the filter panel is
      closed; an open filter panel is left without its overlay. */
  method UpdateUI(panels: Ui.Panels, user: Option<Record>) returns (view: UserView)
    requires panels.Valid()
    modifies panels
    ensures user.None? ==> view == LoggedOut
    ensures user.Some? ==> view == LoggedIn(DisplayName(user.value), DashboardVisible(user))
    ensures !panels.userOpen && !panels.overlayVisible
    ensures panels.filterOpen == old(panels.filterOpen) && panels.fab == old(panels.fab)
    ensures panels.Valid()
    ensures panels.OverlayTracksPanels() <==> !panels.filterOpen
  {
    if user.Some? {
      view := LoggedIn(DisplayName(user.value), DashboardVisible(user));
    } else {
      view := LoggedOut;
    }
    panels.userOpen := false;
    panels.overlayVisible := false;
  }

  // ---------------------------------------------------------------------
  // E-mail login
  // ---------------------------------------------------------------------

  /** What `signInWithEmailAndPassword` did: succeeded, or failed with a code. */
  datatype AuthOutcome = SignedIn | AuthFailed(code: string)

  datatype ToastKind = Success | Error | Info

  /** What a submit of the login form does: whether the auth call was made,
      the toast shown, and whether the form was reset. */
  datatype LoginEffect = LoginEffect(signInCalled: bool, message: string, kind: ToastKind, formReset: bool)

  const FillBoth := "Preencha e-mail e senha."
  const BadCredentials := "E-mail ou senha inválidos."
  const LoginFailed := "Erro ao tentar entrar."

  predicate IsCredentialError(code: string) {
    code == "auth/user-not-found" || code == "auth/wrong-password" || code == "auth/invalid-credential"
  }

  /** `handleEmailLogin`: an absent or empty e-mail or password is refused
      before any auth call; a failure is reported with one of two messages. */
  function HandleEmailLogin(email: Option<string>, password: Option<string>, outcome: AuthOutcome): (e: LoginEffect)
    ensures e.signInCalled <==> OptOr(email, "") != "" && OptOr(password, "") != ""
    ensures !e.signInCalled ==> e.message == FillBoth && e.kind == Error && !e.formReset
    ensures e.signInCalled && outcome.SignedIn? ==> e.kind == Success && e.formReset
    ensures e.signInCalled && outcome.AuthFailed? ==>
      e.kind == Error && !e.formReset &&
      (e.message == BadCredentials <==> IsCredentialError(outcome.code)) &&
      (e.message == LoginFailed <==> !IsCredentialError(outcome.code))
  {
    if email.None? || |email.value| == 0 || password.None? || |password.value| == 0 then
      LoginEffect(false, FillBoth, Error, false)
    else
      match outcome
      case SignedIn => LoginEffect(true, "Login bem-sucedido!", Success, true)
      case AuthFailed(code) =>
        var msg := if IsCredentialError(code) then BadCredentials else LoginFailed;
        LoginEffect(true, msg, Error, false)
  }
}
