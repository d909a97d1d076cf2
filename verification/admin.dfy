/** The administrator's tab (js/systemaadmin.js): shown only to a user whose
    document says `admin`, a seller list loaded on the first click of the
    tab, the seller creation form, and a confirmation slot holding the
    deletion the "yes" button will run. */
module Admin {
  import opened Common
  import Menu
  import Functions

  const NoNameLabel := "Nome não definido"
  const NoEmailLabel := "Email não definido"
  const UnknownError := "Erro desconhecido"
  const ErrorPrefix := "Erro: "

  /** `userSnap.exists() && userSnap.data().role === 'admin'`. */
  predicate IsAdminDoc(read: Menu.DocRead) {
    read.Exists? && Menu.Field(read.data, "role") == Some("admin")
  }

  // ---------------------------------------------------------------------
  // The seller list
  // ---------------------------------------------------------------------

  /** A `users` document with role `vendedor`: its id and fields. */
  datatype SellerDoc = SellerDoc(id: string, data: Menu.Record)

  /** A template literal's rendering of a field that may be `undefined`. */
  function Interpolated(x: Option<string>): (r: string)
    ensures x.Some? ==> r == x.value
    ensures x.None? ==> r == "undefined"
  {
    if x.Some? then x.value else "undefined"
  }

  /** One row of `#admin-seller-list`: the name and e-mail shown, and the
      `data-id` and `data-name` of its delete button. */
  datatype SellerRow = SellerRow(name: string, email: string, deleteId: string, deleteName: string)

  /** What `btn.dataset.name` reads back from the markup
      `data-name="${text}"`: the parser ends the attribute value at the
      first `"`. */
  function DataNameRead(text: string): (r: string)
    ensures StartsWith(text, r) && '"' !in r
    ensures '"' !in text ==> r == text
    ensures '"' in text ==> |r| < |text| && text[|r|] == '"'
  {
    if text == [] then []
    else if text[0] == '"' then []
    else [text[0]] + DataNameRead(text[1..])
  }

  /** The row of a seller. The shown name and e-mail fall back to a label;
      the button's `data-name` does not, so a seller without a name is
      offered for deletion as "undefined", and a name holding a `"` is cut
      at it, because the name goes into the markup unescaped. */
  function Row(doc: SellerDoc): (r: SellerRow)
    ensures Truthy(r.name) && Truthy(r.email)
    ensures r.deleteId == doc.id
    ensures "name" in doc.data && Truthy(doc.data["name"]) ==> r.name == doc.data["name"]
    ensures "name" in doc.data && '"' !in doc.data["name"] ==> r.deleteName == doc.data["name"]
    ensures "name" in doc.data && '"' in doc.data["name"] ==>
      var n := doc.data["name"];
      StartsWith(n, r.deleteName) && |r.deleteName| < |n| && n[|r.deleteName|] == '"' && '"' !in r.deleteName
    ensures "name" in doc.data && !Truthy(doc.data["name"]) ==> r.name == NoNameLabel
    ensures "name" !in doc.data ==> r.name == NoNameLabel && r.deleteName == "undefined"
  {
    var name := Menu.Field(doc.data, "name");
    SellerRow(OptOr(name, NoNameLabel), OptOr(Menu.Field(doc.data, "email"), NoEmailLabel), doc.id,
              DataNameRead(Interpolated(name)))
  }

  /** The attribute keeps exactly the text before the first `"`. */
  lemma {:induction false} DataNameReadCut(a: string, b: string)
    requires '"' !in a
    ensures DataNameRead(a + "\"" + b) == a
  {
    if a != [] {
      assert (a + "\"" + b)[1..] == a[1..] + "\"" + b;
      DataNameReadCut(a[1..], b);
    }
  }

  /** A seller named `Loja "X"` is offered for deletion as `Loja `. */
  lemma QuotedNameTruncated(id: string)
    ensures Row(SellerDoc(id, map["name" := "Loja \"X\""])).deleteName == "Loja "
  {
    var n := "Loja \"X\"";
    assert n == "Loja " + "\"" + "X\"";
    DataNameReadCut("Loja ", "X\"");
    assert Menu.Field(map["name" := n], "name") == Some(n);
  }

  /** What the seller query returned. */
  datatype ListFetch = Sellers(docs: seq<SellerDoc>) | ListFailed

  /** The contents of `#admin-seller-list`. */
  datatype ListView = NotRendered | NoSellersFound | Rows(rows: seq<SellerRow>) | ListError

  // ---------------------------------------------------------------------
  // The callables, seen from the page
  // ---------------------------------------------------------------------

  /** `formData` of the seller creation form. */
  function AddSellerRequest(name: string, whatsapp: string, email: string, password: string): (d: Menu.Record)
    ensures d.Keys == {"name", "whatsapp", "email", "password"}
    ensures d["name"] == name && d["whatsapp"] == whatsapp && d["email"] == email && d["password"] == password
  {
    map["name" := name, "whatsapp" := whatsapp, "email" := email, "password" := password]
  }

  /** The error message a call ends with, if it fails: the rejection's
      message, or, for a result without `success`, `data.message` or
      `Erro desconhecido`. */
  function CallError(o: Functions.ClientOutcome): (r: Option<string>)
    ensures r.None? <==> o.Returned? && o.success
  {
    match o
    case Threw(reason) => Some(reason)
    case Returned(success, message) => if success then None else Some(OptOr(message, UnknownError))
  }

  /** A result without `success` is always explained: its message, or the
      default when it carries none. */
  lemma UnsuccessfulResultExplained(message: Option<string>)
    ensures var r := CallError(Functions.Returned(false, message));
      r.Some? && Truthy(r.value) &&
      (message.Some? && Truthy(message.value) ==> r.value == message.value) &&
      (message.None? ==> r.value == UnknownError)
  {
  }

  /** What a creation or deletion did to the page: the error shown (after
      `Erro: `), and whether the list is reloaded. A creation also closes
      its modal on success. */
  datatype CallEffect = CallEffect(error: Option<string>, closeModal: bool, reload: bool)

  /** `handleAddSeller`, after the call. */
  function AddSellerEffect(o: Functions.ClientOutcome): (e: CallEffect)
    ensures e.reload <==> CallError(o).None?
    ensures e.closeModal <==> e.reload
    ensures e.error.Some? <==> !e.reload
    ensures e.error.Some? ==> e.error.value == ErrorPrefix + CallError(o).value
  {
    match CallError(o)
    case None => CallEffect(None, true, true)
    case Some(msg) => CallEffect(Some(ErrorPrefix + msg), false, false)
  }

  /** `confirmDelete`, after the call. */
  function DeleteEffect(o: Functions.ClientOutcome): (e: CallEffect)
    ensures !e.closeModal
    ensures e.reload <==> CallError(o).None?
    ensures e.error.Some? <==> !e.reload
    ensures e.error.Some? ==> e.error.value == ErrorPrefix + CallError(o).value
  {
    match CallError(o)
    case None => CallEffect(None, false, true)
    case Some(msg) => CallEffect(Some(ErrorPrefix + msg), false, false)
  }

  // ---------------------------------------------------------------------
  // The tab and its module state
  // ---------------------------------------------------------------------

  class AdminTab {
    const tabPresent: bool      // #admin-tab-button exists
    const panelPresent: bool    // #panel-admin exists
    const listPresent: bool     // #admin-seller-list exists
    var tabVisible: bool
    var panelHidden: bool       // `hidden` forced on #panel-admin
    /** Click listeners attached to the tab button: one per `showAdminTab`. */
    var listeners: nat
    var initialized: bool       // adminTabInitialized
    /** The list loads the tab's clicks have started. */
    ghost var tabLoads: nat
    var list: ListView
    /** `confirmAction`: the seller a pending `confirmDelete` is bound to. */
    var confirmAction: Option<string>
    var confirmVisible: bool
    /** The name the confirmation question quotes. */
    var confirmSubject: string

    /** Listeners exist only on a button that exists, and the tab's clicks
        have loaded the list exactly once if the flag is set, else never. */
    ghost predicate Valid()
      reads this
    {
      (!tabPresent ==> !tabVisible && listeners == 0) &&
      tabLoads == (if initialized then 1 else 0)
    }

    constructor (tabPresent: bool, panelPresent: bool, listPresent: bool)
      ensures Valid()
      ensures this.tabPresent == tabPresent && this.panelPresent == panelPresent && this.listPresent == listPresent
      ensures !tabVisible && !panelHidden && listeners == 0 && !initialized && list == NotRendered
      ensures confirmAction.None? && !confirmVisible
    {
      this.tabPresent, this.panelPresent, this.listPresent := tabPresent, panelPresent, listPresent;
      tabVisible, panelHidden, listeners, initialized, tabLoads := false, false, 0, false, 0;
      list, confirmAction, confirmVisible, confirmSubject := NotRendered, None, false, "";
    }

    /** `showAdminTab`: the button is revealed and one more click listener
        is attached to it. */
    method ShowAdminTab()
      requires Valid()
      modifies this
      ensures Valid()
      ensures tabVisible == (tabPresent || old(tabVisible))
      ensures listeners == old(listeners) + (if tabPresent then 1 else 0)
      ensures panelHidden == old(panelHidden) && initialized == old(initialized) && list == old(list)
      ensures confirmAction == old(confirmAction) && confirmVisible == old(confirmVisible)
    {
      if !tabPresent {
        return;
      }
      tabVisible := true;
      listeners := listeners + 1;
    }

    /** `hideAdminTab`: the button and the panel are hidden. */
    method HideAdminTab()
      requires Valid()
      modifies this
      ensures Valid()
      ensures !tabVisible
      ensures panelHidden == (panelPresent || old(panelHidden))
      ensures listeners == old(listeners) && initialized == old(initialized) && list == old(list)
      ensures confirmAction == old(confirmAction) && confirmVisible == old(confirmVisible)
    {
      if tabPresent {
        tabVisible := false;
      }
      if panelPresent {
        panelHidden := true;
      }
    }

    /** The auth listener: the tab is shown only when the signed-in user's
        document exists with role `admin`; a failed read leaves everything
        as it was. */
    method AuthChanged(uid: Option<string>, read: Menu.DocRead)
      requires Valid()
      modifies this
      ensures Valid()
      ensures uid.Some? && IsAdminDoc(read) ==>
        tabVisible == (tabPresent || old(tabVisible)) && listeners == old(listeners) + (if tabPresent then 1 else 0)
      ensures !(uid.Some? && IsAdminDoc(read)) ==> listeners == old(listeners)
      ensures uid.None? || (!IsAdminDoc(read) && !read.ReadError?) ==>
        !tabVisible && panelHidden == (panelPresent || old(panelHidden))
      ensures uid.Some? && read.ReadError? ==> tabVisible == old(tabVisible) && panelHidden == old(panelHidden)
      ensures initialized == old(initialized) && list == old(list) && confirmAction == old(confirmAction)
    {
      if uid.None? {
        HideAdminTab();
      } else if read.ReadError? {
        return;
      } else if IsAdminDoc(read) {
        ShowAdminTab();
      } else {
        HideAdminTab();
      }
    }

    /** A click on the tab button: the first click that reaches a listener
        starts the list load and sets the flag; later clicks do nothing,
        however many listeners the button has collected. */
    method ClickTab() returns (load: bool)
      requires Valid()
      modifies this
      ensures Valid()
      ensures load <==> listeners > 0 && !old(initialized)
      ensures initialized <==> old(initialized) || listeners > 0
      ensures tabLoads <= 1
      ensures tabVisible == old(tabVisible) && listeners == old(listeners) && list == old(list)
      ensures confirmAction == old(confirmAction)
    {
      load := false;
      if listeners > 0 && !initialized {
        load := true;
        initialized := true;
        tabLoads := tabLoads + 1;
      }
    }

    /** `loadSellers`: one row per seller, in query order; an empty result
        and a failure have their own messages. */
    method LoadSellers(fetched: ListFetch)
      modifies this
      ensures !listPresent ==> list == old(list)
      ensures listPresent && fetched.ListFailed? ==> list == ListError
      ensures listPresent && fetched.Sellers? && fetched.docs == [] ==> list == NoSellersFound
      ensures listPresent && fetched.Sellers? && fetched.docs != [] ==>
        list.Rows? && |list.rows| == |fetched.docs| &&
        forall i :: 0 <= i < |fetched.docs| ==> list.rows[i] == Row(fetched.docs[i])
      ensures tabVisible == old(tabVisible) && initialized == old(initialized) && tabLoads == old(tabLoads)
      ensures listeners == old(listeners) && confirmAction == old(confirmAction)
    {
      if !listPresent {
        return;
      }
      match fetched {
        case ListFailed =>
          list := ListError;
        case Sellers(docs) =>
          if docs == [] {
            list := NoSellersFound;
            return;
          }
          var rows: seq<SellerRow> := [];
          for i := 0 to |docs|
            invariant |rows| == i
            invariant forall j :: 0 <= j < i ==> rows[j] == Row(docs[j])
          {
            rows := rows + [Row(docs[i])];
          }
          list := Rows(rows);
      }
    }

    /** `handleDeleteSeller`: the deletion of that seller is stored and the
        question shown. */
    method HandleDeleteSeller(sellerId: string, sellerName: string)
      modifies this
      ensures confirmAction == Some(sellerId) && confirmVisible && confirmSubject == sellerName
      ensures tabVisible == old(tabVisible) && initialized == old(initialized) && list == old(list)
      ensures listeners == old(listeners) && tabLoads == old(tabLoads)
    {
      confirmSubject := sellerName;
      confirmAction := Some(sellerId);
      confirmVisible := true;
    }

    /** "Yes": the stored deletion (if any) runs, and hides the modal as it
        starts; the slot is cleared either way. The result is the request
        the deletion sends. */
    method ConfirmYes() returns (request: Option<Menu.Record>)
      modifies this
      ensures old(confirmAction).Some? ==> request == Some(map["uid" := old(confirmAction).value]) && !confirmVisible
      ensures old(confirmAction).None? ==> request.None? && confirmVisible == old(confirmVisible)
      ensures confirmAction.None?
      ensures tabVisible == old(tabVisible) && initialized == old(initialized) && list == old(list)
      ensures listeners == old(listeners) && tabLoads == old(tabLoads)
    {
      request := None;
      if confirmAction.Some? {
        confirmVisible := false;
        request := Some(map["uid" := confirmAction.value]);
      }
      confirmAction := None;
    }

    /** "No": the slot is cleared without running and the modal hidden. */
    method ConfirmNo()
      modifies this
      ensures confirmAction.None? && !confirmVisible
      ensures tabVisible == old(tabVisible) && initialized == old(initialized) && list == old(list)
      ensures listeners == old(listeners) && tabLoads == old(tabLoads)
    {
      confirmAction := None;
      confirmVisible := false;
    }
  }

  /** The tab's first click loads the list and no later click does, even
      after the admin signs in again and the button collects a second
      listener. */
  method LoadOnce(t: AdminTab, uid: string, read: Menu.DocRead) returns (first: bool, second: bool)
    requires t.Valid() && t.tabPresent && !t.initialized && IsAdminDoc(read)
    modifies t
    ensures t.Valid()
    ensures first && !second
  {
    t.AuthChanged(Some(uid), read);
    first := t.ClickTab();
    t.AuthChanged(Some(uid), read);
    second := t.ClickTab();
  }
}
