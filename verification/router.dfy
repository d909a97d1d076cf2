/** The client-side router (js/router.js): from the location's path and the
    history entry's state it decides which page to show, whether a seller
    scope is active, what the seller header says, which product fetches to
    issue, which navigation link to highlight and whether the floating
    filter button shows; `navigate` pushes a history entry only when
    something changed. */
module Router {
  import opened Common
  import Uri
  import Catalog
  import Ui
  import Menu

  datatype PageId = ProductsPage | SellersPage | ChannelsPage | ReferencesPage

  /** The route table: four exact paths. */
  function Routes(path: string): (r: Option<PageId>)
    ensures r.Some? <==> path == "/" || path == "/vendedores" || path == "/canais" || path == "/referencias"
    ensures r == Some(ProductsPage) <==> path == "/"
  {
    if path == "/" then Some(ProductsPage)
    else if path == "/vendedores" then Some(SellersPage)
    else if path == "/canais" then Some(ChannelsPage)
    else if path == "/referencias" then Some(ReferencesPage)
    else None
  }

  /** `history.state`: `null`, or an object with optional `sellerId` and
      `sellerName`. Two states are equal exactly when their JSON texts are. */
  datatype HistoryState = NullState | StateBag(sellerId: Option<string>, sellerName: Option<string>)

  /** `{}`, the default state of `navigate`. */
  const EmptyState := StateBag(None, None)

  /** `history.state?.sellerId`, when truthy. */
  function StateSellerId(st: HistoryState): (r: Option<string>)
    ensures r.Some? <==> st.StateBag? && st.sellerId.Some? && Truthy(st.sellerId.value)
    ensures r.Some? ==> r == st.sellerId
  {
    if st.StateBag? && st.sellerId.Some? && |st.sellerId.value| > 0 then st.sellerId else None
  }

  /** `history.state?.sellerName`. */
  function StateSellerName(st: HistoryState): Option<string> {
    if st.StateBag? then st.sellerName else None
  }

  predicate IsSellerPath(path: string) {
    StartsWith(path, Menu.SellerProfilePrefix)
  }

  /** `path.split('/vendedores/')[1]`: the text after the prefix, up to any
      further occurrence of it. */
  function SellerTail(path: string): (tail: string)
    requires IsSellerPath(path)
    ensures StartsWith(path[|Menu.SellerProfilePrefix|..], tail)
    ensures !Contains(path[|Menu.SellerProfilePrefix|..], Menu.SellerProfilePrefix) ==>
      tail == path[|Menu.SellerProfilePrefix|..]
  {
    var prefix := Menu.SellerProfilePrefix;
    assert StartsWith(path[0..], prefix) by { assert path[0..] == path; }
    assert IndexOf(path, prefix) == 0;
    ContainsIndexOf(path[|prefix|..], prefix);
    Split(path, prefix)[1]
  }

  /** The seller header above the product grid. */
  datatype HeaderView = HeaderHidden | HeaderShown(title: string)

  /** What a route change asks of the rest of the storefront, in order:
      the `sellerSelected` event and calls to `fetchAndRenderProducts`. */
  datatype RouteEvent = SellerSelected(sellerId: string) | FetchProducts(filter: Catalog.Filter)

  const AllProducts := FetchProducts(Catalog.PriceFilter(Catalog.AllPrices))

  /** The outcome of `handleRouteChange` for one path and state. */
  datatype RouteDecision = RouteDecision(
    page: PageId,
    sellerId: Option<string>,
    sellerName: Option<string>,
    header: HeaderView,
    events: seq<RouteEvent>,
    activePath: string)

  /** The decision, given the already-decoded name in the URL tail (unused
      outside seller paths). */
  function Decide(path: string, st: HistoryState, nameFromUrl: string): RouteDecision {
    var activePath := if IsSellerPath(path) then Menu.SellersPath else path;
    if IsSellerPath(path) then
      match StateSellerId(st)
      case Some(id) =>
        var name := OptOr(StateSellerName(st), nameFromUrl);
        RouteDecision(ProductsPage, Some(id), Some(name), HeaderShown("Contas de " + name),
                      [SellerSelected(id), FetchProducts(Catalog.SellerFilter(id))], activePath)
      case None =>
        RouteDecision(SellersPage, None, None, HeaderHidden, [], activePath)
    else if Routes(path).Some? then
      RouteDecision(Routes(path).value, None, None, HeaderHidden,
                    if path == "/" then [AllProducts] else [], activePath)
    else
      RouteDecision(ProductsPage, None, None, HeaderHidden, [AllProducts], activePath)
  }

  /** `decodeURIComponent` of the tail, which the source calls on every
      seller path whether or not the name is needed. A malformed escape
      THROWS there, after every page was hidden: the route change stops with
      no page shown. */
  function ResolveAsWritten(path: string, st: HistoryState): (r: Result<RouteDecision, Uri.UriError>)
    ensures r.Err? <==> IsSellerPath(path) && Uri.Decode(SellerTail(path)).Err?
  {
    if IsSellerPath(path) then
      match Uri.Decode(SellerTail(path))
      case Ok(name) => Ok(Decide(path, st, name))
      case Err(e) => Err(e)
    else Ok(Decide(path, st, ""))
  }

  /** The tail decoded, or left as it is when it is not a well-formed
      escape sequence. */
  function NameFromUrl(path: string): (name: string)
    requires IsSellerPath(path)
    ensures Uri.Decode(SellerTail(path)).Ok? ==> name == Uri.Decode(SellerTail(path)).value
    ensures Uri.Decode(SellerTail(path)).Err? ==> name == SellerTail(path)
  {
    match Uri.Decode(SellerTail(path))
    case Ok(name) => name
    case Err(_) => SellerTail(path)
  }

  /** The route decision with the decoding failure caught: the rest of the
      model routes through this. */
  function Resolve(path: string, st: HistoryState): (d: RouteDecision)
    ensures d.sellerId.Some? <==> IsSellerPath(path) && StateSellerId(st).Some?
    ensures d.sellerId.Some? ==>
      d.page == ProductsPage && d.sellerId == StateSellerId(st) &&
      d.sellerName == Some(OptOr(StateSellerName(st), NameFromUrl(path))) &&
      d.header == HeaderShown("Contas de " + d.sellerName.value) &&
      d.events == [SellerSelected(d.sellerId.value), FetchProducts(Catalog.SellerFilter(d.sellerId.value))]
    ensures d.sellerId.None? ==> d.sellerName.None? && d.header == HeaderHidden
    ensures d.activePath == if IsSellerPath(path) then "/vendedores" else path
  {
    Decide(path, st, if IsSellerPath(path) then NameFromUrl(path) else "")
  }

  /** A seller path followed with a state that carries the seller's id and
      a non-empty name opens that seller's products under that name; the
      name in the URL's tail is not used. As written, the route change
      still decodes the tail: it makes this decision when the tail decodes
      and throws when it does not. */
  lemma StateNameWins(path: string, id: string, name: string)
    requires IsSellerPath(path) && Truthy(id) && Truthy(name)
    ensures var d := Resolve(path, StateBag(Some(id), Some(name)));
      d.page == ProductsPage && d.sellerId == Some(id) && d.sellerName == Some(name) &&
      d.header == HeaderShown("Contas de " + name) &&
      d.events == [SellerSelected(id), FetchProducts(Catalog.SellerFilter(id))]
    ensures Uri.Decode(SellerTail(path)).Ok? ==>
      ResolveAsWritten(path, StateBag(Some(id), Some(name))) == Ok(Resolve(path, StateBag(Some(id), Some(name))))
    ensures Uri.Decode(SellerTail(path)).Err? ==> ResolveAsWritten(path, StateBag(Some(id), Some(name))).Err?
  {
    assert StateSellerId(StateBag(Some(id), Some(name))) == Some(id);
    if Uri.Decode(SellerTail(path)).Ok? {
      ResolveAgreesWhenDecodable(path, StateBag(Some(id), Some(name)));
    }
  }

  /** When the tail decodes, the corrected decision is the one the source
      makes. */
  lemma ResolveAgreesWhenDecodable(path: string, st: HistoryState)
    requires !IsSellerPath(path) || Uri.Decode(SellerTail(path)).Ok?
    ensures ResolveAsWritten(path, st) == Ok(Resolve(path, st))
  {
  }

  /** Classification precedence: a seller-profile prefix wins over the
      table, the table over the fallback, and the fallback is the product
      page. */
  lemma ClassificationPrecedence(path: string, st: HistoryState)
    ensures IsSellerPath(path) ==>
      Resolve(path, st).page == (if StateSellerId(st).Some? then ProductsPage else SellersPage)
    ensures !IsSellerPath(path) && Routes(path).Some? ==> Resolve(path, st).page == Routes(path).value
    ensures !IsSellerPath(path) && Routes(path).None? ==> Resolve(path, st).page == ProductsPage
  {
  }

  /** Fetches by route: `/` and unknown paths fetch every product, the
      other table routes and a seller path without a state id fetch
      nothing, and a seller path with one fetches that seller's products
      right after announcing the seller. */
  lemma FetchesByRoute(path: string, st: HistoryState)
    ensures !IsSellerPath(path) ==>
      Resolve(path, st).events == (if path == "/" || Routes(path).None? then [AllProducts] else [])
    ensures IsSellerPath(path) && StateSellerId(st).None? ==> Resolve(path, st).events == []
    ensures forall e :: e in Resolve(path, st).events && e.FetchProducts? ==>
      (e.filter.SellerFilter? <==> Resolve(path, st).sellerId.Some?)
  {
  }

  /** The page elements that end up visible: the chosen page, else the
      product page, else none. */
  function ShownPages(page: PageId, present: set<PageId>): (shown: set<PageId>)
    ensures shown <= present && |shown| <= 1
    ensures page in present ==> shown == {page}
    ensures ProductsPage in present ==> |shown| == 1
  {
    if page in present then {page}
    else if ProductsPage in present then {ProductsPage}
    else {}
  }

  /** What is visible after the source's route change. */
  function VisibleAsWritten(path: string, st: HistoryState, present: set<PageId>): set<PageId> {
    match ResolveAsWritten(path, st)
    case Ok(d) => ShownPages(d.page, present)
    case Err(_) => {}
  }

  /** `/vendedores/%` leaves the storefront blank, whatever the state and
      whichever page elements exist. */
  lemma BlankPageOnMalformedTail(st: HistoryState, present: set<PageId>)
    ensures VisibleAsWritten("/vendedores/%", st, present) == {}
  {
    var path := "/vendedores/%";
    assert StartsWith(path, Menu.SellerProfilePrefix);
    var tail := SellerTail(path);
    assert !Contains(path[12..], Menu.SellerProfilePrefix);
    assert tail == "%";
    Uri.MalformedEscapeThrows("");
    assert "%" + "" == "%";
  }

  /** With the decoding failure caught, some page is always shown as long
      as the product page exists. */
  lemma NeverBlank(path: string, st: HistoryState, present: set<PageId>)
    requires ProductsPage in present
    ensures |ShownPages(Resolve(path, st).page, present)| == 1
  {
  }

  /** `isFilterFabVisible`: the product page on a narrow viewport. */
  predicate IsFilterFabVisible(currentPageId: Option<PageId>, innerWidth: int) {
    currentPageId == Some(ProductsPage) && innerWidth <= 768
  }

  /** The router's module state, the browser location and history, the
      visible page and the seller header. */
  class RouterState {
    var locationPath: string
    var historyState: HistoryState
    var historyLength: nat
    var currentPageId: Option<PageId>
    var currentSellerFilterId: Option<string>
    var currentSellerFilterName: Option<string>
    var visiblePages: set<PageId>
    var header: HeaderView
    const fabPresent: bool   // `#open-filter-btn` was found at start-up

    constructor (path: string, st: HistoryState, fabPresent: bool)
      ensures locationPath == path && historyState == st && historyLength == 1
      ensures currentPageId.None? && currentSellerFilterId.None? && currentSellerFilterName.None?
      ensures visiblePages == {} && header == HeaderHidden && this.fabPresent == fabPresent
    {
      locationPath, historyState, historyLength := path, st, 1;
      currentPageId, currentSellerFilterId, currentSellerFilterName := None, None, None;
      visiblePages, header := {}, HeaderHidden;
      this.fabPresent := fabPresent;
    }

    /** `updateFilterFabVisibility`: with the button present, it shows iff
        the product page is on a narrow viewport and the filter panel is
        closed. */
    method UpdateFilterFabVisibility(panels: Ui.Panels, innerWidth: int)
      modifies panels
      ensures panels.userOpen == old(panels.userOpen) && panels.filterOpen == old(panels.filterOpen)
      ensures panels.overlayVisible == old(panels.overlayVisible)
      ensures !fabPresent ==> panels.fab == old(panels.fab)
      ensures fabPresent ==>
        panels.fab == (if IsFilterFabVisible(currentPageId, innerWidth) && !panels.filterOpen then Ui.Flex else Ui.NoDisplay)
    {
      if !fabPresent {
        return;
      }
      if IsFilterFabVisible(currentPageId, innerWidth) {
        if !panels.filterOpen {
          panels.fab := Ui.Flex;
        } else {
          panels.fab := Ui.NoDisplay;
        }
      } else {
        panels.fab := Ui.NoDisplay;
      }
    }

    /** `handleRouteChange`: closes the filter panel (the button decision
        uses the page being left), hides every page, resets the seller
        scope, then decides the route as the source does. When the
        `decodeURIComponent` of a seller path throws, the handler stops
        there: no page is shown, the header and the nav links keep what
        they showed, and nothing is fetched. Otherwise the decision is
        applied, the nav link highlighted and the button recomputed. */
    method HandleRouteChange(panels: Ui.Panels, nav: Menu.NavBar, present: set<PageId>, innerWidth: int)
      returns (outcome: Result<seq<RouteEvent>, Uri.UriError>)
      requires panels.Valid() && nav.Valid()
      modifies this, panels, nav.active
      ensures outcome.Err? <==> old(ResolveAsWritten(locationPath, historyState)).Err?
      ensures outcome.Err? ==>
        currentPageId.None? && currentSellerFilterId.None? && currentSellerFilterName.None? &&
        visiblePages == {} && header == old(header) && nav.active[..] == old(nav.active[..]) &&
        (fabPresent ==> (panels.fab == Ui.Flex <==> IsFilterFabVisible(old(currentPageId), innerWidth)))
      ensures outcome.Ok? ==> var d := old(ResolveAsWritten(locationPath, historyState)).value;
        currentPageId == Some(d.page) && currentSellerFilterId == d.sellerId &&
        currentSellerFilterName == d.sellerName && header == d.header && outcome.value == d.events &&
        visiblePages == ShownPages(d.page, present) &&
        (forall i :: 0 <= i < nav.active.Length ==> nav.active[i] == Menu.IsActiveFor(nav.hrefs[i], d.activePath)) &&
        (fabPresent ==> (panels.fab == Ui.Flex <==> IsFilterFabVisible(currentPageId, innerWidth)))
      ensures locationPath == old(locationPath) && historyState == old(historyState)
      ensures historyLength == old(historyLength)
      ensures panels.Valid() && !panels.filterOpen && panels.userOpen == old(panels.userOpen)
      ensures nav.Valid()
    {
      panels.CloseFilterPanel(IsFilterFabVisible(currentPageId, innerWidth));
      visiblePages := {};
      currentPageId := None;
      currentSellerFilterId := None;
      currentSellerFilterName := None;
      match ResolveAsWritten(locationPath, historyState) {
        case Err(e) =>
          outcome := Err(e);
        case Ok(d) =>
          var events := ApplyDecision(d, panels, nav, present, innerWidth);
          outcome := Ok(events);
      }
    }

    /** The second half of `handleRouteChange`, once the decision is made:
        the page, the seller scope, the header and the nav link follow it. */
    method ApplyDecision(d: RouteDecision, panels: Ui.Panels, nav: Menu.NavBar, present: set<PageId>, innerWidth: int)
      returns (events: seq<RouteEvent>)
      requires panels.Valid() && nav.Valid() && !panels.filterOpen
      modifies this, panels, nav.active
      ensures currentPageId == Some(d.page) && currentSellerFilterId == d.sellerId &&
        currentSellerFilterName == d.sellerName && header == d.header && events == d.events &&
        visiblePages == ShownPages(d.page, present) &&
        (forall i :: 0 <= i < nav.active.Length ==> nav.active[i] == Menu.IsActiveFor(nav.hrefs[i], d.activePath))
      ensures locationPath == old(locationPath) && historyState == old(historyState)
      ensures historyLength == old(historyLength)
      ensures panels.Valid() && !panels.filterOpen && panels.userOpen == old(panels.userOpen)
      ensures fabPresent ==> (panels.fab == Ui.Flex <==> IsFilterFabVisible(currentPageId, innerWidth))
      ensures nav.Valid()
    {
      currentPageId := Some(d.page);
      currentSellerFilterId := d.sellerId;
      currentSellerFilterName := d.sellerName;
      header := d.header;
      events := d.events;
      visiblePages := ShownPages(d.page, present);
      nav.SetActiveLink(d.activePath);
      UpdateFilterFabVisibility(panels, innerWidth);
    }

    /** `navigate(path, state)`: pushes a history entry only when the path
        or the state differs from the current ones, and always re-runs the
        route change, which throws out of `navigate` on a malformed seller
        tail. */
    method Navigate(path: string, st: HistoryState, panels: Ui.Panels, nav: Menu.NavBar, present: set<PageId>, innerWidth: int)
      returns (pushed: bool, outcome: Result<seq<RouteEvent>, Uri.UriError>)
      requires panels.Valid() && nav.Valid()
      modifies this, panels, nav.active
      ensures pushed <==> old(locationPath) != path || old(historyState) != st
      ensures historyLength == old(historyLength) + (if pushed then 1 else 0)
      ensures locationPath == path && historyState == st
      ensures outcome.Err? <==> ResolveAsWritten(path, st).Err?
      ensures outcome.Err? ==> currentPageId.None? && visiblePages == {}
      ensures outcome.Ok? ==> var d := ResolveAsWritten(path, st).value;
        currentPageId == Some(d.page) && currentSellerFilterId == d.sellerId && outcome.value == d.events &&
        header == d.header && visiblePages == ShownPages(d.page, present) &&
        (forall i :: 0 <= i < nav.active.Length ==> nav.active[i] == Menu.IsActiveFor(nav.hrefs[i], d.activePath))
      ensures panels.Valid() && !panels.filterOpen
      ensures nav.Valid()
    {
      pushed := locationPath != path || historyState != st;
      if pushed {
        locationPath := path;
        historyState := st;
        historyLength := historyLength + 1;
      }
      outcome := HandleRouteChange(panels, nav, present, innerWidth);
    }
  }
}
