# zxvendas storefront — a Dafny model

zxvendas is a single-page storefront for game accounts ("contas"). The
browser code routes between the product page, the seller directory, the
channels page and the references page. It composes the Firestore query for
the product grid from the active filter: price range, items or seller. It
also keeps the filter sidebar and the item modal in step. On top of that sit
a seller dashboard, an admin tab, the settings and sign-up modals, and four
Firebase cloud functions that create and delete accounts.

This project models that core, one Dafny module per source file:

| module | source | form |
|---|---|---|
| `Router` | js/router.js | route decision as functions; the module state (`currentPageId`, seller scope, history) as the class `RouterState` |
| `Catalog` | js/systemaprodutos.js | constraint list and post-filter as functions; the composition (`push`) and the render loop as methods; `getSellerData` as the class `SellerCache` |
| `FilterState` | js/systemafiltro.js | `parsePriceRange` as a function; the sidebar/modal state as the class `FilterSidebar` |
| `SellerDirectory` | js/systemavendedores.js | card links as functions; the render flag and the name cache as the class `SellerDirectory` |
| `Menu` | js/systemamenu.js | nav links as the class `NavBar`; user merge, dashboard button and login as functions |
| `Ui` | js/ui.js | side panels and the confirmation slot as the classes `Panels` and `ConfirmModal` |
| `VendorDashboard` | js/systemavendedor.js | price, description and submit validation as functions; forms and the dashboard as classes |
| `Admin` | js/systemaadmin.js | call results as functions; the tab, its flag and the `confirmAction` slot as the class `AdminTab` |
| `Channels` | js/systemacanais.js | rendering as methods; the `hasLoaded` guard and the accordion as classes |
| `Settings` | js/systemasettings.js | prefill and validation as functions; the modal as the class `SettingsModal` |
| `Registration` | js/systemaregistro.js | the submit handler as a function |
| `Functions` | functions/index.js | each handler as a function of the caller, the request and the Admin SDK outcome |
| `Uri`, `TagJson`, `Numbers`, `Common` | — | `encodeURIComponent`/`decodeURIComponent` (ECMA-262, section 19.2.6), `JSON.stringify`/`JSON.parse` of a string array, `parseFloat`, and string helpers (`includes`, `indexOf`, `replace`, `split`, `trim`) |
| `Integration` | — | lemmas that join the pages to the cloud functions |

Firebase calls (Firestore reads and writes, Auth, callables, the Admin SDK)
are not modelled as code. Their outcomes are parameters: a document read
that found data, found nothing or failed; a query that returned documents
or threw; an Admin SDK run that stopped at a given step. The DOM is
reduced to the state the code reads back: panel `is-open` classes, the
overlay, the `active` classes, a form's `data-selected-tags`, and the
visible page.

The router:
- the routes are exactly `/`, `/vendedores`, `/canais` and `/referencias`;
- a `/vendedores/<name>` URL without `history.state.sellerId` shows the seller directory;
- the seller scope of the product query comes from the router's `currentSellerFilterId`, never from `filter.value.sellerId`.

## Model

| member | source | states |
|---|---|---|
| Router.Routes | js/router.js:6-11 | exactly four paths are routed, and only `/` maps to the product page |
| Router.StateSellerId | js/router.js:88 | the state's seller id counts only when the state is an object whose `sellerId` is truthy |
| Router.SellerTail | js/router.js:89 | `path.split('/vendedores/')[1]` is a prefix of the text after the first `/vendedores/`, and all of it when the prefix does not occur again |
| Router.ResolveAsWritten | js/router.js:86-135 | the handler as written throws exactly on a seller path whose tail is not well-formed percent-encoding |
| Router.NameFromUrl | js/router.js:89 | the decoded tail, or the tail itself when it does not decode |
| Router.Resolve | js/router.js:54-135 | a seller scope exists iff the path is a seller path and the state has a truthy id; the scope's name is the state's name, else the decoded tail; no scope means no name and a hidden header; the highlighted link is `/vendedores` for a seller path and the path itself otherwise |
| Router.StateNameWins | js/router.js:86-104 | a seller path followed with id and name in the state shows the products page scoped to that id, titled `Contas de <name>`, and dispatches `sellerSelected` before the seller-typed fetch; as written, that decision is made iff the tail decodes, and the handler throws otherwise |
| Router.ResolveAgreesWhenDecodable | js/router.js:86-135 | whenever the tail decodes, the corrected decision equals the as-written one |
| Router.ClassificationPrecedence | js/router.js:86-126 | the seller prefix is checked first, then the exact-match table, then the product-page fallback |
| Router.FetchesByRoute | js/router.js:104-134 | `/` and unknown paths fetch every product; the other table routes and a seller path without an id fetch nothing; every fetch is the price `all` fetch or the seller fetch of the scope |
| Router.ShownPages | js/router.js:137-146 | at most one page element is shown: the chosen one if it exists, else the product page |
| Router.BlankPageOnMalformedTail | js/router.js:54-89 | as written, `/vendedores/%` leaves no page visible, whatever the state and whichever elements exist |
| Router.NeverBlank | js/router.js:137-146 | with the decoding failure caught, exactly one page is shown whenever the product page element exists |
| Router.RouterState.constructor | js/router.js:13-16 | the module starts with no page, no seller scope and a hidden header |
| Router.RouterState.UpdateFilterFabVisibility | js/router.js:34-49 | with the button present, it shows (`flex`) iff the page is the product page, the viewport is at most 768 wide and the filter panel is closed; the panels are untouched |
| Router.RouterState.HandleRouteChange | js/router.js:54-156 | closes the filter panel, hides every page and resets the scope; it throws iff the as-written decision throws, and then shows no page, fetches nothing and leaves the header and nav links as they were; otherwise the as-written decision becomes the page, scope, header, events, visible pages and nav highlight; the location and history stay as they were |
| Router.RouterState.ApplyDecision | js/router.js:137-155 | a decision becomes the page, scope, header and shown pages; the nav highlight follows `activePath` and the button its visibility rule |
| Router.RouterState.Navigate | js/router.js:164-171 | pushes a history entry iff the path or the state differs, and always re-runs the route change for the new location: a blank page when its tail does not decode, otherwise the decision's page, scope, header, events and nav highlight |
| Catalog.RequiredItems | js/systemaprodutos.js:38 | items are required iff the filter is an items filter with at least one item |
| Catalog.SellerToFilter | js/systemaprodutos.js:32 | the seller scope is the router's id when it is truthy |
| Catalog.Take | js/systemaprodutos.js:67 | `slice(0, n)` is the first `min(n, length)` elements |
| Catalog.ComposeConstraints | js/systemaprodutos.js:46-77 | the successive pushes build exactly the constraint list `Constraints` |
| Catalog.CountOrderByAppend | js/systemaprodutos.js:46-77 | ordering clauses add up over concatenation |
| Catalog.ConstraintsFrame | js/systemaprodutos.js:46-77 | the list starts with `available == true`, ends with `limit(50)` and has exactly one ordering |
| Catalog.SellerConstraintIff | js/systemaprodutos.js:51-53 | a `sellerId ==` constraint is present iff the router's id is truthy, and then it is that id |
| Catalog.OrderingByFilter | js/systemaprodutos.js:59-74 | an active price filter orders by `price asc`; every other filter orders by `createdAt desc` |
| Catalog.PriceBounds | js/systemaprodutos.js:61-62 | `>= min` appears iff min is non-zero; `<= max` appears iff max is non-zero and finite |
| Catalog.ItemsQuery | js/systemaprodutos.js:66-69 | an items filter asks for `array-contains-any` of the first at most ten items, newest first |
| Catalog.PostFilterExact | js/systemaprodutos.js:99-111 | a product is rendered iff it was fetched, its tags (default empty) hold every required item, and its seller equals the scope when there is one |
| Catalog.PostFilterShrinks | js/systemaprodutos.js:90-119 | the post-filter never adds products, and it keeps everything when neither items nor a seller are required |
| Catalog.MissingItemExcluded | js/systemaprodutos.js:99-104 | a product lacking any one required item (even the eleventh) is not rendered |
| Catalog.PostFilterAppend | js/systemaprodutos.js:94-118 | the post-filter distributes over concatenation |
| Catalog.PostFilterSplit | js/systemaprodutos.js:94-118 | one more loop iteration extends the survivors by that document's verdict |
| Catalog.SellerCache.constructor | js/systemaprodutos.js:150 | the cache starts empty |
| Catalog.SellerCache.GetSellerData | js/systemaprodutos.js:150-161 | a falsy id gives `Vendedor Desconhecido` without a read; a cached id gives the cached record without a read; otherwise one read, and only a found document is cached |
| Catalog.SchemeAt | js/systemaprodutos.js:146 | a match can start only where `http://` or `https://` is followed by a link character |
| Catalog.LinkRun | js/systemaprodutos.js:146 | the run of `[^\s)\]]` characters is maximal |
| Catalog.FindLink | js/systemaprodutos.js:146 | the leftmost position where a match starts |
| Catalog.LinkEnd | js/systemaprodutos.js:146 | a greedy match ends at the first character outside `[^\s)\]]` |
| Catalog.ExtractIndexLink | js/systemaprodutos.js:145-148 | `#` iff no match exists; otherwise the leftmost, longest match |
| Catalog.ClassifyError | js/systemaprodutos.js:127-138 | `requires an index` wins (with the extracted link), then `maximum 10`, then `inequality` with `orderBy`, else the generic message with the error text or `Erro desconhecido` |
| Catalog.FetchAndRenderProducts | js/systemaprodutos.js:24-142 | without the grid nothing happens; without the database the error view; otherwise the query is `Constraints`, a thrown error is classified, and the grid shows exactly the post-filter survivors in order, or the "no account" message iff none survive |
| Catalog.RenderSurvivors | js/systemaprodutos.js:90-119 | the loop renders exactly the post-filter survivors in fetch order, and `finalProductCount` is their number |
| FilterState.DashOperands | js/systemafiltro.js:305 | both sides of the first dash must parse; without a dash there are no operands |
| FilterState.ParsePriceRange | js/systemafiltro.js:305 | `all` gives all; `800+` gives 800 to infinity; a dash with two numeric sides gives that range; anything else gives all |
| FilterState.PriceRangeOfDigits | js/systemafiltro.js:305 | `a-b` with digit strings gives the range from the value of `a` to the value of `b` |
| FilterState.Dedup | js/systemafiltro.js:322 | `new Set(xs)` holds each item once, exactly the items of `xs`, in first-occurrence order |
| FilterState.DedupAfter | js/systemafiltro.js:322 | adding items to a duplicate-free prefix keeps it and adds each new item once |
| FilterState.Remove | js/systemafiltro.js:175 | `delete` removes exactly that item and keeps the set duplicate-free; the other items keep their insertion order (the item is cut out at its one position, and a missing item changes nothing) |
| FilterState.FilterSidebar.constructor | js/systemafiltro.js:23-44 | the first price link starts active; the selection is empty; the mode is `filter` |
| FilterState.FilterSidebar.SetActivePriceFilter | js/systemafiltro.js:296-302 | the link becomes the only active price link and the selection and every item button are cleared |
| FilterState.FilterSidebar.ClickPriceLink | js/systemafiltro.js:23-44 | a price click activates the link, clears the items, dispatches its parsed price filter and closes the panel |
| FilterState.FilterSidebar.ToggleItem | js/systemafiltro.js:169-177 | a click flips that item's membership: a new item is appended, a selected one is cut out with the rest kept in order; the mode and the price link stay |
| FilterState.FilterSidebar.OpenForFilter | js/systemafiltro.js:197-205 | the modal opens in `filter` mode with no callback and the selection as it was |
| FilterState.FilterSidebar.OpenForSelection | js/systemafiltro.js:319-330 | the modal opens in `selection` mode with the callback stored and the selection replaced by the initial list without duplicates |
| FilterState.FilterSidebar.Clear | js/systemafiltro.js:252-264 | always empties the selection and hides the modal; in selection mode it hands `[]` to the callback; in filter mode it clicks the first price link, or closes the panel without one |
| FilterState.FilterSidebar.Apply | js/systemafiltro.js:269-288 | in selection mode the callback gets the selection and nothing is dispatched; in filter mode an empty selection acts like the first price link, a non-empty one deactivates the price links and dispatches an items filter |
| FilterState.FilterSidebar.SellerSelected | js/systemafiltro.js:307-314 | the selection is emptied and the first price link becomes the active one |
| FilterState.FilterSidebar.ClearItemSelections | js/systemafiltro.js:335-343 | the selection and every item button are cleared; the price link and mode are kept |
| SellerDirectory.CardName | js/systemavendedores.js:92 | the seller's name when it is non-empty, else `Vendedor Verificado` |
| SellerDirectory.MakeCard | js/systemavendedores.js:88-118 | the href is `/vendedores/` followed by the encoded card name, and the click's state carries the id and that name |
| SellerDirectory.CardLinkRoundTrip | js/systemavendedores.js:94-95 | the router reads the card's own name back from its href, whatever the name (with js/router.js:89) |
| SellerDirectory.CardLinkResolves | js/systemavendedores.js:108-115 | following a card of a seller with an id lands on that seller's products, titled with the card's name, and the route change as written makes that same decision (with js/router.js:86-104) |
| SellerDirectory.NoSlashNoPrefix | js/router.js:89 | a text without `/` never contains `/vendedores/` |
| SellerDirectory.SlugQuery | js/systemavendedores.js:138-143 | the name lookup asks for `name ==`, `role == vendedor` and `limit(1)` |
| SellerDirectory.SellerDirectory.constructor | js/systemavendedores.js:9 | not rendered, empty cache |
| SellerDirectory.SellerDirectory.ResetRenderFlag | js/systemavendedores.js:24-26 | clears the flag and keeps the cache |
| SellerDirectory.SellerDirectory.RenderSellersGallery | js/systemavendedores.js:32-83 | once rendered nothing happens until a reset; without the database a retry is scheduled and the flag stays clear; with it the flag is set and the grid shows the sellers, the empty message or the error |
| SellerDirectory.SellerDirectory.GetSellerIdAndNameBySlug | js/systemavendedores.js:125-167 | a cached name is answered without a query; no database, no match or an error gives null and caches nothing; a match is cached and returned |
| Menu.NavBar.constructor | js/systemamenu.js:205-208 | every nav link starts inactive |
| Menu.NavBar.SetActiveLink | js/systemamenu.js:223-235 | each link is active iff its href is the path, or the path is a seller profile and the href is `/vendedores` |
| Menu.ActiveLinkCases | js/systemamenu.js:229 | the two cases of the rule, and a link without href is never active |
| Menu.FetchUserData | js/systemamenu.js:46-62 | the document's data, or exactly `{role: 'cliente'}` when it is missing or the read fails |
| Menu.MergeUser | js/systemamenu.js:32 | the merged user has every field of both records, the document's winning |
| Menu.UnreadUserIsCustomer | js/systemamenu.js:26-62 | a user whose document could not be read has role `cliente`, whatever the auth record holds |
| Menu.DashboardVisible | js/systemamenu.js:84-97 | the dashboard button shows iff someone is logged in with role `vendedor` or `admin` |
| Menu.DisplayName | js/systemamenu.js:79 | `displayName`, else `name`, else `email` |
| Menu.UpdateUI | js/systemamenu.js:67-103 | logged in or out, the view follows the user, and the user panel and overlay are always closed; the panel invariant holds after it, and the overlay still tracks the panels iff the filter panel is closed |
| Menu.HandleEmailLogin | js/systemamenu.js:158-184 | an empty e-mail or password is refused before any auth call; the three credential codes share one message and every other code gets the generic one |
| Ui.Panels.constructor | js/ui.js:15-21 | both panels closed, overlay hidden; the invariant "at most one open, the user panel with the overlay, the overlay only over an open panel" holds, and the overlay tracks the panels |
| Ui.Panels.CloseFilterPanel | js/ui.js:20 | from any state the invariant admits, including an open filter panel without its overlay: the filter panel closes; the overlay stays iff the user panel is open; the button shows iff it should be visible |
| Ui.Panels.CloseUserPanel | js/ui.js:17 | the user panel closes; the overlay is hidden unless the filter panel is open, and is then left as it was |
| Ui.Panels.OpenUserPanel | js/ui.js:16 | from any state the invariant admits: the filter panel is closed first, then the user panel opens with the overlay |
| Ui.Panels.OpenFilterPanel | js/ui.js:19 | the user panel is closed first, then the filter panel opens with the overlay and the button hidden |
| Ui.Panels.ToggleFilterPanel | js/ui.js:18 | an open filter panel closes, a closed one opens; afterwards the overlay tracks the panels |
| Ui.Panels.CloseAllPanels | js/ui.js:21 | both panels and the overlay close; every panel operation keeps the invariant |
| Ui.ConfirmModal.constructor | js/ui.js:33-46 | no pending action, hidden |
| Ui.ConfirmModal.Show | js/ui.js:49-58 | the action is stored and the modal shown only when its elements exist |
| Ui.ConfirmModal.ConfirmYes | js/ui.js:61-67 | the stored action (if any) runs, the modal hides and the slot is cleared |
| Ui.ConfirmModal.ConfirmNo | js/ui.js:70-73 | the modal hides and the slot is cleared without running |
| VendorDashboard.AgreeWithoutDots | js/systemavendedor.js:184 | the corrected and the as-written price agree on every text without a dot |
| VendorDashboard.DecimalCommaPrice | js/systemavendedor.js:184 | `a,b` with digits reads as `a` plus the cents `0.b`, as written and corrected |
| VendorDashboard.TwoSeparatorsAsWritten | js/systemavendedor.js:184 | as written, `x.y.z,b` reads as `xy` plus `0.z`: the cents and the last group are lost |
| VendorDashboard.TwoSeparatorsCorrected | js/systemavendedor.js:184 | corrected, `x.y.z,b` reads as `xyz` plus `0.b` |
| VendorDashboard.MillionPrice | js/systemavendedor.js:184 | `1.234.567,89` is 1234.567 as written and 1234567.89 corrected |
| VendorDashboard.RemoveAllSpec | js/systemavendedor.js:184 | removing `.` (the corrected reading) removes every dot and keeps every other character as often as it occurs |
| VendorDashboard.RemoveAllCounts | js/systemavendedor.js:184 | every `c` is gone and every other character occurs as often as before |
| VendorDashboard.RemoveAllConcat | js/systemavendedor.js:184 | the removal works piece by piece, so the kept characters stay in order |
| VendorDashboard.GenerateDescription | js/systemavendedor.js:189 | the default sentence for missing or empty tags, else the first at most five tags joined by `, ` |
| VendorDashboard.DescriptionIgnoresLaterTags | js/systemavendedor.js:189 | tags after the fifth never change the description |
| VendorDashboard.DescriptionStartsWithFirstTag | js/systemavendedor.js:189 | the description starts with the first tag, and is that tag alone when there is one |
| VendorDashboard.DisplayOf | js/systemavendedor.js:103-121 | the placeholder iff there are no tags, else one pill per tag in order |
| VendorDashboard.FormTags | js/systemavendedor.js:158 | an empty dataset reads as `[]` |
| VendorDashboard.NewProduct | js/systemavendedor.js:194-205 | no user, unreadable tags, or a missing title, zero price or missing video URL write nothing; otherwise the product is available, belongs to the user's uid and carries the form's fields, with the price read by the source's `parsePrice` |
| VendorDashboard.EditUpdates | js/systemavendedor.js:227-237 | no product id writes nothing; otherwise exactly title, description, price (read by the source's `parsePrice`), video URL and tags |
| VendorDashboard.ResaveCorruptsMillion | js/systemavendedor.js:210-237 | an edit saved with the price text `1.234.567,89` (the form's `pt-BR` prefill of 1234567.89) writes 1234.567, where the corrected reading gives 1234567.89 |
| VendorDashboard.ApplyUpdates | js/systemavendedor.js:232-233 | the five edited fields are replaced |
| VendorDashboard.EditKeepsOwnership | js/systemavendedor.js:232-233 | an edit never changes the seller or the availability |
| VendorDashboard.ProductForm.constructor | js/systemavendedor.js:136 | a new form holds `[]` and shows the placeholder |
| VendorDashboard.ProductForm.OpenAdd | js/systemavendedor.js:130-141 | the add form is reset, its tags read back as `[]`, the placeholder shows and the item modal's selection is cleared |
| VendorDashboard.ProductForm.UpdateFormTags | js/systemavendedor.js:146-152 | the dataset reads back as exactly the new tags, and the pills show them |
| VendorDashboard.ProductForm.OpenItemSelection | js/systemavendedor.js:155-170 | the item modal opens in selection mode with the form's tags iff they parse |
| VendorDashboard.CacheOf | js/systemavendedor.js:83-96 | the cache holds exactly the fetched ids |
| VendorDashboard.CacheOfDistinct | js/systemavendedor.js:89-90 | with distinct ids, each id maps to its own product |
| VendorDashboard.DeleteTitle | js/systemavendedor.js:242-245 | the confirmation names the product's title, or `este produto` |
| VendorDashboard.Dashboard.constructor | js/systemavendedor.js:12-16 | no user, an empty cache, references not loaded |
| VendorDashboard.Dashboard.AuthChanged | js/systemavendedor.js:27-42 | signed in with a document, the user is `{uid, ...document}`; logged out or without a document, no user; a read that throws keeps the previous user; products load iff a read found a seller's document |
| VendorDashboard.Dashboard.LoadVendorProducts | js/systemavendedor.js:82-98 | without a user or list nothing changes; otherwise the cache is emptied and refilled with exactly the fetched products |
| VendorDashboard.Dashboard.HandleEditProduct | js/systemavendedor.js:210-225 | a product missing from the cache is ignored; otherwise the edit form gets its fields and tags |
| VendorDashboard.Dashboard.SubmitAdd | js/systemavendedor.js:194-205 | the submit writes `NewProduct` of the form; the tags reset only when the product is valid and the `addDoc` write succeeded |
| VendorDashboard.Dashboard.ClickTab | js/systemavendedor.js:56-73 | the clicked panel shows; references load on the first click of their tab only |
| Admin.Interpolated | js/systemaadmin.js:102 | a missing field renders as `undefined` inside a template literal |
| Admin.DataNameRead | js/systemaadmin.js:102-113 | the `data-name` read back is the interpolated text up to its first `"`, and all of it when it has none |
| Admin.Row | js/systemaadmin.js:90-107 | the row shows the name and e-mail or their labels; its delete button carries the seller's id, and a `data-name` that is the name itself when it has no `"`, is cut at the first `"` otherwise, and is `undefined` without a name |
| Admin.QuotedNameTruncated | js/systemaadmin.js:102-113 | a seller named `Loja "X"` is offered for deletion as `Loja ` |
| Admin.AddSellerRequest | js/systemaadmin.js:146-151 | the request holds exactly the four form fields |
| Admin.CallError | js/systemaadmin.js:201-223 | a call fails iff it threw or returned without `success` |
| Admin.UnsuccessfulResultExplained | js/systemaadmin.js:163 | a result without `success` fails with its message or `Erro desconhecido` |
| Admin.AddSellerEffect | js/systemaadmin.js:153-171 | a success closes the modal and reloads; a failure shows `Erro: <message>` in the modal |
| Admin.DeleteEffect | js/systemaadmin.js:205-222 | a success reloads the list; a failure shows `Erro: <message>` |
| Admin.AdminTab.constructor | js/systemaadmin.js:6-8 | tab hidden, no listener, not initialised, no pending deletion |
| Admin.AdminTab.ShowAdminTab | js/systemaadmin.js:44-57 | when the button exists it shows and gains one more click listener (each call adds one) |
| Admin.AdminTab.HideAdminTab | js/systemaadmin.js:62-69 | the button and the panel are hidden |
| Admin.AdminTab.AuthChanged | js/systemaadmin.js:23-38 | an admin document shows the tab; logout or a document that is missing or not an admin's hides it; a read that throws leaves it as it was |
| Admin.AdminTab.ClickTab | js/systemaadmin.js:51-56 | the list loads on the first click that reaches a listener, and at most once |
| Admin.AdminTab.LoadSellers | js/systemaadmin.js:74-121 | one row per seller in order, the empty message, or the error message |
| Admin.AdminTab.HandleDeleteSeller | js/systemaadmin.js:186-196 | the pending deletion is bound to that seller's id and the modal shown |
| Admin.AdminTab.ConfirmYes | js/systemaadmin.js:228-234 | a pending deletion hides the modal and sends `{uid}` for that seller; the slot is cleared either way |
| Admin.AdminTab.ConfirmNo | js/systemaadmin.js:236-239 | the slot is cleared without running and the modal hidden |
| Admin.LoadOnce | js/systemaadmin.js:51-56 | for an admin, the first click loads the list and the second does not |
| Channels.MainButton | js/systemacanais.js:110-120 | each present, non-empty field is used and each missing or empty one takes its fallback (`#`, `fas fa-link`, `Link`); the class is `channel-button ` followed by the link's class, or by nothing |
| Channels.WhatsappLink | js/systemacanais.js:141-155 | a group link uses its non-empty url and name, and falls back to `#` and `Grupo WhatsApp` |
| Channels.RenderMainChannels | js/systemacanais.js:110-120 | one button per link, in order |
| Channels.RenderGrid | js/systemacanais.js:141-158 | the "empty group" message iff there are no links, else one link each in order |
| Channels.RenderFranchiseAccordion | js/systemacanais.js:125-162 | one item per franchise in order, headed by its name or `Grupo`, holding the message iff it has no links and otherwise one WhatsApp link per link in order |
| Channels.ChannelPage.constructor | js/systemacanais.js:4 | not loaded, nothing rendered |
| Channels.ChannelPage.StartLoad | js/systemacanais.js:54-70 | a load starts iff the flag was clear and both containers exist; the flag is set either way |
| Channels.ChannelPage.FinishLoad | js/systemacanais.js:71-105 | a failure shows both errors and clears the flag; data renders one button per `main` link (or the "none" message iff there is none) and one accordion item per franchise with its header and grid, the accordion being empty iff there are no franchises |
| Channels.RetryAfterFailure | js/systemacanais.js:56-104 | a second call loads again iff the first one failed |
| Channels.Accordion.constructor | js/systemacanais.js:125-162 | every group starts closed |
| Channels.Accordion.Click | js/systemacanais.js:168-202 | every other group closes, the clicked one toggles between collapsed and `scrollHeight`, and at most one stays open |
| Settings.Prefill | js/systemasettings.js:60-68 | name: the document's `name`, else `displayName`, else empty; phone: `phone`, else `whatsapp`, else empty; no document gives `displayName` and an empty phone |
| Settings.SettingsUpdate | js/systemasettings.js:89-105 | refused iff a trimmed field is empty; otherwise exactly `{name, phone}` trimmed |
| Settings.SaveKeepsOtherFields | js/systemasettings.js:102-107 | a save (`updateDoc`, which overwrites the given fields as `Menu.MergeUser` does) changes only `name` and `phone` |
| Settings.PrefillSaveRoundTrip | js/systemasettings.js:63-105 | saving an untouched prefill writes the document's own name and phone back |
| Settings.WhatsappBecomesPhone | js/systemasettings.js:64-105 | a seller's first save copies `whatsapp` into `phone` |
| Settings.SettingsModal.constructor | js/systemasettings.js:7-16 | no user, hidden, empty feedback |
| Settings.SettingsModal.Open | js/systemasettings.js:50-81 | the user is stored before the read; a finished read prefills, clears the feedback and shows the modal; a failed read changes nothing else |
| Settings.SettingsModal.Save | js/systemasettings.js:85-122 | no user, nothing; blank fields give the error feedback and no write; otherwise the trimmed pair is written to that user's document, and only a success closes the modal |
| Settings.SaveAfterOpen | js/systemasettings.js:50-122 | after an open, a save is never ignored and writes only to the opened user's document |
| Settings.HandlePasswordReset | js/systemasettings.js:125-149 | refused iff there is no user or no e-mail; otherwise the reset goes to that address, the modal first says it is sending, then names the address or reports the failure |
| Registration.FirstFailure | js/systemaregistro.js:67-75 | the checks run in order and the first failure's message is the one reported; the password length counts UTF-16 code units |
| Registration.AstralPasswordLength | js/systemaregistro.js:70 | three characters beyond U+FFFF have length 6 and pass the length check |
| Registration.RequestData | js/systemaregistro.js:57-62 | the request holds exactly the four form fields |
| Registration.Rewrite | js/systemaregistro.js:98-101 | a message mentioning `auth/email-already-in-use` becomes `Este e-mail já está em uso.`; others are kept |
| Registration.HandleRegisterSubmit | js/systemaregistro.js:51-106 | the callable is called iff every check passes; the modal hides iff it returns `success`, and then the same e-mail and password are signed in; the feedback is an error unless that sign-in succeeds |
| Registration.CheckMessagesKept | js/systemaregistro.js:67-101 | the three check messages reach the user unchanged |
| Registration.NoCodeIn | js/systemaregistro.js:99 | a text without `/` never holds the rewritten code |
| Functions.CreateError | functions/index.js:38-43 | `auth/email-already-exists` becomes `already-exists` with the Portuguese message; every other error becomes `internal` with the error's message or text |
| Functions.CreateAccount | functions/index.js:12-84 | a missing field gives `invalid-argument` and no write; success iff every Admin SDK step succeeds, and then the user, the claims and the document are written and `{success, uid}` returned |
| Functions.CreateClientUser | functions/index.js:11-44 | open to anyone: the shared creation with `phone` and role `cliente` |
| Functions.CreateSeller | functions/index.js:46-84 | a non-admin caller is refused with `permission-denied` before any argument check, and nothing is written |
| Functions.CreatedRoleAgrees | functions/index.js:71-75 | the role in the claims equals the role in the document |
| Functions.AssignedRoles | functions/index.js:31-75 | customers get `cliente`, sellers get `vendedor`, in every write |
| Functions.CreationWritesInOrder | functions/index.js:23-77 | the writes are a prefix of user, claims, document, cut where the Admin SDK failed |
| Functions.DeleteSeller | functions/index.js:86-110 | admin check first, then the `uid`; success iff both deletions succeed, and every failure is `internal` |
| Functions.RejectedCallsWriteNothing | functions/index.js:14-97 | a refused or malformed call of any handler writes nothing |
| Functions.UpdateSellerLastProductTimestamp | functions/index.js:115-151 | no snapshot or no `sellerId` gives null and no write; otherwise the product's `createdAt` (or now) is written, or the failure is returned |
| Functions.Delivered | functions/index.js:37-43 | a response reaches the page as a returned `success`, a thrown error as its message |
| Integration.RegistrationPassesBackendCheck | js/systemaregistro.js:57-79 | a form that passes the page's checks is never refused for a missing field, and the new document holds the form's name, e-mail and phone (with functions/index.js:11-44) |
| Integration.EmailTakenReachesUser | functions/index.js:39-40 | a taken address reaches the user as `Este e-mail já está em uso.`, the modal stays open and nothing is signed in (with js/systemaregistro.js:96-102) |
| Integration.AddSellerPassesBackendCheck | js/systemaadmin.js:146-161 | a full add-seller form succeeds iff the Admin SDK does, with role `vendedor` and the WhatsApp number, and the list reloads iff so (with functions/index.js:46-84) |
| Integration.EmptySellerFieldShown | js/systemaadmin.js:166-168 | an empty field is refused with nothing written, and the modal shows `Erro: ` and the refusal (with functions/index.js:53-57) |
| Integration.ConfirmedDeleteRemovesSeller | js/systemaadmin.js:201-215 | the confirmed request removes exactly that account and its document, and the list reloads iff so (with functions/index.js:86-106) |
| Uri.Encode | js/systemavendedores.js:94 | `encodeURIComponent`: unreserved characters stay, every other one becomes its UTF-8 octets as `%XX` |
| Uri.Decode | js/router.js:89 | `decodeURIComponent`: a well-formed escape decodes, anything else throws |
| Uri.DecodeEncode | js/systemavendedores.js:94-94 | decoding what was encoded gives the text back, for every string (with js/router.js:89) |
| Uri.EncodeHasNoSlash | js/systemavendedores.js:94-95 | an encoded name never contains `/`, so it stays one path segment |
| Uri.MalformedEscapeThrows | js/router.js:89 | a `%` not followed by two hex digits throws |
| Uri.Utf8RoundTrip | js/router.js:89 | the UTF-8 octets of a character decode back to it |
| TagJson.Stringify | js/systemavendedor.js:149 | `JSON.stringify` of a string array is a bracketed, comma-separated list of quoted strings |
| TagJson.ParseTags | js/systemavendedor.js:158-167 | `JSON.parse` of such a text, or none when it is not one |
| TagJson.StringifyParse | js/systemavendedor.js:149-158 | parsing the stored tags gives back exactly the tags the callback stored |
| Numbers.ParseFloat | js/systemafiltro.js:305-305 | `parseFloat`: the longest decimal prefix after white space and a sign, or NaN (with js/systemavendedor.js:184) |
| Numbers.ParseDigits | js/systemafiltro.js:305 | a digit string parses to the number it spells |
| Numbers.ParseDecimal | js/systemavendedor.js:184 | `a.b` parses to `a` plus `0.b`, whatever follows a non-digit |
| Numbers.ParseStopsAtSeparator | js/systemavendedor.js:184 | text after the first non-number character is ignored |
| Common.IndexOf | js/systemaprodutos.js:129 | `indexOf`: the first position of the pattern, or -1 when it has none |
| Common.ContainsIndexOf | js/systemaregistro.js:99 | `includes` holds iff `indexOf` finds the pattern |
| Common.ReplaceFirst | js/systemavendedor.js:184 | `replace` with a string pattern changes only the first occurrence |
| Common.Split | js/router.js:89 | `split` gives the text before the first separator, then the text after it |
| Common.Trim | js/systemasettings.js:89-90 | `trim` drops leading and trailing white space and nothing else: the result is a contiguous slice with only white space outside it |
| Common.Utf16Length | js/systemaregistro.js:70 | `.length` counts between one and two code units per character, one for each when none lies beyond U+FFFF |

## Left out

- Firebase itself (Firestore, Auth, Storage, callables, the Admin SDK) is not part of this model. Each call's outcome is a parameter, and the remote query engine is reduced to the constraint list it receives.
- DOM markup is reduced to the state the code reads back. This covers product, seller and reference cards, toasts, the loading overlay and the confirmation question's sentence.
- Video embedding (`getYouTubeEmbedUrl`) relies on the `URL` class and is not part of this model.
- Reference uploads and deletions, and their storage-path extraction with `new URL`, are not part of this model. The references tab's first-click flag is modelled.
- The seller profile form and its profile-picture preview in js/systemavendedor.js are not part of this model.
- js/systemareferencias.js, js/app.js and js/firebase-config.js are not part of this model. They are a load flag around a fetch, module wiring and configuration.
- Async effects are not modelled: a stale fetch overwriting a newer one, the `setTimeout` retry of the seller gallery (modelled as a `retry` flag), `MutationObserver` triggers, `popstate` and `DOMContentLoaded` wiring.
- The second `confirm-yes-btn` listener that js/systemaadmin.js adds beside the one in js/ui.js is not modelled. The two slots are modelled separately.
- Numbers.ParseFloat: works on exact decimals (`real`), not IEEE doubles. It has no exponents, `Infinity` or rounding. Prices are compared exactly.
- `toLocaleString` currency formatting is not modelled.
- TagJson.ParseTags: reads only arrays of strings written without white space. Those are the only texts the form stores. Any other JSON is reported as unreadable, where `JSON.parse` might accept it.
- A failed Firestore write is modelled as writing nothing. This covers the settings save, the product add (`addDoc`) and the trigger's update.
- SellerDirectory.SellerDirectory.GetSellerIdAndNameBySlug: the name cache is a map. The source's cache is a plain object (js/systemavendedores.js:10, 127), so a name such as `constructor` or `__proto__` hits an inherited member and is answered without a query. That case is not modelled.
- SellerDirectory.CardLinkResolves: holds of the location as the model keeps it. The browser removes dot segments from `location.pathname`, so a seller named `.` or `..` lands on `/vendedores` or `/` instead. Dot-segment removal is not modelled.
- Router.RouterState.Navigate: the new location is the given path as it is, without the URL parser's dot-segment removal or percent-encoding of other characters.
- Admin.Row: the markup parse is modelled only for the `"` that ends the `data-name` attribute. For names holding `&` the contract does not say what `data-name` reads back, since character references are not decoded. Names holding markup (`<`) are taken as the text shown, but the browser would parse them as elements.
- Channels.Accordion.Click: assumes every header has its content element, so the `if (content)` check in js/systemacanais.js:191 is not modelled.
- Router.RouterState.ApplyDecision: the seller header and its title are assumed present. The `if (sellerProductsHeader)` and `if (sellerProductsTitle)` guards of js/router.js:97-98, :111, :120 and :130 are not modelled.
- Ui.Panels: the panels, the overlay and the filter button are assumed present. The functions' early exits when an element is missing are not modelled.
- Menu.HandleEmailLogin: the toast texts are modelled, but the auth call itself is an outcome parameter.

## Findings

| source | as written | input that shows it | evidently intended | confidence | as-written member | corrected member |
|---|---|---|---|---|---|---|
| js/router.js:89 | `decodeURIComponent` of the URL tail runs on every seller path, unguarded, after every page was hidden (js/router.js:61), even when the state's name makes it unnecessary | the path `/vendedores/%` with any state | a malformed tail falls back to the tail text and some page is shown, as the `products-page` fallback at js/router.js:137-146 intends | not executed | Router.BlankPageOnMalformedTail | Router.NeverBlank |
| js/systemavendedor.js:184 | `replace('.', '')` drops only the first thousands separator, so `parseFloat` stops at the second one | the price `1.234.567,89` is stored as 1234.567 | every thousands separator is dropped, giving 1234567.89 | not executed | VendorDashboard.ResaveCorruptsMillion | VendorDashboard.TwoSeparatorsCorrected |
