/** The catalog query composer (js/systemaprodutos.js): a filter plus the
    router's seller scope become an ordered list of query constraints; the
    fetched documents then pass a client-side conjunctive tag filter the
    remote "contains any" query cannot express; errors are classified into
    distinct messages; seller records are cached. */
module Catalog {
  import opened Common

  // ---------------------------------------------------------------------
  // Filters and constraints
  // ---------------------------------------------------------------------

  /** The upper bound of a price range; `Infinity` for the open "800+" range. */
  datatype PriceMax = Finite(v: real) | Infinity

  /** The `value` of a price filter: `'all'` or `{min, max}`. */
  datatype PriceValue = AllPrices | Range(min: real, max: PriceMax)

  /** The `filterChanged` payloads the storefront dispatches:
      `{type:'price', value}`, `{type:'items', value: [...]}` and the router's
      `{type:'seller', value: id}`. None of these shapes has a
      `value.sellerId`, so the seller scope always comes from the router. */
  datatype Filter = PriceFilter(price: PriceValue) | ItemsFilter(items: seq<string>) | SellerFilter(sellerId: string)

  /** A constraint value as passed to `where`. */
  datatype Value = BoolV(b: bool) | StrV(s: string) | NumV(r: real) | ListV(items: seq<string>)

  /** `where(field, op, value)`, `orderBy(field, dir)` and `limit(n)`. */
  datatype Constraint = Where(field: string, op: string, value: Value) | OrderBy(field: string, dir: string) | Limit(n: nat)

  const PageSize: nat := 50
  const MaxAnyValues: nat := 10

  const AvailableOnly := Where("available", "==", BoolV(true))

  /** `filter.type === 'price' && filter.value && filter.value !== 'all'`. */
  predicate IsPriceFilterActive(f: Filter) {
    f.PriceFilter? && f.price.Range?
  }

  /** `requiredItems`: the requested items of a non-empty items filter. */
  function RequiredItems(f: Filter): (r: Option<seq<string>>)
    ensures r.Some? <==> f.ItemsFilter? && |f.items| > 0
    ensures r.Some? ==> r.value == f.items
  {
    if f.ItemsFilter? && |f.items| > 0 then Some(f.items) else None
  }

  /** `sellerIdToFilter`: the router's current seller id when it is truthy. */
  function SellerToFilter(routerSellerId: Option<string>): (r: Option<string>)
    ensures r.Some? <==> routerSellerId.Some? && Truthy(routerSellerId.value)
    ensures r.Some? ==> r == routerSellerId
  {
    if routerSellerId.Some? && |routerSellerId.value| > 0 then routerSellerId else None
  }

  /** `array.slice(0, n)`. */
  function Take<T>(s: seq<T>, n: nat): (r: seq<T>)
    ensures |r| <= n && |r| <= |s|
    ensures r == s[..|r|]
    ensures |s| <= n ==> r == s
  {
    if |s| <= n then s else s[..n]
  }

  /** The seller-equality constraint, when a seller scope is active. */
  function SellerPart(seller: Option<string>): seq<Constraint> {
    if seller.Some? then [Where("sellerId", "==", StrV(seller.value))] else []
  }

  /** The price bounds (a falsy `min` or `max`, or an infinite `max`, adds no
      bound) followed by the filter's single ordering clause. */
  function FilterPart(f: Filter): seq<Constraint> {
    if IsPriceFilterActive(f) then
      var r := f.price;
      (if r.min != 0.0 then [Where("price", ">=", NumV(r.min))] else []) +
      (if r.max.Finite? && r.max.v != 0.0 then [Where("price", "<=", NumV(r.max.v))] else []) +
      [OrderBy("price", "asc")]
    else if RequiredItems(f).Some? then
      [Where("tags", "array-contains-any", ListV(Take(f.items, MaxAnyValues))), OrderBy("createdAt", "desc")]
    else
      [OrderBy("createdAt", "desc")]
  }

  /** The constraint list of the remote query (js/systemaprodutos.js:46-77). */
  function Constraints(f: Filter, routerSellerId: Option<string>): seq<Constraint> {
    [AvailableOnly] + SellerPart(SellerToFilter(routerSellerId)) + FilterPart(f) + [Limit(PageSize)]
  }

  /** The number of ordering clauses in a constraint list. */
  function CountOrderBy(q: seq<Constraint>): nat {
    if q == [] then 0 else (if q[0].OrderBy? then 1 else 0) + CountOrderBy(q[1..])
  }

  lemma {:induction false} CountOrderByAppend(a: seq<Constraint>, b: seq<Constraint>)
    ensures CountOrderBy(a + b) == CountOrderBy(a) + CountOrderBy(b)
  {
    if a == [] {
      assert a + b == b;
    } else {
      assert (a + b)[0] == a[0];
      assert (a + b)[1..] == a[1..] + b;
      CountOrderByAppend(a[1..], b);
    }
  }

  /** Builds the constraint list by successive pushes, as the source does. */
  method ComposeConstraints(f: Filter, routerSellerId: Option<string>) returns (q: seq<Constraint>)
    ensures q == Constraints(f, routerSellerId)
  {
    var sellerIdToFilter := SellerToFilter(routerSellerId);
    q := [AvailableOnly];
    if sellerIdToFilter.Some? {
      q := q + [Where("sellerId", "==", StrV(sellerIdToFilter.value))];
    }
    assert q == [AvailableOnly] + SellerPart(sellerIdToFilter);
    ghost var prefix := q;
    var requiredItems := RequiredItems(f);
    if IsPriceFilterActive(f) {
      var priceFilter := f.price;
      if priceFilter.min != 0.0 {
        q := q + [Where("price", ">=", NumV(priceFilter.min))];
      }
      if priceFilter.max.Finite? && priceFilter.max.v != 0.0 {
        q := q + [Where("price", "<=", NumV(priceFilter.max.v))];
      }
      q := q + [OrderBy("price", "asc")];
    } else if requiredItems.Some? {
      var limitedItems := Take(requiredItems.value, MaxAnyValues);
      q := q + [Where("tags", "array-contains-any", ListV(limitedItems))];
      q := q + [OrderBy("createdAt", "desc")];
    } else {
      q := q + [OrderBy("createdAt", "desc")];
    }
    assert q == prefix + FilterPart(f);
    q := q + [Limit(PageSize)];
  }

  /** The list always starts with `available == true`, always ends with
      `limit(50)`, and holds exactly one ordering clause. */
  lemma ConstraintsFrame(f: Filter, routerSellerId: Option<string>)
    ensures var q := Constraints(f, routerSellerId);
      |q| >= 3 && q[0] == AvailableOnly && q[|q| - 1] == Limit(PageSize) &&
      CountOrderBy(q) == 1
  {
    var s := SellerPart(SellerToFilter(routerSellerId));
    var p := FilterPart(f);
    CountOrderByAppend([AvailableOnly] + s, p);
    CountOrderByAppend([AvailableOnly], s);
    CountOrderByAppend([AvailableOnly] + s + p, [Limit(PageSize)]);
    if IsPriceFilterActive(f) {
      var r := f.price;
      var lo := if r.min != 0.0 then [Where("price", ">=", NumV(r.min))] else [];
      var hi := if r.max.Finite? && r.max.v != 0.0 then [Where("price", "<=", NumV(r.max.v))] else [];
      CountOrderByAppend(lo + hi, [OrderBy("price", "asc")]);
      CountOrderByAppend(lo, hi);
    } else if RequiredItems(f).Some? {
      CountOrderByAppend([p[0]], [p[1]]);
      assert p == [p[0]] + [p[1]];
    }
  }

  /** A seller-equality constraint is present iff the router's seller id is
      truthy, and then it names exactly that id. */
  lemma SellerConstraintIff(f: Filter, routerSellerId: Option<string>, id: string)
    ensures Where("sellerId", "==", StrV(id)) in Constraints(f, routerSellerId) <==>
            (routerSellerId == Some(id) && Truthy(id))
  {
    var q := Constraints(f, routerSellerId);
    var s := SellerPart(SellerToFilter(routerSellerId));
    var p := FilterPart(f);
    assert q == [AvailableOnly] + s + p + [Limit(PageSize)];
    assert Where("sellerId", "==", StrV(id)) !in p;
  }

  /** A price filter orders by price alone; every other filter orders by
      creation time, newest first. */
  lemma OrderingByFilter(f: Filter, routerSellerId: Option<string>)
    ensures var q := Constraints(f, routerSellerId);
      (OrderBy("price", "asc") in q <==> IsPriceFilterActive(f)) &&
      (OrderBy("createdAt", "desc") in q <==> !IsPriceFilterActive(f))
  {
    var q := Constraints(f, routerSellerId);
    assert q == [AvailableOnly] + SellerPart(SellerToFilter(routerSellerId)) + FilterPart(f) + [Limit(PageSize)];
  }

  /** The price bounds: `>= min` only for a truthy min, `<= max` only for a
      truthy finite max. */
  lemma PriceBounds(min: real, max: PriceMax, routerSellerId: Option<string>)
    ensures var q := Constraints(PriceFilter(Range(min, max)), routerSellerId);
      (Where("price", ">=", NumV(min)) in q <==> min != 0.0) &&
      ((exists v :: Where("price", "<=", NumV(v)) in q) <==> (max.Finite? && max.v != 0.0))
  {
    var f := PriceFilter(Range(min, max));
    var q := Constraints(f, routerSellerId);
    assert q == [AvailableOnly] + SellerPart(SellerToFilter(routerSellerId)) + FilterPart(f) + [Limit(PageSize)];
    if max.Finite? && max.v != 0.0 {
      assert Where("price", "<=", NumV(max.v)) in q;
    }
  }

  /** An items filter asks the store for products holding ANY of the first
      ten requested items. */
  lemma ItemsQuery(items: seq<string>, routerSellerId: Option<string>)
    requires |items| > 0
    ensures var q := Constraints(ItemsFilter(items), routerSellerId);
      Where("tags", "array-contains-any", ListV(Take(items, MaxAnyValues))) in q &&
      |Take(items, MaxAnyValues)| == if |items| <= 10 then |items| else 10
  {
  }

  // ---------------------------------------------------------------------
  // Client-side post-filter
  // ---------------------------------------------------------------------

  /** A fetched product document. `tags` and `sellerId` may be missing. */
  datatype Product = Product(id: string, title: string, tags: Option<seq<string>>, sellerId: Option<string>)

  /** `product.tags || []`. */
  function TagsOf(p: Product): seq<string> {
    p.tags.GetOr([])
  }

  /** The test a fetched product must pass to be rendered
      (js/systemaprodutos.js:99-111). */
  predicate Passes(p: Product, required: Option<seq<string>>, seller: Option<string>) {
    (required.Some? ==> forall item :: item in required.value ==> item in TagsOf(p)) &&
    (seller.Some? ==> p.sellerId == seller)
  }

  /** The products that survive the post-filter, in fetch order. */
  function PostFilter(docs: seq<Product>, required: Option<seq<string>>, seller: Option<string>): seq<Product> {
    if docs == [] then []
    else
      (if Passes(docs[0], required, seller) then [docs[0]] else []) + PostFilter(docs[1..], required, seller)
  }

  /** Superset semantics: a product is rendered iff it was fetched, its tags
      include EVERY requested item (all of them, not only the ten sent to
      the store) and, under a seller scope, it belongs to that seller. */
  lemma {:induction false} PostFilterExact(docs: seq<Product>, required: Option<seq<string>>, seller: Option<string>, p: Product)
    ensures p in PostFilter(docs, required, seller) <==>
      (p in docs &&
       (required.Some? ==> forall item :: item in required.value ==> item in TagsOf(p)) &&
       (seller.Some? ==> p.sellerId == seller))
  {
    if docs != [] {
      PostFilterExact(docs[1..], required, seller, p);
      assert docs == [docs[0]] + docs[1..];
    }
  }

  /** The post-filter keeps fetch order and never adds a product: its result
      is no longer than what was fetched. */
  lemma {:induction false} PostFilterShrinks(docs: seq<Product>, required: Option<seq<string>>, seller: Option<string>)
    ensures |PostFilter(docs, required, seller)| <= |docs|
    ensures required.None? && seller.None? ==> PostFilter(docs, required, seller) == docs
  {
    if docs != [] {
      PostFilterShrinks(docs[1..], required, seller);
      assert docs == [docs[0]] + docs[1..];
    }
  }

  /** A product that the remote "contains any" query returns because it
      holds one requested item, but that lacks another, is not rendered. */
  lemma MissingItemExcluded(docs: seq<Product>, items: seq<string>, seller: Option<string>, p: Product, missing: string)
    requires missing in items && missing !in TagsOf(p)
    ensures p !in PostFilter(docs, Some(items), seller)
  {
    PostFilterExact(docs, Some(items), seller, p);
  }

  // ---------------------------------------------------------------------
  // Seller record cache (getSellerData)
  // ---------------------------------------------------------------------

  datatype SellerData = SellerData(name: string, whatsapp: string)

  const UnknownSeller := SellerData("Vendedor Desconhecido", "")
  const FallbackSeller := SellerData("Vendedor", "")

  /** What reading `users/<id>` gives. */
  datatype SellerLookup = Found(data: SellerData) | Missing | ReadFailed

  class SellerCache {
    var cache: map<string, SellerData>

    constructor ()
      ensures cache == map[]
    {
      cache := map[];
    }

    /** `getSellerData` (js/systemaprodutos.js:150-161). */
    method GetSellerData(sellerId: Option<string>, lookup: SellerLookup) returns (data: SellerData, queried: bool)
      modifies this
      ensures (sellerId.None? || !Truthy(sellerId.value)) ==>
        data == UnknownSeller && !queried && cache == old(cache)
      ensures sellerId.Some? && Truthy(sellerId.value) && sellerId.value in old(cache) ==>
        data == old(cache)[sellerId.value] && !queried && cache == old(cache)
      ensures sellerId.Some? && Truthy(sellerId.value) && sellerId.value !in old(cache) ==>
        queried &&
        (lookup.Found? ==> data == lookup.data && cache == old(cache)[sellerId.value := lookup.data]) &&
        (!lookup.Found? ==> data == FallbackSeller && cache == old(cache))
    {
      queried := false;
      if sellerId.None? || |sellerId.value| == 0 {
        data := UnknownSeller;
        return;
      }
      var id := sellerId.value;
      if id in cache {
        data := cache[id];
        return;
      }
      queried := true;
      match lookup {
        case Found(d) =>
          cache := cache[id := d];
          data := d;
        case Missing =>
          data := FallbackSeller;
        case ReadFailed =>
          data := FallbackSeller;
      }
    }
  }

  // ---------------------------------------------------------------------
  // Errors
  // ---------------------------------------------------------------------

  /** A character of `[^\s)\]]`. */
  predicate LinkChar(c: char) {
    !IsSpace(c) && c != ')' && c != ']'
  }

  /** The length of the `https?://` scheme that starts a match at the head
      of `s`, or 0 when no match starts there (the scheme must be followed
      by at least one link character). */
  function SchemeAt(s: string): (n: nat)
    ensures n == 0 || n == 7 || n == 8
    ensures n > 0 ==> n < |s| && LinkChar(s[n])
  {
    if StartsWith(s, "https://") && |s| > 8 && LinkChar(s[8]) then 8
    else if StartsWith(s, "http://") && |s| > 7 && LinkChar(s[7]) then 7
    else 0
  }

  /** The length of the run of link characters at the head of `s`. */
  function LinkRun(s: string): (n: nat)
    ensures n <= |s|
    ensures forall i :: 0 <= i < n ==> LinkChar(s[i])
    ensures n < |s| ==> !LinkChar(s[n])
  {
    if s != [] && LinkChar(s[0]) then 1 + LinkRun(s[1..]) else 0
  }

  /** The leftmost position at or after `from` where a link starts. */
  function FindLink(s: string, from: nat): (r: Option<nat>)
    requires from <= |s|
    ensures r.Some? ==> from <= r.value < |s| && SchemeAt(s[r.value..]) > 0
    ensures r.Some? ==> forall j :: from <= j < r.value ==> SchemeAt(s[j..]) == 0
    ensures r.None? ==> forall j :: from <= j <= |s| ==> SchemeAt(s[j..]) == 0
    decreases |s| - from
  {
    if from == |s| then None
    else if SchemeAt(s[from..]) > 0 then Some(from)
    else FindLink(s, from + 1)
  }

  /** `msg[i..k]` is the first match of the link pattern: a scheme starts
      at `i` and nowhere before, and the run of link characters after the
      scheme ends at `k`. */
  ghost predicate FirstLinkMatch(msg: string, i: nat, k: nat) {
    i < k <= |msg| && SchemeAt(msg[i..]) > 0 && i + SchemeAt(msg[i..]) <= k &&
    (forall j :: 0 <= j < i ==> SchemeAt(msg[j..]) == 0) &&
    (forall j :: i + SchemeAt(msg[i..]) <= j < k ==> LinkChar(msg[j])) &&
    (k == |msg| || !LinkChar(msg[k]))
  }

  /** Where the match that starts at `i` ends. */
  function LinkEnd(msg: string, i: nat): (k: nat)
    requires i < |msg| && SchemeAt(msg[i..]) > 0
    ensures i + SchemeAt(msg[i..]) < k <= |msg|
    ensures forall j :: i + SchemeAt(msg[i..]) <= j < k ==> LinkChar(msg[j])
    ensures k == |msg| || !LinkChar(msg[k])
  {
    var n := SchemeAt(msg[i..]);
    var run := LinkRun(msg[i + n..]);
    assert msg[i + n..][0] == msg[i..][n];
    assert forall j :: i + n <= j < i + n + run ==> msg[j] == msg[i + n..][j - (i + n)];
    assert i + n + run < |msg| ==> msg[i + n + run] == msg[i + n..][run];
    i + n + run
  }

  /** `extractIndexLink`: the first match of `/https?:\/\/[^\s)\]]+/`, else `'#'`. */
  function ExtractIndexLink(msg: string): (r: string)
    ensures r == "#" <==> forall j :: 0 <= j <= |msg| ==> SchemeAt(msg[j..]) == 0
    ensures r != "#" ==> exists i: nat, k: nat :: FirstLinkMatch(msg, i, k) && r == msg[i..k]
  {
    match FindLink(msg, 0)
    case None => "#"
    case Some(i) =>
      var k := LinkEnd(msg, i);
      assert msg[i..k][0] == msg[i..][0] == 'h';
      assert FirstLinkMatch(msg, i, k);
      msg[i..k]
  }

  /** What the product grid shows after a failed query. */
  datatype ErrorView =
    | MissingIndex(link: string)
    | TooManyItems
    | BadFilterOrdering(detail: string)
    | GenericError(detail: string)

  /** The error branches of `fetchAndRenderProducts`, tried in order
      (js/systemaprodutos.js:129-138). */
  function ClassifyError(message: string): (v: ErrorView)
    ensures Contains(message, "requires an index") ==> v == MissingIndex(ExtractIndexLink(message))
    ensures !Contains(message, "requires an index") && Contains(message, "maximum 10") ==> v == TooManyItems
    ensures (!Contains(message, "requires an index") && !Contains(message, "maximum 10") &&
             Contains(message, "inequality") && Contains(message, "orderBy")) ==> v == BadFilterOrdering(message)
    ensures v.GenericError? <==>
            !Contains(message, "requires an index") && !Contains(message, "maximum 10") &&
            !(Contains(message, "inequality") && Contains(message, "orderBy"))
    ensures v.GenericError? ==> v.detail == OrElse(message, "Erro desconhecido")
  {
    if |message| > 0 && Contains(message, "requires an index") then MissingIndex(ExtractIndexLink(message))
    else if |message| > 0 && Contains(message, "maximum 10") then TooManyItems
    else if |message| > 0 && Contains(message, "inequality") && Contains(message, "orderBy") then BadFilterOrdering(message)
    else GenericError(OrElse(message, "Erro desconhecido"))
  }

  // ---------------------------------------------------------------------
  // fetchAndRenderProducts
  // ---------------------------------------------------------------------

  /** What the query returned: its documents, or the error it threw. */
  datatype FetchOutcome = Docs(docs: seq<Product>) | Threw(message: string)

  /** A rendered card: the product and its seller's record. */
  datatype Card = Card(product: Product, seller: SellerData)

  /** The contents of the product grid when a render finishes. */
  datatype GridView = NoGrid | Cards(cards: seq<Card>) | NoResults | Failed(error: ErrorView)

  const DbNotReady := "Firestore DB não está inicializado."

  /** The seller record the store holds for an id. */
  function LookupIn(store: map<string, SellerData>, id: Option<string>): SellerLookup {
    if id.Some? && id.value in store then Found(store[id.value]) else Missing
  }

  /** One render pass: composes the query, runs it (its result is the
      `outcome` parameter), post-filters with a `for` loop that skips with
      `continue`, enriches each survivor with its seller record through the
      cache, and counts the survivors. */
  method FetchAndRenderProducts(cache: SellerCache, gridPresent: bool, dbReady: bool,
                                f: Filter, routerSellerId: Option<string>,
                                outcome: FetchOutcome, store: map<string, SellerData>)
    returns (query: seq<Constraint>, view: GridView)
    modifies cache
    ensures !gridPresent ==> view == NoGrid
    ensures gridPresent && dbReady ==> query == Constraints(f, routerSellerId)
    ensures gridPresent && !dbReady ==> view == Failed(ClassifyError(DbNotReady))
    ensures gridPresent && dbReady && outcome.Threw? ==> view == Failed(ClassifyError(outcome.message))
    ensures gridPresent && dbReady && outcome.Docs? ==>
      var survivors := PostFilter(outcome.docs, RequiredItems(f), SellerToFilter(routerSellerId));
      (|survivors| == 0 <==> view == NoResults) &&
      (|survivors| > 0 ==>
        view.Cards? && |view.cards| == |survivors| &&
        forall i :: 0 <= i < |survivors| ==> view.cards[i].product == survivors[i])
  {
    query := [];
    if !gridPresent {
      view := NoGrid;
      return;
    }
    var sellerIdToFilter := SellerToFilter(routerSellerId);
    var requiredItems := RequiredItems(f);
    if !dbReady {
      view := Failed(ClassifyError(DbNotReady));
      return;
    }
    query := ComposeConstraints(f, routerSellerId);
    if outcome.Threw? {
      view := Failed(ClassifyError(outcome.message));
      return;
    }
    var cards, finalProductCount := RenderSurvivors(cache, outcome.docs, requiredItems, sellerIdToFilter, store);
    if finalProductCount == 0 {
      view := NoResults;
    } else {
      view := Cards(cards);
    }
  }

  /** The loop of `fetchAndRenderProducts`: a `for` over the fetched
      documents that skips with `continue` the ones missing a required item
      or belonging to another seller, and draws a card for each of the rest
      with its seller record from the cache. The cards are the survivors of
      `PostFilter`, in order. */
  method RenderSurvivors(cache: SellerCache, docs: seq<Product>, requiredItems: Option<seq<string>>,
                         sellerIdToFilter: Option<string>, store: map<string, SellerData>)
    returns (cards: seq<Card>, finalProductCount: nat)
    modifies cache
    ensures finalProductCount == |cards| == |PostFilter(docs, requiredItems, sellerIdToFilter)|
    ensures forall j :: 0 <= j < |cards| ==> cards[j].product == PostFilter(docs, requiredItems, sellerIdToFilter)[j]
  {
    cards := [];
    finalProductCount := 0;
    for i := 0 to |docs|
      invariant |cards| == finalProductCount == |PostFilter(docs[..i], requiredItems, sellerIdToFilter)|
      invariant forall j :: 0 <= j < |cards| ==> cards[j].product == PostFilter(docs[..i], requiredItems, sellerIdToFilter)[j]
    {
      PostFilterSplit(docs, i, requiredItems, sellerIdToFilter);
      var product := docs[i];
      if requiredItems.Some? {
        var productTags := TagsOf(product);
        if !(forall item :: item in requiredItems.value ==> item in productTags) {
          continue;
        }
      }
      if sellerIdToFilter.Some? && product.sellerId != sellerIdToFilter {
        continue;
      }
      finalProductCount := finalProductCount + 1;
      var sellerData, _ := cache.GetSellerData(product.sellerId, LookupIn(store, product.sellerId));
      cards := cards + [Card(product, sellerData)];
    }
    assert docs[..|docs|] == docs;
  }

  /** Filtering distributes over a split of the fetched list; the loop
      above moves one document from the right part to the left. */
  lemma {:induction false} PostFilterAppend(a: seq<Product>, b: seq<Product>, required: Option<seq<string>>, seller: Option<string>)
    ensures PostFilter(a + b, required, seller) == PostFilter(a, required, seller) + PostFilter(b, required, seller)
  {
    if a == [] {
      assert a + b == b;
    } else {
      assert (a + b)[0] == a[0];
      assert (a + b)[1..] == a[1..] + b;
      PostFilterAppend(a[1..], b, required, seller);
    }
  }

  lemma PostFilterSplit(docs: seq<Product>, i: nat, required: Option<seq<string>>, seller: Option<string>)
    requires i < |docs|
    ensures PostFilter(docs[..i + 1], required, seller) ==
            PostFilter(docs[..i], required, seller) + (if Passes(docs[i], required, seller) then [docs[i]] else [])
  {
    assert docs[..i + 1] == docs[..i] + [docs[i]];
    PostFilterAppend(docs[..i], [docs[i]], required, seller);
  }
}
