/** The seller directory (js/systemavendedores.js): the `/vendedores`
    gallery, rendered once until its flag is reset, the links its cards
    carry into the router, and the name-to-seller lookup with its cache. */
module SellerDirectory {
  import opened Common
  import Uri
  import Catalog
  import Menu
  import Router

  // ---------------------------------------------------------------------
  // Seller cards and their links
  // ---------------------------------------------------------------------

  const DefaultSellerName := "Vendedor Verificado"

  /** A `users` document with role `vendedor`, as the gallery reads it. */
  datatype SellerDoc = SellerDoc(id: string, name: Option<string>)

  /** `seller.name || 'Vendedor Verificado'`. */
  function CardName(name: Option<string>): (r: string)
    ensures Truthy(r)
    ensures name.Some? && Truthy(name.value) ==> r == name.value
    ensures !(name.Some? && Truthy(name.value)) ==> r == DefaultSellerName
  {
    if name.Some? && |name.value| > 0 then name.value else DefaultSellerName
  }

  /** A seller card: its `href` and the history state its click navigates with. */
  datatype SellerCard = SellerCard(href: string, state: Router.HistoryState)

  /** `createSellerCard`: `/vendedores/` + `encodeURIComponent(name)`, and the
      state `{sellerId, sellerName}`. */
  function MakeCard(doc: SellerDoc): (c: SellerCard)
    ensures StartsWith(c.href, Menu.SellerProfilePrefix)
    ensures c.href[|Menu.SellerProfilePrefix|..] == Uri.Encode(CardName(doc.name))
    ensures c.state == Router.StateBag(Some(doc.id), Some(CardName(doc.name)))
  {
    var href := Menu.SellerProfilePrefix + Uri.Encode(CardName(doc.name));
    assert href[..|Menu.SellerProfilePrefix|] == Menu.SellerProfilePrefix;
    SellerCard(href, Router.StateBag(Some(doc.id), Some(CardName(doc.name))))
  }

  /** The name the router reads back from a card's URL is the card's name:
      the link survives `decodeURIComponent`, so the source's decoding
      never throws on it. */
  lemma CardLinkRoundTrip(doc: SellerDoc)
    ensures var c := MakeCard(doc);
      Router.IsSellerPath(c.href) &&
      Router.SellerTail(c.href) == Uri.Encode(CardName(doc.name)) &&
      Router.NameFromUrl(c.href) == CardName(doc.name) &&
      Router.ResolveAsWritten(c.href, c.state).Ok?
  {
    var c := MakeCard(doc);
    var tail := Uri.Encode(CardName(doc.name));
    Uri.EncodeHasNoSlash(CardName(doc.name));
    NoSlashNoPrefix(tail);
    assert Router.SellerTail(c.href) == tail;
    Uri.DecodeEncode(CardName(doc.name));
  }

  /** Following a card of a seller with an id lands on that seller's
      product page with the card's name in the header, and the route change
      as written makes that same decision. */
  lemma CardLinkResolves(doc: SellerDoc)
    requires Truthy(doc.id)
    ensures var c := MakeCard(doc); var d := Router.Resolve(c.href, c.state);
      Router.ResolveAsWritten(c.href, c.state) == Ok(d) &&
      d.page == Router.ProductsPage && d.sellerId == Some(doc.id) && d.sellerName == Some(CardName(doc.name)) &&
      d.header == Router.HeaderShown("Contas de " + CardName(doc.name)) &&
      d.events == [Router.SellerSelected(doc.id), Router.FetchProducts(Catalog.SellerFilter(doc.id))]
  {
    var c := MakeCard(doc);
    CardLinkRoundTrip(doc);
    Router.StateNameWins(c.href, doc.id, CardName(doc.name));
  }

  /** Text without a `/` holds no `/vendedores/`. */
  lemma NoSlashNoPrefix(t: string)
    requires forall i :: 0 <= i < |t| ==> t[i] != '/'
    ensures !Contains(t, Menu.SellerProfilePrefix)
  {
    forall i | 0 <= i <= |t| - |Menu.SellerProfilePrefix|
      ensures !StartsWith(t[i..], Menu.SellerProfilePrefix)
    {
      assert t[i..][0] == t[i];
    }
  }

  /** The lookup query for a name taken from a URL. */
  function SlugQuery(nameFromSlug: string): (q: seq<Catalog.Constraint>)
    ensures Catalog.Where("name", "==", Catalog.StrV(nameFromSlug)) in q
    ensures Catalog.Where("role", "==", Catalog.StrV("vendedor")) in q
    ensures Catalog.Limit(1) in q
  {
    [Catalog.Where("name", "==", Catalog.StrV(nameFromSlug)),
     Catalog.Where("role", "==", Catalog.StrV("vendedor")),
     Catalog.Limit(1)]
  }

  /** What the gallery query returned. */
  datatype GalleryFetch = Sellers(docs: seq<SellerDoc>) | GalleryFailed

  /** The contents of `#sellers-grid` after a call. */
  datatype GalleryView =
    | Untouched                    // already rendered, or no grid
    | Initializing                 // `db` not ready; a retry is scheduled
    | NoSellers
    | Gallery(cards: seq<SellerCard>)
    | LoadFailed

  /** What the name lookup found: the first match's id and `name` field. */
  datatype SlugLookup = SlugFound(id: string, name: Option<string>) | SlugEmpty | SlugFailed

  /** `{sellerId, sellerName}`. */
  datatype SellerMatch = SellerMatch(sellerId: string, sellerName: Option<string>)

  class SellerDirectory {
    /** `hasRendered`. */
    var hasRendered: bool
    /** `sellerNameCache`, keyed by the name taken from the URL. */
    var sellerNameCache: map<string, SellerMatch>

    constructor ()
      ensures !hasRendered && sellerNameCache == map[]
    {
      hasRendered := false;
      sellerNameCache := map[];
    }

    /** `resetRenderFlag`. */
    method ResetRenderFlag()
      modifies this
      ensures !hasRendered && sellerNameCache == old(sellerNameCache)
    {
      hasRendered := false;
    }

    /** `renderSellersGallery`: once rendered, a call does nothing until the
        flag is reset; without a grid nothing happens; while `db` is not
        ready the grid says so and a retry is scheduled WITHOUT setting the
        flag; otherwise the flag is set before the query runs, and the grid
        shows one card per seller in query order. */
    method RenderSellersGallery(gridPresent: bool, dbReady: bool, fetched: GalleryFetch)
      returns (view: GalleryView, retry: bool)
      modifies this
      ensures sellerNameCache == old(sellerNameCache)
      ensures retry <==> !old(hasRendered) && gridPresent && !dbReady
      ensures old(hasRendered) || !gridPresent ==> view == Untouched && hasRendered == old(hasRendered)
      ensures !old(hasRendered) && gridPresent && !dbReady ==> view == Initializing && !hasRendered
      ensures !old(hasRendered) && gridPresent && dbReady ==> hasRendered
      ensures !old(hasRendered) && gridPresent && dbReady && fetched.GalleryFailed? ==> view == LoadFailed
      ensures !old(hasRendered) && gridPresent && dbReady && fetched.Sellers? ==>
        (fetched.docs == [] ==> view == NoSellers) &&
        (fetched.docs != [] ==>
          view.Gallery? && |view.cards| == |fetched.docs| &&
          forall i :: 0 <= i < |fetched.docs| ==> view.cards[i] == MakeCard(fetched.docs[i]))
    {
      retry := false;
      if hasRendered || !gridPresent {
        view := Untouched;
        return;
      }
      if !dbReady {
        view := Initializing;
        retry := true;
        return;
      }
      hasRendered := true;
      match fetched {
        case GalleryFailed =>
          view := LoadFailed;
        case Sellers(docs) =>
          if docs == [] {
            view := NoSellers;
            return;
          }
          var cards: seq<SellerCard> := [];
          for i := 0 to |docs|
            invariant |cards| == i
            invariant forall j :: 0 <= j < i ==> cards[j] == MakeCard(docs[j])
          {
            cards := cards + [MakeCard(docs[i])];
          }
          view := Gallery(cards);
      }
    }

    /** `getSellerIdAndNameBySlug`: a cached name is answered without a
        query; without `db` the answer is null; otherwise the store is asked
        and only a hit is cached, so a miss or a failure is asked again next
        time. */
    method GetSellerIdAndNameBySlug(nameFromSlug: string, dbReady: bool, lookup: SlugLookup)
      returns (r: Option<SellerMatch>, query: Option<seq<Catalog.Constraint>>)
      modifies this
      ensures hasRendered == old(hasRendered)
      ensures nameFromSlug in old(sellerNameCache) ==>
        r == Some(old(sellerNameCache)[nameFromSlug]) && query.None? && sellerNameCache == old(sellerNameCache)
      ensures nameFromSlug !in old(sellerNameCache) && !dbReady ==>
        r.None? && query.None? && sellerNameCache == old(sellerNameCache)
      ensures nameFromSlug !in old(sellerNameCache) && dbReady ==>
        query == Some(SlugQuery(nameFromSlug)) &&
        (lookup.SlugFound? ==>
          r == Some(SellerMatch(lookup.id, lookup.name)) &&
          sellerNameCache == old(sellerNameCache)[nameFromSlug := r.value]) &&
        (!lookup.SlugFound? ==> r.None? && sellerNameCache == old(sellerNameCache))
    {
      query := None;
      if nameFromSlug in sellerNameCache {
        r := Some(sellerNameCache[nameFromSlug]);
        return;
      }
      if !dbReady {
        r := None;
        return;
      }
      query := Some(SlugQuery(nameFromSlug));
      match lookup {
        case SlugEmpty =>
          r := None;
        case SlugFailed =>
          r := None;
        case SlugFound(id, name) =>
          var result := SellerMatch(id, name);
          sellerNameCache := sellerNameCache[nameFromSlug := result];
          r := Some(result);
      }
    }
  }
}
