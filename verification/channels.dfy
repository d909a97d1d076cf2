/** The channels page (js/systemacanais.js): a load guarded by `hasLoaded`,
    set before the fetch starts and cleared again only by a failure; the
    rendering of the main channel buttons and the franchise groups with
    their fallbacks; and the accordion, which keeps at most one group open. */
module Channels {
  import opened Common

  // ---------------------------------------------------------------------
  // channels.json and what is rendered from it
  // ---------------------------------------------------------------------

  /** A link of `main` or of a franchise: every field may be missing. */
  datatype Link = Link(url: Option<string>, cls: Option<string>, icon: Option<string>, name: Option<string>)

  datatype Franchise = Franchise(name: Option<string>, links: Option<seq<Link>>)

  /** The parsed file: `main` and `franchises` may be missing. */
  datatype ChannelData = ChannelData(main: Option<seq<Link>>, franchises: Option<seq<Franchise>>)

  /** The fetch: the parsed data, or a failure (network error, a status
      that is not ok, or a body that is not JSON). */
  datatype ChannelFetch = Fetched(data: ChannelData) | FetchFailed

  const NoUrl := "#"
  const DefaultIcon := "fas fa-link"
  const DefaultLinkName := "Link"
  const DefaultGroupName := "Grupo"
  const DefaultWhatsappName := "Grupo WhatsApp"
  const ButtonClass := "channel-button "

  /** A main channel button: `href`, `className`, icon class and text. */
  datatype ChannelButton = ChannelButton(href: string, className: string, icon: string, text: string)

  /** A WhatsApp link inside a franchise group. */
  datatype GroupLink = GroupLink(href: string, text: string)

  /** The grid of a group: its links, or the "no group" message. */
  datatype Grid = Links(links: seq<GroupLink>) | EmptyGroup

  /** An accordion item: the header's text and the grid under it. */
  datatype AccordionItem = AccordionItem(header: string, grid: Grid)

  /** A main button never has an empty address, icon or text: each missing
      or empty field takes its fallback. */
  function MainButton(link: Link): (b: ChannelButton)
    ensures Truthy(b.href) && Truthy(b.icon) && Truthy(b.text)
    ensures link.url.Some? && Truthy(link.url.value) ==> b.href == link.url.value
    ensures !(link.url.Some? && Truthy(link.url.value)) ==> b.href == NoUrl
    ensures link.icon.Some? && Truthy(link.icon.value) ==> b.icon == link.icon.value
    ensures !(link.icon.Some? && Truthy(link.icon.value)) ==> b.icon == DefaultIcon
    ensures link.name.Some? && Truthy(link.name.value) ==> b.text == link.name.value
    ensures !(link.name.Some? && Truthy(link.name.value)) ==> b.text == DefaultLinkName
    ensures StartsWith(b.className, ButtonClass)
    ensures b.className[|ButtonClass|..] == if link.cls.Some? then link.cls.value else ""
  {
    var className := ButtonClass + OptOr(link.cls, "");
    assert className[..|ButtonClass|] == ButtonClass;
    ChannelButton(OptOr(link.url, NoUrl), className, OptOr(link.icon, DefaultIcon), OptOr(link.name, DefaultLinkName))
  }

  function WhatsappLink(link: Link): (g: GroupLink)
    ensures Truthy(g.href) && Truthy(g.text)
    ensures link.url.Some? && Truthy(link.url.value) ==> g.href == link.url.value
    ensures !(link.url.Some? && Truthy(link.url.value)) ==> g.href == NoUrl
    ensures link.name.Some? && Truthy(link.name.value) ==> g.text == link.name.value
    ensures !(link.name.Some? && Truthy(link.name.value)) ==> g.text == DefaultWhatsappName
  {
    GroupLink(OptOr(link.url, NoUrl), OptOr(link.name, DefaultWhatsappName))
  }

  /** `renderMainChannels`: one button per link, in order. */
  method RenderMainChannels(links: seq<Link>) returns (buttons: seq<ChannelButton>)
    ensures |buttons| == |links|
    ensures forall i :: 0 <= i < |links| ==> buttons[i] == MainButton(links[i])
  {
    buttons := [];
    for i := 0 to |links|
      invariant |buttons| == i
      invariant forall j :: 0 <= j < i ==> buttons[j] == MainButton(links[j])
    {
      buttons := buttons + [MainButton(links[i])];
    }
  }

  /** A grid shows a franchise's links: the message when it has none,
      otherwise one WhatsApp link per link, in order. */
  predicate GridShows(grid: Grid, links: Option<seq<Link>>) {
    (grid == EmptyGroup <==> links.None? || links.value == []) &&
    (grid.Links? ==>
       |grid.links| == |links.value| &&
       forall i :: 0 <= i < |links.value| ==> grid.links[i] == WhatsappLink(links.value[i]))
  }

  /** The grid of one franchise: its links in order, or the message when it
      has none. */
  method RenderGrid(links: Option<seq<Link>>) returns (grid: Grid)
    ensures grid == EmptyGroup <==> links.None? || links.value == []
    ensures grid.Links? ==>
      |grid.links| == |links.value| &&
      forall i :: 0 <= i < |links.value| ==> grid.links[i] == WhatsappLink(links.value[i])
  {
    if links.None? || |links.value| == 0 {
      return EmptyGroup;
    }
    var ls := links.value;
    var out: seq<GroupLink> := [];
    for i := 0 to |ls|
      invariant |out| == i
      invariant forall j :: 0 <= j < i ==> out[j] == WhatsappLink(ls[j])
    {
      out := out + [WhatsappLink(ls[i])];
    }
    grid := Links(out);
  }

  /** `renderFranchiseAccordion`: one item per franchise, in order, headed
      by its name or `Grupo`. */
  method RenderFranchiseAccordion(franchises: seq<Franchise>) returns (items: seq<AccordionItem>)
    ensures |items| == |franchises|
    ensures forall i :: 0 <= i < |franchises| ==>
      items[i].header == OptOr(franchises[i].name, DefaultGroupName) && GridShows(items[i].grid, franchises[i].links)
  {
    items := [];
    for i := 0 to |franchises|
      invariant |items| == i
      invariant forall j :: 0 <= j < i ==>
        items[j].header == OptOr(franchises[j].name, DefaultGroupName) && GridShows(items[j].grid, franchises[j].links)
    {
      var grid := RenderGrid(franchises[i].links);
      items := items + [AccordionItem(OptOr(franchises[i].name, DefaultGroupName), grid)];
    }
  }

  // ---------------------------------------------------------------------
  // The load
  // ---------------------------------------------------------------------

  /** The contents of `.main-channels`. */
  datatype MainView = MainUntouched | MainLoading | MainButtons(buttons: seq<ChannelButton>) | NoMainChannels | MainError

  /** The contents of `.accordion`. */
  datatype AccordionView = AccordionUntouched | AccordionItems(items: seq<AccordionItem>) | AccordionError

  class ChannelPage {
    /** Both `.main-channels` and `.accordion` exist. */
    const containersPresent: bool
    var hasLoaded: bool
    var main: MainView
    var accordion: AccordionView

    constructor (containersPresent: bool)
      ensures this.containersPresent == containersPresent
      ensures !hasLoaded && main == MainUntouched && accordion == AccordionUntouched
    {
      this.containersPresent := containersPresent;
      hasLoaded, main, accordion := false, MainUntouched, AccordionUntouched;
    }

    /** The synchronous part of `loadChannelData`: nothing when the flag is
        set; otherwise the flag is set at once, so a second call while the
        fetch is under way does nothing, and the fetch starts when both
        containers exist. Without them the flag stays set. */
    method StartLoad() returns (fetching: bool)
      modifies this
      ensures fetching <==> !old(hasLoaded) && containersPresent
      ensures hasLoaded
      ensures old(hasLoaded) || !containersPresent ==> main == old(main) && accordion == old(accordion)
      ensures fetching ==> main == MainLoading && accordion == AccordionItems([])
    {
      if hasLoaded {
        return false;
      }
      hasLoaded := true;
      if !containersPresent {
        return false;
      }
      main := MainLoading;
      accordion := AccordionItems([]);
      fetching := true;
    }

    /** The rest of `loadChannelData`, once the fetch has ended: a failure
        shows both error messages and clears the flag so a later call tries
        again; data renders the main buttons (or the "none" message) and the
        groups. */
    method FinishLoad(fetched: ChannelFetch)
      modifies this
      ensures hasLoaded <==> fetched.Fetched? && old(hasLoaded)
      ensures fetched.FetchFailed? ==> main == MainError && accordion == AccordionError
      ensures fetched.Fetched? ==>
        var d := fetched.data;
        (d.main.None? || d.main.value == [] <==> main == NoMainChannels) &&
        (main.MainButtons? ==>
           (|main.buttons| == |d.main.value| &&
            forall i :: 0 <= i < |d.main.value| ==> main.buttons[i] == MainButton(d.main.value[i]))) &&
        accordion.AccordionItems? &&
        (d.franchises.None? || d.franchises.value == [] <==> accordion.items == []) &&
        (accordion.items != [] ==>
           |accordion.items| == |d.franchises.value| &&
           forall i :: 0 <= i < |accordion.items| ==>
             accordion.items[i].header == OptOr(d.franchises.value[i].name, DefaultGroupName) &&
             GridShows(accordion.items[i].grid, d.franchises.value[i].links))
    {
      match fetched {
        case FetchFailed =>
          main := MainError;
          accordion := AccordionError;
          hasLoaded := false;
        case Fetched(d) =>
          if d.main.Some? && |d.main.value| > 0 {
            var buttons := RenderMainChannels(d.main.value);
            main := MainButtons(buttons);
          } else {
            main := NoMainChannels;
          }
          if d.franchises.Some? && |d.franchises.value| > 0 {
            var items := RenderFranchiseAccordion(d.franchises.value);
            accordion := AccordionItems(items);
          } else {
            accordion := AccordionItems([]);
          }
      }
    }
  }

  /** A failed load is retried by the next call, and a successful one is
      never repeated. */
  method RetryAfterFailure(page: ChannelPage, first: ChannelFetch) returns (again: bool)
    requires page.containersPresent && !page.hasLoaded
    modifies page
    ensures again <==> first.FetchFailed?
  {
    var fetching := page.StartLoad();
    page.FinishLoad(first);
    again := page.StartLoad();
  }

  // ---------------------------------------------------------------------
  // The accordion
  // ---------------------------------------------------------------------

  /** The rendered groups: each header's `active` class and the inline
      `maxHeight` of the content under it (`None` for null, `Some(h)` for
      `h px`). */
  class Accordion {
    const active: array<bool>
    const maxHeight: array<Option<nat>>

    /** At most one group is open, and a group's content is expanded
        exactly when its header is active. */
    ghost predicate Valid()
      reads this, active, maxHeight
    {
      active.Length == maxHeight.Length &&
      (forall i, j :: 0 <= i < active.Length && 0 <= j < active.Length && active[i] && active[j] ==> i == j) &&
      (forall i :: 0 <= i < active.Length ==> (active[i] <==> maxHeight[i].Some?))
    }

    /** A freshly rendered accordion: every group closed. */
    constructor (n: nat)
      ensures Valid() && active.Length == n
      ensures forall i :: 0 <= i < n ==> !active[i]
    {
      active := new bool[n](_ => false);
      maxHeight := new Option<nat>[n](_ => None);
    }

    /** A click on header `k`: every other active header is deactivated and
        its content collapsed, then `k` toggles, its content opening to
        `scrollHeight` or closing. */
    method Click(k: nat, scrollHeight: nat)
      requires Valid() && k < active.Length
      modifies active, maxHeight
      ensures Valid()
      ensures active[k] == !old(active[k])
      ensures maxHeight[k] == (if old(active[k]) then None else Some(scrollHeight))
      ensures forall j :: 0 <= j < active.Length && j != k ==> !active[j] && maxHeight[j].None?
    {
      for j := 0 to active.Length
        invariant forall i :: 0 <= i < active.Length ==> (active[i] <==> maxHeight[i].Some?)
        invariant forall i :: 0 <= i < j && i != k ==> !active[i]
        invariant active[k] == old(active[k]) && maxHeight[k] == old(maxHeight[k])
        invariant forall i :: j <= i < active.Length ==> active[i] == old(active[i])
      {
        if j != k && active[j] {
          active[j] := false;
          maxHeight[j] := None;
        }
      }
      active[k] := !active[k];
      if maxHeight[k].Some? {
        maxHeight[k] := None;
      } else {
        maxHeight[k] := Some(scrollHeight);
      }
    }
  }
}
