/** The storefront's filter sidebar and item-filter modal
    (js/systemafiltro.js): the active price link, the global item selection,
    and the modal's mode and apply-callback, which let the same modal either
    filter the storefront or pick tags for a seller's product form. */
module FilterState {
  import opened Common
  import Numbers
  import Catalog
  import Ui

  // ---------------------------------------------------------------------
  // parsePriceRange
  // ---------------------------------------------------------------------

  /** The two numbers of an `a-b` price value: `parseFloat` of the text
      before the first `-` and of the text between it and the next `-`. */
  function DashOperands(value: string): (r: Option<(real, real)>)
    ensures !Contains(value, "-") ==> r.None?
    ensures r.Some? ==>
      var parts := Split(value, "-");
      |parts| >= 2 &&
      Numbers.ParseFloat(parts[0]) == Some(r.value.0) && Numbers.ParseFloat(parts[1]) == Some(r.value.1)
    ensures Contains(value, "-") && r.None? ==>
      var parts := Split(value, "-");
      |parts| >= 2 && (Numbers.ParseFloat(parts[0]).None? || Numbers.ParseFloat(parts[1]).None?)
  {
    if !Contains(value, "-") then None
    else

      var parts := Split(value, "-");
      match (Numbers.ParseFloat(parts[0]), Numbers.ParseFloat(parts[1]))
      case (Some(lo), Some(hi)) => Some((lo, hi))
      case _ => None
  }

  /** `parsePriceRange`: `'all'`, the open `'800+'` range, a numeric
      `a-b` range, and `'all'` for anything else. */
  function ParsePriceRange(value: string): (r: Catalog.PriceValue)
    ensures value == "all" ==> r == Catalog.AllPrices
    ensures value == "800+" ==> r == Catalog.Range(800.0, Catalog.Infinity)
    ensures value != "all" && value != "800+" ==>
      (r.Range? <==> DashOperands(value).Some?) &&
      (r.Range? ==> r == Catalog.Range(DashOperands(value).value.0, Catalog.Finite(DashOperands(value).value.1)))
  {
    if value == "all" then Catalog.AllPrices
    else if value == "800+" then Catalog.Range(800.0, Catalog.Infinity)
    else match DashOperands(value)
      case Some((lo, hi)) => Catalog.Range(lo, Catalog.Finite(hi))
      case None => Catalog.AllPrices
  }

  /** Two texts without a dash joined by one split back into the two. */
  lemma DashSplit(a: string, b: string)
    requires '-' !in a && '-' !in b
    ensures Contains(a + "-" + b, "-")
    ensures var parts := Split(a + "-" + b, "-"); |parts| >= 2 && parts[0] == a && parts[1] == b
  {
    var v := a + "-" + b;
    assert v[|a|] == '-';
    assert forall i :: 0 <= i < |a| ==> a[i] != '-';
    IndexOfAfterFree(a, '-', b);
    assert StartsWith(v[|a|..], "-");
    assert Contains(v, "-");
    var parts := Split(v, "-");
    assert parts[0] == v[..|a|] == a;
    assert v[|a| + 1..] == b;
    ContainsChar(b, '-');
    assert parts[1] == b;
  }

  /** A value made of two digit strings around a dash is the closed range
      between the numbers they spell. */
  lemma {:induction false} PriceRangeOfDigits(a: string, b: string)
    requires |a| > 0 && Numbers.AllDigits(a) && |b| > 0 && Numbers.AllDigits(b)
    ensures ParsePriceRange(a + "-" + b) ==
      Catalog.Range(Numbers.DigitsValue(a) as real, Catalog.Finite(Numbers.DigitsValue(b) as real))
  {
    var v := a + "-" + b;
    assert v[|a|] == '-';
    assert v != "all" by { assert v[0] != "all"[0]; }
    assert v != "800+" by { assert '-' in v && '-' !in "800+"; }
    assert '-' !in a && '-' !in b;
    DashSplit(a, b);
    Numbers.ParseDigits(a);
    Numbers.ParseDigits(b);
  }

  // ---------------------------------------------------------------------
  // The selection state machine
  // ---------------------------------------------------------------------

  datatype Mode = FilterMode | SelectionMode

  /** What a handler asks of the rest of the page, in order. */
  datatype Effect =
    | Dispatch(filter: Catalog.Filter)                         // `filterChanged`
    | InvokeCallback(callback: Ui.CallbackId, items: seq<string>)
    | CloseFilterPanel

  predicate Distinct<T(==)>(s: seq<T>) {
    forall i, j :: 0 <= i < j < |s| ==> s[i] != s[j]
  }

  /** `Array.from(new Set(xs))`: the distinct items, first occurrences in order. */
  function Dedup(xs: seq<string>): (r: seq<string>)
    ensures Distinct(r)
    ensures forall x :: x in r <==> x in xs
    ensures Distinct(xs) ==> r == xs
  {
    DedupAfter(xs, [])
  }

  function DedupAfter(xs: seq<string>, seen: seq<string>): (r: seq<string>)
    requires Distinct(seen)
    ensures Distinct(r) && seen <= r
    ensures forall x :: x in r <==> x in seen || x in xs
    ensures Distinct(seen + xs) ==> r == seen + xs
    decreases |xs|
  {
    if xs == [] then seen
    else
      assert seen + xs == seen + [xs[0]] + xs[1..];
      if xs[0] in seen then
        assert !Distinct(seen + xs) by {
          var k :| 0 <= k < |seen| && seen[k] == xs[0];
          assert (seen + xs)[k] == (seen + xs)[|seen|];
        }
        DedupAfter(xs[1..], seen)
      else DedupAfter(xs[1..], seen + [xs[0]])
  }

  /** A duplicate-free sequence: its head is not in its tail, which is
      duplicate-free too. */
  lemma DistinctTail(s: seq<string>)
    requires Distinct(s) && s != []
    ensures Distinct(s[1..]) && s[0] !in s[1..]
  {
  }

  /** Cutting position `k` out of the tail is cutting `k + 1` out of the
      whole sequence. */
  lemma CutTail(s: seq<string>, k: nat)
    requires k + 1 < |s|
    ensures [s[0]] + (s[1..][..k] + s[1..][k + 1..]) == s[..k + 1] + s[k + 2..]
  {
  }

  /** The sequence without the element `x`, the others kept in order, as
      `Set.prototype.delete` keeps the insertion order of the rest. */
  function Remove(s: seq<string>, x: string): (r: seq<string>)
    ensures forall y :: y in r <==> y in s && y != x
    ensures Distinct(s) ==> Distinct(r)
    ensures x !in s ==> r == s
    ensures Distinct(s) && x in s ==> exists k :: 0 <= k < |s| && s[k] == x && r == s[..k] + s[k + 1..]
  {
    if s == [] then []
    else
      var t := Remove(s[1..], x);
      if s[0] == x then
        assert Distinct(s) ==> t == s[..0] + s[1..] by {
          if Distinct(s) {
            DistinctTail(s);
          }
        }
        t
      else
        assert Distinct(s) ==> Distinct([s[0]] + t) by {
          if Distinct(s) {
            DistinctTail(s);
          }
        }
        assert Distinct(s) && x in s ==> exists k :: 0 <= k < |s| && s[k] == x && [s[0]] + t == s[..k] + s[k + 1..] by {
          if Distinct(s) && x in s {
            DistinctTail(s);
            assert x in s[1..];
            var k :| 0 <= k < |s[1..]| && s[1..][k] == x && t == s[1..][..k] + s[1..][k + 1..];
            CutTail(s, k);
            assert s[k + 1] == x;
          }
        }
        [s[0]] + t
  }

  class FilterSidebar {
    /** `data-filter-value` of each price link, in document order; the
        first is "Todas as Contas". */
    const priceLinks: seq<string>
    /** The `active` class of each price link. */
    var priceActive: seq<bool>
    /** `currentActivePriceFilter`, as an index into `priceLinks`. */
    var activePrice: Option<nat>
    /** `currentSelectedItems`, in insertion order. */
    var selected: seq<string>
    /** The item buttons rendered so far (`itemButtonElements`) and which of
        them carry the `active` class. */
    const buttons: set<string>
    var activeButtons: set<string>
    var mode: Mode
    var callback: Option<Ui.CallbackId>
    var modalVisible: bool

    /** The only active price link is the current one; the selection has no
        duplicates; a button is active iff its item is selected. */
    ghost predicate Valid()
      reads this
    {
      |priceActive| == |priceLinks| &&
      (activePrice.Some? ==> activePrice.value < |priceLinks|) &&
      (forall i :: 0 <= i < |priceActive| ==> (priceActive[i] <==> activePrice == Some(i))) &&
      Distinct(selected) &&
      activeButtons == set x | x in buttons && x in selected
    }

    /** `setupPriceFilters`: the first link starts active. */
    constructor (priceLinks: seq<string>, buttons: set<string>)
      ensures Valid()
      ensures this.priceLinks == priceLinks && this.buttons == buttons
      ensures activePrice == (if |priceLinks| > 0 then Some(0) else None)
      ensures selected == [] && mode == FilterMode && callback.None? && !modalVisible
    {
      this.priceLinks := priceLinks;
      this.buttons := buttons;
      priceActive := seq(|priceLinks|, i => i == 0);
      activePrice := if |priceLinks| > 0 then Some(0) else None;
      selected := [];
      activeButtons := {};
      mode := FilterMode;
      callback := None;
      modalVisible := false;
    }

    /** `setActivePriceFilter(link i)`: link `i` becomes the only active one
        and the item selection is emptied. */
    method SetActivePriceFilter(i: nat)
      requires Valid() && i < |priceLinks|
      modifies this
      ensures Valid()
      ensures activePrice == Some(i) && selected == [] && activeButtons == {}
      ensures forall j :: 0 <= j < |priceActive| ==> (priceActive[j] <==> j == i)
      ensures mode == old(mode) && callback == old(callback) && modalVisible == old(modalVisible)
    {
      if activePrice.Some? {
        priceActive := priceActive[activePrice.value := false];
      }
      activePrice := Some(i);
      priceActive := priceActive[i := true];
      selected := [];
      activeButtons := {};
    }

    /** A click on price link `i`: activates it, then announces the price
        filter it stands for, then closes the sidebar. */
    method ClickPriceLink(i: nat) returns (effects: seq<Effect>)
      requires Valid() && i < |priceLinks|
      modifies this
      ensures Valid()
      ensures activePrice == Some(i) && selected == [] && activeButtons == {}
      ensures effects == [Dispatch(Catalog.PriceFilter(ParsePriceRange(priceLinks[i]))), CloseFilterPanel]
      ensures mode == old(mode) && callback == old(callback) && modalVisible == old(modalVisible)
    {
      SetActivePriceFilter(i);
      effects := [Dispatch(Catalog.PriceFilter(ParsePriceRange(priceLinks[i]))), CloseFilterPanel];
    }

    /** A click on an item button flips that item's membership; the
        button's state follows. */
    method ToggleItem(item: string)
      requires Valid() && item in buttons
      modifies this
      ensures Valid()
      ensures item in selected <==> item !in old(selected)
      ensures forall x :: x != item ==> (x in selected <==> x in old(selected))
      ensures item !in old(selected) ==> selected == old(selected) + [item]
      ensures item in old(selected) ==>
        exists k :: 0 <= k < |old(selected)| && old(selected)[k] == item && selected == old(selected)[..k] + old(selected)[k + 1..]
      ensures activePrice == old(activePrice) && priceActive == old(priceActive)
      ensures mode == old(mode) && callback == old(callback) && modalVisible == old(modalVisible)
    {
      if item !in activeButtons {
        activeButtons := activeButtons + {item};
        selected := selected + [item];
      } else {
        activeButtons := activeButtons - {item};
        selected := Remove(selected, item);
      }
    }

    /** `openModalForFilter`: storefront mode, no callback. */
    method OpenForFilter()
      requires Valid()
      modifies this
      ensures Valid()
      ensures mode == FilterMode && callback.None? && modalVisible
      ensures selected == old(selected) && activePrice == old(activePrice) && priceActive == old(priceActive)
    {
      mode := FilterMode;
      callback := None;
      modalVisible := true;
    }

    /** `openItemFilterModalForSelection`: selection mode, the given
        callback, and the selection replaced by the initial items. */
    method OpenForSelection(initial: seq<string>, onApply: Option<Ui.CallbackId>)
      requires Valid()
      modifies this
      ensures Valid()
      ensures mode == SelectionMode && callback == onApply && modalVisible
      ensures selected == Dedup(initial)
      ensures activePrice == old(activePrice) && priceActive == old(priceActive)
    {
      mode := SelectionMode;
      callback := onApply;
      selected := Dedup(initial);
      activeButtons := set x | x in buttons && x in selected;
      modalVisible := true;
    }

    /** The "Limpar" button: empties the selection; in selection mode hands
        the callback an empty list, in filter mode falls back to the first
        price link (or just closes the sidebar); hides the modal. */
    method Clear() returns (effects: seq<Effect>)
      requires Valid()
      modifies this
      ensures Valid()
      ensures selected == [] && activeButtons == {} && !modalVisible
      ensures mode == old(mode) && callback == old(callback)
      ensures old(mode) == SelectionMode && old(callback).Some? ==>
        effects == [InvokeCallback(old(callback).value, [])] && activePrice == old(activePrice)
      ensures old(mode) == SelectionMode && old(callback).None? ==> effects == [] && activePrice == old(activePrice)
      ensures old(mode) == FilterMode && |priceLinks| > 0 ==>
        activePrice == Some(0) &&
        effects == [Dispatch(Catalog.PriceFilter(ParsePriceRange(priceLinks[0]))), CloseFilterPanel]
      ensures old(mode) == FilterMode && |priceLinks| == 0 ==> effects == [CloseFilterPanel]
    {
      selected := [];
      activeButtons := {};
      effects := [];
      if mode == SelectionMode && callback.Some? {
        effects := [InvokeCallback(callback.value, [])];
      } else if mode == FilterMode {
        if |priceLinks| > 0 {
          effects := ClickPriceLink(0);
        } else {
          effects := [CloseFilterPanel];
        }
      }
      modalVisible := false;
    }

    /** The "Aplicar" button. In selection mode the callback receives the
        selection; in filter mode an empty selection acts like the first
        price link, and a non-empty one clears every price link and
        announces an items filter. The modal is hidden either way. */
    method Apply() returns (effects: seq<Effect>)
      requires Valid()
      modifies this
      ensures Valid()
      ensures !modalVisible && mode == old(mode) && callback == old(callback)
      ensures old(mode) == SelectionMode ==>
        selected == old(selected) && activePrice == old(activePrice) &&
        effects == (if old(callback).Some? then [InvokeCallback(old(callback).value, old(selected))] else [])
      ensures old(mode) == FilterMode && old(selected) == [] && |priceLinks| > 0 ==>
        activePrice == Some(0) &&
        effects == [Dispatch(Catalog.PriceFilter(ParsePriceRange(priceLinks[0]))), CloseFilterPanel]
      ensures old(mode) == FilterMode && old(selected) == [] && |priceLinks| == 0 ==>
        effects == [CloseFilterPanel]
      ensures old(mode) == FilterMode && old(selected) != [] ==>
        selected == old(selected) && activePrice.None? &&
        (forall j :: 0 <= j < |priceActive| ==> !priceActive[j]) &&
        effects == [Dispatch(Catalog.ItemsFilter(old(selected))), CloseFilterPanel]
    {
      var selectedItems := selected;
      effects := [];
      if mode == SelectionMode && callback.Some? {
        effects := [InvokeCallback(callback.value, selectedItems)];
      } else if mode == FilterMode {
        if |selectedItems| == 0 {
          if |priceLinks| > 0 {
            effects := ClickPriceLink(0);
          } else {
            effects := [CloseFilterPanel];
          }
        } else {
          if activePrice.Some? {
            priceActive := priceActive[activePrice.value := false];
            activePrice := None;
          }
          if |priceLinks| > 0 {
            priceActive := priceActive[0 := false];
          }
          effects := [Dispatch(Catalog.ItemsFilter(selectedItems)), CloseFilterPanel];
        }
      }
      modalVisible := false;
    }

    /** The `sellerSelected` listener: empties the selection and makes the
        first price link the active one. */
    method SellerSelected()
      requires Valid()
      modifies this
      ensures Valid()
      ensures selected == [] && activeButtons == {}
      ensures activePrice == (if |priceLinks| > 0 then Some(0) else None)
      ensures mode == old(mode) && callback == old(callback) && modalVisible == old(modalVisible)
    {
      if activePrice.Some? {
        priceActive := priceActive[activePrice.value := false];
        activePrice := None;
      }
      selected := [];
      activeButtons := {};
      if |priceLinks| > 0 {
        priceActive := priceActive[0 := true];
        activePrice := Some(0);
      }
    }

    /** `clearItemSelections`: empties the selection and every button. */
    method ClearItemSelections()
      requires Valid()
      modifies this
      ensures Valid()
      ensures selected == [] && activeButtons == {}
      ensures activePrice == old(activePrice) && priceActive == old(priceActive)
      ensures mode == old(mode) && callback == old(callback) && modalVisible == old(modalVisible)
    {
      selected := [];
      activeButtons := {};
    }
  }
}
