/** A seller's dashboard (js/systemavendedor.js): price normalisation, the
    generated description, the add and edit product forms with their tag
    lists, the product cache behind the edit and delete buttons, and the
    once-only load of the references tab. */
module VendorDashboard {
  import opened Common
  import Numbers
  import Catalog
  import Menu
  import TagJson
  import FilterState

  // ---------------------------------------------------------------------
  // parsePrice
  // ---------------------------------------------------------------------

  /** `parseFloat(...) || 0`: NaN (and zero) give 0. */
  function OrZero(n: Option<real>): real {
    if n.Some? then n.value else 0.0
  }

  /** The text `parsePrice` hands to `parseFloat`: the FIRST `.` dropped
      and the first `,` turned into `.`. */
  function NormalizedAsWritten(priceString: string): string {
    ReplaceFirst(ReplaceFirst(priceString, ".", ""), ",", ".")
  }

  /** `parsePrice` as written. */
  function ParsePriceAsWritten(priceString: string): real {
    if priceString == "" then 0.0 else OrZero(Numbers.ParseFloat(NormalizedAsWritten(priceString)))
  }

  /** The text without any `c`. */
  function RemoveAll(s: string, c: char): string {
    if s == [] then []
    else if s[0] == c then RemoveAll(s[1..], c)
    else [s[0]] + RemoveAll(s[1..], c)
  }

  /** The text the corrected `parsePrice` hands to `parseFloat`: EVERY
      thousands separator dropped and the decimal comma turned into `.`. */
  function Normalized(priceString: string): string {
    ReplaceFirst(RemoveAll(priceString, '.'), ",", ".")
  }

  /** `parsePrice` corrected for prices with more than one thousands
      separator, such as `1.234.567,89`. The submits below keep the
      source's `parsePrice`; this is the reading they evidently intend. */
  function ParsePrice(priceString: string): real {
    if priceString == "" then 0.0 else OrZero(Numbers.ParseFloat(Normalized(priceString)))
  }

  /** Nothing but `c` is dropped, and every `c` is: the other characters
      keep their number (the multiset) and, with `RemoveAllConcat`, their
      order. */
  lemma {:induction false} RemoveAllSpec(s: string, c: char)
    ensures forall i :: 0 <= i < |RemoveAll(s, c)| ==> RemoveAll(s, c)[i] != c
    ensures |RemoveAll(s, c)| <= |s|
    ensures (forall i :: 0 <= i < |s| ==> s[i] != c) ==> RemoveAll(s, c) == s
    ensures multiset(RemoveAll(s, c)) == multiset(s)[c := 0]
  {
    if s != [] {
      RemoveAllSpec(s[1..], c);
      if s[0] != c {
        assert s == [s[0]] + s[1..];
      }
    }
    RemoveAllCounts(s, c);
  }

  /** The multiset of the kept characters: every `c` gone, the rest kept. */
  lemma {:induction false} RemoveAllCounts(s: string, c: char)
    ensures multiset(RemoveAll(s, c)) == multiset(s)[c := 0]
  {
    if s != [] {
      RemoveAllCounts(s[1..], c);
      var x, t := s[0], s[1..];
      assert s == [x] + t;
      var m := multiset(RemoveAll(t, c));
      assert m == multiset(t)[c := 0];
      if x == c {
        assert RemoveAll(s, c) == RemoveAll(t, c);
        assert multiset(s) == multiset(t)[c := multiset(t)[c] + 1];
      } else {
        assert RemoveAll(s, c) == [x] + RemoveAll(t, c);
        assert multiset(RemoveAll(s, c)) == m[x := m[x] + 1];
        assert multiset(s) == multiset(t)[x := multiset(t)[x] + 1];
      }
    }
  }

  /** The two agree on every price without a dot. */
  lemma AgreeWithoutDots(s: string)
    requires '.' !in s
    ensures ParsePrice(s) == ParsePriceAsWritten(s)
  {
    ContainsChar(s, '.');
    RemoveAllSpec(s, '.');
    assert ReplaceFirst(s, ".", "") == s;
  }

  /** Both turn a decimal comma after plain digits into a point. */
  lemma NormalizeDecimalComma(a: string, b: string)
    requires Numbers.AllDigits(a) && Numbers.AllDigits(b)
    ensures Normalized(a + "," + b) == a + "." + b
    ensures NormalizedAsWritten(a + "," + b) == a + "." + b
  {
    var s := a + "," + b;
    assert forall i :: 0 <= i < |s| ==> s[i] != '.' by {
      assert forall i :: 0 <= i < |s| ==> s[i] == ',' || Numbers.IsDigit(s[i]);
    }
    RemoveAllSpec(s, '.');
    assert '.' !in s;
    ContainsChar(s, '.');
    assert ReplaceFirst(s, ".", "") == s;
    assert forall i :: 0 <= i < |a| ==> a[i] != ',';
    ReplaceFirstAfterFree(a, ',', b, ".");
  }

  /** A price with a decimal comma reads as its integer part plus the
      cents, both as written and corrected. */
  lemma DecimalCommaPrice(a: string, b: string)
    requires |a| > 0 && Numbers.AllDigits(a) && Numbers.AllDigits(b)
    ensures ParsePrice(a + "," + b) == Numbers.DigitsValue(a) as real + Numbers.FractionValue(b)
    ensures ParsePriceAsWritten(a + "," + b) == Numbers.DigitsValue(a) as real + Numbers.FractionValue(b)
  {
    NormalizeDecimalComma(a, b);
    Numbers.ParseDecimal(a, b, []);
    assert a + "." + b + [] == a + "." + b;
  }

  lemma {:induction false} RemoveAllConcat(s: string, t: string, c: char)
    ensures RemoveAll(s + t, c) == RemoveAll(s, c) + RemoveAll(t, c)
  {
    if s == [] {
      assert s + t == t;
    } else {
      assert (s + t)[1..] == s[1..] + t;
      RemoveAllConcat(s[1..], t, c);
    }
  }

  /** A string of digits has no dot to lose. */
  lemma DigitsKeepAll(s: string)
    requires Numbers.AllDigits(s)
    ensures RemoveAll(s, '.') == s
  {
    RemoveAllSpec(s, '.');
  }

  /** Dropping the dots of `x.y` with plain digits on both sides joins the
      groups. */
  lemma RemoveOneSeparator(x: string, y: string)
    requires Numbers.AllDigits(x) && Numbers.AllDigits(y)
    ensures RemoveAll(x + "." + y, '.') == x + y
  {
    DigitsKeepAll(x);
    DigitsKeepAll(y);
    RemoveAllConcat(x + ".", y, '.');
    RemoveAllConcat(x, ".", '.');
    assert "."[0] == '.' && "."[1..] == [];
  }

  /** As written, only the dot after the leading digits is dropped. */
  lemma DropFirstDot(x: string, rest: string)
    requires Numbers.AllDigits(x)
    ensures ReplaceFirst(x + "." + rest, ".", "") == x + rest
  {
    assert forall i :: 0 <= i < |x| ==> x[i] != '.';
    ReplaceFirstAfterFree(x, '.', rest, "");
  }

  /** As written, the first comma becomes a point. */
  lemma CommaToPoint(head: string, b: string)
    requires forall i :: 0 <= i < |head| ==> head[i] != ','
    ensures ReplaceFirst(head + "," + b, ",", ".") == head + "." + b
  {
    ReplaceFirstAfterFree(head, ',', b, ".");
  }

  /** As written, the dot after the leading digits goes and the first
      comma after it becomes a point. */
  lemma NormalizeAfterDigits(x: string, rest: string, head: string, b: string)
    requires Numbers.AllDigits(x) && x + rest == head + "," + b
    requires forall i :: 0 <= i < |head| ==> head[i] != ','
    ensures NormalizedAsWritten(x + "." + rest) == head + "." + b
  {
    DropFirstDot(x, rest);
    CommaToPoint(head, b);
  }

  /** Digits, a dot and digits hold no comma. */
  lemma GroupsHaveNoComma(x: string, y: string, z: string)
    requires Numbers.AllDigits(x) && Numbers.AllDigits(y) && Numbers.AllDigits(z)
    ensures var head := x + y + "." + z; forall i :: 0 <= i < |head| ==> head[i] != ','
  {
    var head := x + y + "." + z;
    assert forall i :: 0 <= i < |head| ==> head[i] == '.' || Numbers.IsDigit(head[i]);
  }

  /** Regrouping `x.y.z,b`. */
  lemma TwoSeparatorsLayout(x: string, y: string, z: string, b: string)
    ensures x + "." + y + "." + z + "," + b == x + "." + (y + "." + z + "," + b)
    ensures x + (y + "." + z + "," + b) == (x + y + "." + z) + "," + b
    ensures (x + y + "." + z) + "." + b == (x + y) + "." + z + ("." + b)
  {
  }

  /** As written, the first of two thousands separators is dropped, the
      second survives, and the comma becomes a second point. */
  lemma NormalizeTwoSeparatorsAsWritten(x: string, y: string, z: string, b: string)
    requires Numbers.AllDigits(x) && Numbers.AllDigits(y) && Numbers.AllDigits(z) && Numbers.AllDigits(b)
    ensures NormalizedAsWritten(x + "." + y + "." + z + "," + b) == (x + y) + "." + z + ("." + b)
  {
    TwoSeparatorsLayout(x, y, z, b);
    GroupsHaveNoComma(x, y, z);
    NormalizeAfterDigits(x, y + "." + z + "," + b, x + y + "." + z, b);
  }

  /** As written, a price with two thousands separators is misread: the
      middle group becomes the fraction and parsing stops at the point the
      comma turned into, so the last group and the cents are lost. */
  lemma TwoSeparatorsAsWritten(x: string, y: string, z: string, b: string)
    requires |x| > 0 && Numbers.AllDigits(x) && Numbers.AllDigits(y) && Numbers.AllDigits(z) && Numbers.AllDigits(b)
    ensures ParsePriceAsWritten(x + "." + y + "." + z + "," + b) ==
      Numbers.DigitsValue(x + y) as real + Numbers.FractionValue(z)
  {
    NormalizeTwoSeparatorsAsWritten(x, y, z, b);
    assert Numbers.AllDigits(x + y) by {
      assert forall i :: 0 <= i < |x + y| ==> (x + y)[i] == (if i < |x| then x[i] else y[i - |x|]);
    }
    Numbers.ParseDecimal(x + y, z, "." + b);
  }

  /** Digits followed by digits are digits. */
  lemma AllDigitsConcat(x: string, y: string)
    requires Numbers.AllDigits(x) && Numbers.AllDigits(y)
    ensures Numbers.AllDigits(x + y)
  {
    assert forall i :: 0 <= i < |x + y| ==> (x + y)[i] == (if i < |x| then x[i] else y[i - |x|]);
  }

  /** Regrouping `x.y.z`. */
  lemma GroupsLayout(x: string, y: string, z: string)
    ensures x + "." + y + "." + z == (x + "." + y) + ("." + z)
    ensures [] + "." + z == "." + z && [] + z == z
  {
  }

  /** Dropping the dots of `x.y.z` keeps every group. */
  lemma RemoveTwoSeparators(x: string, y: string, z: string)
    requires Numbers.AllDigits(x) && Numbers.AllDigits(y) && Numbers.AllDigits(z)
    ensures RemoveAll(x + "." + y + "." + z, '.') == x + y + z
  {
    GroupsLayout(x, y, z);
    RemoveOneSeparator(x, y);
    RemoveOneSeparator([], z);
    RemoveAllConcat(x + "." + y, "." + z, '.');
  }

  /** The cents after the comma hold no dot. */
  lemma CentsKeepAll(b: string)
    requires Numbers.AllDigits(b)
    ensures RemoveAll("," + b, '.') == "," + b
  {
    assert forall i :: 0 <= i < |"," + b| ==> ("," + b)[i] == ',' || Numbers.IsDigit(("," + b)[i]);
    RemoveAllSpec("," + b, '.');
  }

  /** The corrected normalisation of dot-grouped digits, a comma and
      cents: the digits with the dots dropped, a point, the cents. */
  lemma NormalizeGrouped(a: string, d: string, b: string)
    requires RemoveAll(a, '.') == d && Numbers.AllDigits(d) && Numbers.AllDigits(b)
    ensures Normalized(a + "," + b) == d + "." + b
  {
    assert a + "," + b == a + ("," + b) && d + ("," + b) == d + "," + b;
    RemoveAllConcat(a, "," + b, '.');
    CentsKeepAll(b);
    assert forall i :: 0 <= i < |d| ==> d[i] != ',';
    ReplaceFirstAfterFree(d, ',', b, ".");
  }

  /** A price whose normalised text is `d.b` reads as `d` plus the cents. */
  lemma PriceOfNormalized(s: string, d: string, b: string)
    requires Normalized(s) == d + "." + b
    requires |d| > 0 && Numbers.AllDigits(d) && Numbers.AllDigits(b)
    ensures ParsePrice(s) == Numbers.DigitsValue(d) as real + Numbers.FractionValue(b)
  {
    assert s != "" by {
      assert Normalized("") == "";
    }
    Numbers.ParseDecimal(d, b, []);
    assert d + "." + b + [] == d + "." + b;
  }

  /** The corrected reading keeps every group and takes the cents as the
      fraction. */
  lemma TwoSeparatorsCorrected(x: string, y: string, z: string, b: string)
    requires |x| > 0 && Numbers.AllDigits(x) && Numbers.AllDigits(y) && Numbers.AllDigits(z) && Numbers.AllDigits(b)
    ensures ParsePrice(x + "." + y + "." + z + "," + b) ==
      Numbers.DigitsValue(x + y + z) as real + Numbers.FractionValue(b)
  {
    RemoveTwoSeparators(x, y, z);
    AllDigitsConcat(x, y);
    AllDigitsConcat(x + y, z);
    NormalizeGrouped(x + "." + y + "." + z, x + y + z, b);
    PriceOfNormalized(x + "." + y + "." + z + "," + b, x + y + z, b);
  }

  lemma MillionLayout()
    ensures "1.234.567,89" == "1" + "." + "234" + "." + "567" + "," + "89"
    ensures "1" + "234" == "1234" && "1" + "234" + "567" == "1234567"
  {
  }

  lemma MillionDigits()
    ensures Numbers.DigitsValue("1234") == 1234
    ensures Numbers.DigitsValue("1234567") == 1234567
  {
    assert Numbers.DigitsValueFrom("1234", 0) == Numbers.DigitsValueFrom("234", 1) == Numbers.DigitsValueFrom("34", 12)
        == Numbers.DigitsValueFrom("4", 123) == Numbers.DigitsValueFrom("", 1234) == 1234;
    assert Numbers.DigitsValueFrom("1234567", 0) == Numbers.DigitsValueFrom("234567", 1) == Numbers.DigitsValueFrom("34567", 12)
        == Numbers.DigitsValueFrom("4567", 123) == Numbers.DigitsValueFrom("567", 1234) == Numbers.DigitsValueFrom("67", 12345)
        == Numbers.DigitsValueFrom("7", 123456) == Numbers.DigitsValueFrom("", 1234567) == 1234567;
  }

  lemma MillionFractions()
    ensures Numbers.FractionValue("567") == 0.567
    ensures Numbers.FractionValue("89") == 0.89
  {
    assert Numbers.FractionValue("7") == 0.7 && Numbers.FractionValue("67") == 0.67;
    assert Numbers.FractionValue("9") == 0.9;
  }

  /** `1.234.567,89` (R$ 1,234,567.89) is stored as 1234.567 as written,
      and as 1234567.89 by the corrected function. */
  lemma MillionPrice()
    ensures ParsePriceAsWritten("1.234.567,89") == 1234.567
    ensures ParsePrice("1.234.567,89") == 1234567.89
  {
    MillionLayout();
    MillionDigits();
    MillionFractions();
    TwoSeparatorsAsWritten("1", "234", "567", "89");
    TwoSeparatorsCorrected("1", "234", "567", "89");
  }

  // ---------------------------------------------------------------------
  // generateDescriptionFromTags
  // ---------------------------------------------------------------------

  const DefaultDescription := "Conta com itens variados."
  const MaxDescriptionTags := 5

  /** `xs.join(', ')`. */
  function Join(xs: seq<string>): string {
    if xs == [] then ""
    else if |xs| == 1 then xs[0]
    else xs[0] + ", " + Join(xs[1..])
  }

  /** `generateDescriptionFromTags`: the default sentence for missing or
      empty tags, else the first five tags joined by `, `. */
  function GenerateDescription(tags: Option<seq<string>>): (r: string)
    ensures tags.None? || tags.value == [] ==> r == DefaultDescription
    ensures tags.Some? && tags.value != [] ==> r == Join(Catalog.Take(tags.value, MaxDescriptionTags))
  {
    if tags.None? || |tags.value| == 0 then DefaultDescription
    else Join(Catalog.Take(tags.value, MaxDescriptionTags))
  }

  /** Only the first five tags matter: tags added after them do not change
      the description. */
  lemma DescriptionIgnoresLaterTags(tags: seq<string>, extra: seq<string>)
    requires |tags| >= MaxDescriptionTags
    ensures GenerateDescription(Some(tags + extra)) == GenerateDescription(Some(tags))
  {
    assert (tags + extra)[..MaxDescriptionTags] == tags[..MaxDescriptionTags];
  }

  /** A single tag is its own description, and the description of several
      starts with the first of them. */
  lemma DescriptionStartsWithFirstTag(tags: seq<string>)
    requires tags != []
    ensures StartsWith(GenerateDescription(Some(tags)), tags[0])
    ensures |tags| == 1 ==> GenerateDescription(Some(tags)) == tags[0]
  {
    var shown := Catalog.Take(tags, MaxDescriptionTags);
    assert shown[0] == tags[0];
    if |shown| > 1 {
      var r := shown[0] + ", " + Join(shown[1..]);
      assert r[..|shown[0]|] == shown[0];
    }
  }

  // ---------------------------------------------------------------------
  // Product documents and the add and edit forms
  // ---------------------------------------------------------------------

  /** A `produtos` document. */
  datatype StoredProduct = StoredProduct(
    title: string, description: string, price: real, videoUrl: string, tags: seq<string>,
    sellerId: string, sellerName: Option<string>, sellerWhatsapp: Option<string>, available: bool)

  /** How a tag pill area looks: one pill per tag, or the placeholder. */
  datatype TagsDisplay = Pills(tags: seq<string>) | NoneSelected

  /** `updateSelectedTagsDisplay`. */
  function DisplayOf(tags: seq<string>): (d: TagsDisplay)
    ensures d == NoneSelected <==> tags == []
    ensures d.Pills? ==> d.tags == tags
  {
    if |tags| > 0 then Pills(tags) else NoneSelected
  }

  /** `JSON.parse(form.dataset.selectedTags || '[]')`. */
  function FormTags(dataset: string): (r: Option<seq<string>>)
    ensures dataset == "" ==> r == Some([])
  {
    TagJson.ParseTags(OrElse(dataset, "[]"))
  }

  /** Why a submit wrote nothing. */
  datatype SubmitError = NotLoggedIn | BadTagsJson | MissingFields | NoProductId

  const RequiredFields := "Título, Valor e URL do Vídeo são obrigatórios."

  /** The product an add submit writes, or why it writes nothing: no user
      comes first, then a tag list that does not parse, then a missing
      title, a zero price or a missing video URL. */
  function NewProduct(user: Option<Menu.Record>, title: string, priceText: string, videoUrl: string, dataset: string)
    : (r: Result<StoredProduct, SubmitError>)
    requires user.Some? ==> "uid" in user.value
    ensures user.None? ==> r == Err(NotLoggedIn)
    ensures user.Some? && FormTags(dataset).None? ==> r == Err(BadTagsJson)
    ensures r.Ok? <==>
      user.Some? && FormTags(dataset).Some? && title != "" && ParsePriceAsWritten(priceText) != 0.0 && videoUrl != ""
    ensures r.Err? && user.Some? && FormTags(dataset).Some? ==> r.error == MissingFields
    ensures r.Ok? ==>
      var p := r.value;
      p.available && p.sellerId == user.value["uid"] &&
      p.sellerName == Menu.Field(user.value, "name") && p.sellerWhatsapp == Menu.Field(user.value, "whatsapp") &&
      p.title == title && p.videoUrl == videoUrl && p.price == ParsePriceAsWritten(priceText) &&
      p.tags == FormTags(dataset).value && p.description == GenerateDescription(FormTags(dataset))
  {
    if user.None? then Err(NotLoggedIn)
    else match FormTags(dataset)
      case None => Err(BadTagsJson)
      case Some(tags) =>
        var p := StoredProduct(title, GenerateDescription(Some(tags)), ParsePriceAsWritten(priceText), videoUrl, tags,
                               user.value["uid"], Menu.Field(user.value, "name"), Menu.Field(user.value, "whatsapp"), true);
        if p.title == "" || p.price == 0.0 || p.videoUrl == "" then Err(MissingFields) else Ok(p)
  }

  /** The fields an edit submit writes. */
  datatype ProductUpdates = ProductUpdates(title: string, description: string, price: real, videoUrl: string, tags: seq<string>)

  /** The update an edit submit sends: nothing without a product id or
      with a tag list that does not parse, and otherwise the five fields,
      with no check on their values. */
  function EditUpdates(productId: string, title: string, priceText: string, videoUrl: string, dataset: string)
    : (r: Result<ProductUpdates, SubmitError>)
    ensures productId == "" ==> r == Err(NoProductId)
    ensures r.Ok? <==> productId != "" && FormTags(dataset).Some?
    ensures r.Ok? ==> r.value == ProductUpdates(title, GenerateDescription(FormTags(dataset)), ParsePriceAsWritten(priceText),
                                                videoUrl, FormTags(dataset).value)
  {
    if productId == "" then Err(NoProductId)
    else match FormTags(dataset)
      case None => Err(BadTagsJson)
      case Some(tags) => Ok(ProductUpdates(title, GenerateDescription(Some(tags)), ParsePriceAsWritten(priceText), videoUrl, tags))
  }

  /** The edit form is prefilled with the price in `pt-BR` grouping, so
      saving an untouched edit of a product worth 1,234,567.89 writes
      1,234.567 back. */
  lemma ResaveCorruptsMillion(productId: string, title: string, videoUrl: string, dataset: string)
    requires productId != "" && FormTags(dataset).Some?
    ensures EditUpdates(productId, title, "1.234.567,89", videoUrl, dataset).Ok?
    ensures EditUpdates(productId, title, "1.234.567,89", videoUrl, dataset).value.price == 1234.567
    ensures ParsePrice("1.234.567,89") == 1234567.89
  {
    MillionPrice();
  }

  /** `updateDoc(productRef, updates)`: the five fields replaced. */
  function ApplyUpdates(p: StoredProduct, u: ProductUpdates): (q: StoredProduct)
    ensures q.title == u.title && q.description == u.description && q.price == u.price
    ensures q.videoUrl == u.videoUrl && q.tags == u.tags
  {
    p.(title := u.title, description := u.description, price := u.price, videoUrl := u.videoUrl, tags := u.tags)
  }

  /** An edit never changes who sells a product or whether it is still
      available. */
  lemma EditKeepsOwnership(p: StoredProduct, u: ProductUpdates)
    ensures var q := ApplyUpdates(p, u);
      q.sellerId == p.sellerId && q.sellerName == p.sellerName &&
      q.sellerWhatsapp == p.sellerWhatsapp && q.available == p.available
  {
  }

  /** One of the add or edit forms: its inputs and its `data-selected-tags`. */
  class ProductForm {
    var title: string
    var priceText: string
    var videoUrl: string
    var selectedTags: string
    var display: TagsDisplay

    constructor ()
      ensures title == "" && priceText == "" && videoUrl == "" && selectedTags == "[]" && display == NoneSelected
    {
      title, priceText, videoUrl := "", "", "";
      selectedTags := "[]";
      display := NoneSelected;
    }

    /** The click on "add product": the form is reset, its tags emptied and
        the filter modal's selection cleared. */
    method OpenAdd(filter: FilterState.FilterSidebar)
      requires filter.Valid()
      modifies this, filter
      ensures title == "" && priceText == "" && videoUrl == ""
      ensures FormTags(selectedTags) == Some([]) && display == NoneSelected
      ensures filter.Valid() && filter.selected == [] && filter.mode == old(filter.mode)
    {
      title, priceText, videoUrl := "", "", "";
      selectedTags := "[]";
      display := DisplayOf([]);
      filter.ClearItemSelections();
    }

    /** The callback `updateFormTags(formId)` hands the item modal: the
        chosen tags are stored as JSON and shown as pills. */
    method UpdateFormTags(newTags: seq<string>)
      modifies this
      ensures FormTags(selectedTags) == Some(newTags)
      ensures display == DisplayOf(newTags)
      ensures title == old(title) && priceText == old(priceText) && videoUrl == old(videoUrl)
    {
      selectedTags := TagJson.Stringify(newTags);
      TagJson.StringifyParse(newTags);
      display := DisplayOf(newTags);
    }

    /** "Select items" inside the form: the item modal opens in selection
        mode, preselecting the form's stored tags. A tag list that does not
        parse throws before the modal opens. */
    method OpenItemSelection(filter: FilterState.FilterSidebar, callback: nat) returns (modalOpened: bool)
      requires filter.Valid()
      modifies filter
      ensures filter.Valid()
      ensures modalOpened <==> FormTags(selectedTags).Some?
      ensures modalOpened ==>
        filter.mode == FilterState.SelectionMode && filter.callback == Some(callback) && filter.modalVisible &&
        filter.selected == FilterState.Dedup(FormTags(selectedTags).value)
      ensures !modalOpened ==> filter.selected == old(filter.selected) && filter.mode == old(filter.mode)
    {
      var currentTags := FormTags(selectedTags);
      if currentTags.None? {
        return false;
      }
      filter.OpenForSelection(currentTags.value, Some(callback));
      return true;
    }
  }

  // ---------------------------------------------------------------------
  // The dashboard's own state
  // ---------------------------------------------------------------------

  /** A fetched `produtos` document with its id. */
  datatype ProductDoc = ProductDoc(id: string, product: StoredProduct)

  datatype ProductFetch = ProductDocs(docs: seq<ProductDoc>) | ProductFetchFailed

  /** `#vendor-product-list` after a load. */
  datatype ProductListView = ListUntouched | NoProductsYet | Listed(ids: seq<string>) | ListFailed

  /** The product cache a list of fetched documents leaves: each id
      mapped to its document, a later one winning. */
  function CacheOf(docs: seq<ProductDoc>): (m: map<string, StoredProduct>)
    ensures forall id :: id in m <==> exists i :: 0 <= i < |docs| && docs[i].id == id
  {
    if docs == [] then map[]
    else
      var m := CacheOf(docs[..|docs| - 1]);
      assert forall i :: 0 <= i < |docs| - 1 ==> docs[..|docs| - 1][i] == docs[i];
      m[docs[|docs| - 1].id := docs[|docs| - 1].product]
  }

  /** With distinct ids (as Firestore gives them), the cache holds each
      fetched document under its own id. */
  lemma {:induction false} CacheOfDistinct(docs: seq<ProductDoc>, i: nat)
    requires forall j, k :: 0 <= j < k < |docs| ==> docs[j].id != docs[k].id
    requires i < |docs|
    ensures docs[i].id in CacheOf(docs) && CacheOf(docs)[docs[i].id] == docs[i].product
  {
    if i < |docs| - 1 {
      var init := docs[..|docs| - 1];
      assert init[i] == docs[i];
      CacheOfDistinct(init, i);
    }
  }

  /** The tab the references load is tied to. */
  const ReferencesPanel := "panel-references"

  /** The title the delete confirmation names. */
  function DeleteTitle(cache: map<string, StoredProduct>, productId: string): (t: string)
    ensures productId in cache && Truthy(cache[productId].title) ==> t == cache[productId].title
    ensures !(productId in cache && Truthy(cache[productId].title)) ==> t == "este produto"
  {
    if productId in cache && |cache[productId].title| > 0 then cache[productId].title else "este produto"
  }

  class Dashboard {
    /** `currentUser`: `{uid, ...userDoc}` for a user whose document exists. */
    var currentUser: Option<Menu.Record>
    /** `productCache`. */
    var productCache: map<string, StoredProduct>
    /** `referencesLoaded`. */
    var referencesLoaded: bool
    /** The dashboard panel shown. */
    var visiblePanel: Option<string>

    ghost predicate Valid()
      reads this
    {
      currentUser.Some? ==> "uid" in currentUser.value
    }

    constructor ()
      ensures Valid() && currentUser.None? && productCache == map[] && !referencesLoaded && visiblePanel.None?
    {
      currentUser := None;
      productCache := map[];
      referencesLoaded := false;
      visiblePanel := None;
    }

    /** The dashboard's `onAuthStateChanged`: the user record is the auth
        id with the document's fields spread over it, or nothing when
        logged out or without a document; a seller's products are loaded.
        A read that throws ends the callback before any assignment, so the
        previous user stays and nothing is loaded. */
    method AuthChanged(uid: Option<string>, read: Menu.DocRead) returns (loadProducts: bool)
      requires Valid()
      modifies this
      ensures Valid()
      ensures uid.Some? && read.Exists? ==> currentUser == Some(map["uid" := uid.value] + read.data)
      ensures uid.None? || read.NotFound? ==> currentUser.None?
      ensures uid.Some? && read.ReadError? ==> currentUser == old(currentUser) && !loadProducts
      ensures loadProducts <==>
        uid.Some? && read.Exists? && Menu.Field(currentUser.value, "role") == Some("vendedor")
      ensures productCache == old(productCache) && referencesLoaded == old(referencesLoaded)
    {
      loadProducts := false;
      if uid.None? {
        currentUser := None;
        return;
      }
      match read {
        case Exists(data) =>
          currentUser := Some(map["uid" := uid.value] + data);
          loadProducts := Menu.Field(currentUser.value, "role") == Some("vendedor");
        case NotFound =>
          currentUser := None;
        case ReadError =>
      }
    }

    /** `loadVendorProducts`: nothing without a user or a list container;
        otherwise the cache is emptied first, then filled by a loop over
        the fetched documents, so it ends holding exactly them. */
    method LoadVendorProducts(containerPresent: bool, fetched: ProductFetch)
      returns (query: seq<Catalog.Constraint>, view: ProductListView)
      requires Valid()
      modifies this
      ensures Valid() && currentUser == old(currentUser) && referencesLoaded == old(referencesLoaded)
      ensures old(currentUser).None? || !containerPresent ==>
        view == ListUntouched && query == [] && productCache == old(productCache)
      ensures old(currentUser).Some? && containerPresent ==>
        query == [Catalog.Where("sellerId", "==", Catalog.StrV(old(currentUser).value["uid"])),
                  Catalog.OrderBy("createdAt", "desc")] &&
        (fetched.ProductFetchFailed? ==> view == ListFailed && productCache == map[]) &&
        (fetched.ProductDocs? ==>
          productCache == CacheOf(fetched.docs) &&
          (fetched.docs == [] <==> view == NoProductsYet) &&
          (fetched.docs != [] ==> view == Listed(seq(|fetched.docs|, i requires 0 <= i < |fetched.docs| => fetched.docs[i].id))))
    {
      query := [];
      if currentUser.None? || !containerPresent {
        view := ListUntouched;
        return;
      }
      productCache := map[];
      query := [Catalog.Where("sellerId", "==", Catalog.StrV(currentUser.value["uid"])), Catalog.OrderBy("createdAt", "desc")];
      match fetched {
        case ProductFetchFailed =>
          view := ListFailed;
        case ProductDocs(docs) =>
          if docs == [] {
            view := NoProductsYet;
            return;
          }
          var ids: seq<string> := [];
          for i := 0 to |docs|
            invariant currentUser == old(currentUser) && referencesLoaded == old(referencesLoaded)
            invariant productCache == CacheOf(docs[..i])
            invariant ids == seq(i, j requires 0 <= j < i => docs[j].id)
          {
            assert docs[..i + 1][..i] == docs[..i];
            productCache := productCache[docs[i].id := docs[i].product];
            ids := ids + [docs[i].id];
          }
          assert docs[..|docs|] == docs;
          view := Listed(ids);
      }
    }

    /** The edit button: a product missing from the cache is ignored;
        otherwise the edit form takes its title, video and tags (`[]` when
        it has none) and the item modal's selection is cleared. */
    method HandleEditProduct(productId: string, form: ProductForm, filter: FilterState.FilterSidebar, tagsPresent: bool)
      returns (shown: bool)
      requires filter.Valid()
      modifies form, filter
      ensures filter.Valid()
      ensures shown <==> productId in productCache
      ensures !shown ==> form.selectedTags == old(form.selectedTags) && filter.selected == old(filter.selected)
      ensures shown ==>
        var p := productCache[productId];
        var tags := if tagsPresent then p.tags else [];
        form.title == p.title && form.videoUrl == p.videoUrl &&
        FormTags(form.selectedTags) == Some(tags) && form.display == DisplayOf(tags) &&
        filter.selected == []
    {
      if productId !in productCache {
        return false;
      }
      var p := productCache[productId];
      form.title := p.title;
      form.videoUrl := p.videoUrl;
      var currentTags := if tagsPresent then p.tags else [];
      form.UpdateFormTags(currentTags);
      filter.ClearItemSelections();
      return true;
    }

    /** An add submit: the product to write, or why nothing is written.
        The form's stored tags are reset only after the write succeeded
        (`writeOk`); a failed `addDoc` keeps them. */
    method SubmitAdd(form: ProductForm, writeOk: bool) returns (r: Result<StoredProduct, SubmitError>)
      requires Valid()
      modifies form
      ensures r == NewProduct(currentUser, old(form.title), old(form.priceText), old(form.videoUrl), old(form.selectedTags))
      ensures form.selectedTags == if r.Ok? && writeOk then "[]" else old(form.selectedTags)
      ensures form.title == old(form.title) && form.display == old(form.display)
    {
      r := NewProduct(currentUser, form.title, form.priceText, form.videoUrl, form.selectedTags);
      if r.Ok? && writeOk {
        form.selectedTags := "[]";
      }
    }

    /** A click on a dashboard tab shows that panel; the first click on the
        references tab starts their load, which sets `referencesLoaded`
        before anything else, even when no user is logged in. */
    method ClickTab(target: string) returns (loadReferences: bool)
      modifies this
      ensures visiblePanel == Some(target)
      ensures loadReferences <==> target == ReferencesPanel && !old(referencesLoaded)
      ensures referencesLoaded <==> old(referencesLoaded) || target == ReferencesPanel
      ensures currentUser == old(currentUser) && productCache == old(productCache)
    {
      visiblePanel := Some(target);
      loadReferences := target == ReferencesPanel && !referencesLoaded;
      if loadReferences {
        referencesLoaded := true;
      }
    }
  }
}
