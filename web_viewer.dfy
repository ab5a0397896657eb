/** components/web-viewer.tsx without its rendering: which result the
    viewer shows, the site-change dialog, the choice of template, the
    history listing, the formatting of applied filters, and the small
    reductions and thresholds its insight texts are built from. */
module WebViewer {
  import opened Wrappers
  import opened Text
  import opened Types
  import opened Page

  // ---------------------------------------------------------------------
  // The latest result and the history listing
  // ---------------------------------------------------------------------

  /** `latestResult`: the last entry of the history, or nothing. */
  function LatestResult(results: seq<FunctionResult>): (r: Option<FunctionResult>)
    ensures r.None? <==> results == []
    ensures r.Some? ==> r.value == results[|results| - 1]
  {
    if |results| > 0 then Some(results[|results| - 1]) else None
  }

  /** `[...].reverse()` on the mapped history cards. */
  function Reverse<T>(s: seq<T>): (r: seq<T>)
    ensures |r| == |s|
    ensures forall i :: 0 <= i < |s| ==> r[i] == s[|s| - 1 - i]
  {
    if s == [] then [] else [s[|s| - 1]] + Reverse(s[..|s| - 1])
  }

  /** The history tab: one card per entry, newest first. */
  function HistoryListing(results: seq<FunctionResult>): (cards: seq<FunctionResult>)
    ensures |cards| == |results|
    ensures forall i :: 0 <= i < |cards| ==> cards[i] == results[|results| - 1 - i]
  {
    Reverse(results)
  }

  /** The listing holds the same entries as the history, newest first: its
      first card is the latest result, and reading it backwards gives the
      history again. */
  lemma HistoryListingOrder(results: seq<FunctionResult>)
    ensures |HistoryListing(results)| == |results|
    ensures results != [] ==> Some(HistoryListing(results)[0]) == LatestResult(results)
    ensures Reverse(HistoryListing(results)) == results
    ensures multiset(HistoryListing(results)) == multiset(results)
  {
    var l := HistoryListing(results);
    assert Reverse(l) == results;
    ReverseMultiset(results);
  }

  lemma {:induction false} ReverseMultiset<T>(s: seq<T>)
    ensures multiset(Reverse(s)) == multiset(s)
  {
    if s != [] {
      ReverseMultiset(s[..|s| - 1]);
      assert s == s[..|s| - 1] + [s[|s| - 1]];
    }
  }

  // ---------------------------------------------------------------------
  // ResultDisplay
  // ---------------------------------------------------------------------

  /** The view a result is rendered with. */
  datatype Template =
    | SearchResults | FilteredResults | ProductDetails | ProductComparison | ErrorResult
    | GenericResult

  /** `ResultDisplay`: the template is chosen from the tag alone. */
  function DisplayFor(tag: Tag): (t: Template)
    ensures t == SearchResults <==> tag == Search
    ensures t == FilteredResults <==> tag == Filter
    ensures t == ProductDetails <==> tag == Product
    ensures t == ProductComparison <==> tag == Chart
    ensures t == ErrorResult <==> tag == Error
    ensures t == GenericResult <==> tag == List
  {
    match tag
    case Search => SearchResults
    case Filter => FilteredResults
    case Product => ProductDetails
    case Chart => ProductComparison
    case Error => ErrorResult
    case List => GenericResult
  }

  /** Different tags get different templates. */
  lemma DisplayForInjective(a: Tag, b: Tag)
    requires DisplayFor(a) == DisplayFor(b)
    ensures a == b
  {
  }

  /** What the results tab shows: the latest result's template, or the
      empty-state message when there is none. */
  function ResultsTab(results: seq<FunctionResult>): (shown: Option<(Template, FunctionResult)>)
    ensures shown.None? <==> results == []
    ensures shown.Some? ==>
      shown.value.1 == results[|results| - 1] && shown.value.0 == DisplayFor(shown.value.1.tag)
  {
    match LatestResult(results)
    case None => None
    case Some(r) => Some((DisplayFor(r.tag), r))
  }

  // ---------------------------------------------------------------------
  // handleChangeSite
  // ---------------------------------------------------------------------

  /** The URL the dialog submits: kept when it starts with "http", and
      otherwise given an "https://" prefix. */
  function NormalizeUrl(url: string): (r: string)
    ensures StartsWith(r, "http")
    ensures StartsWith(url, "http") ==> r == url
    ensures !StartsWith(url, "http") ==> r == "https://" + url
  {
    if StartsWith(url, "http") then url
    else
      var r := "https://" + url;
      assert r[..4] == "http";
      r
  }

  /** Normalising twice is normalising once, and the typed URL is always the
      end of the normalised one. */
  lemma NormalizeUrlIdempotent(url: string)
    ensures NormalizeUrl(NormalizeUrl(url)) == NormalizeUrl(url)
    ensures exists p :: NormalizeUrl(url) == p + url
  {
    if StartsWith(url, "http") {
      assert NormalizeUrl(url) == [] + url;
    }
  }

  // ---------------------------------------------------------------------
  // formatFilterKey and formatFilterValue
  // ---------------------------------------------------------------------

  /** `keyMap[key] || key`: the label of a known filter key, the key itself
      otherwise. */
  function FormatFilterKey(key: string): (caption: string)
    ensures key == "minPrice" ==> caption == "Precio mínimo"
    ensures key == "maxPrice" ==> caption == "Precio máximo"
    ensures key == "category" ==> caption == "Categoría"
    ensures key == "brand" ==> caption == "Marca"
    ensures key == "rating" ==> caption == "Valoración"
    ensures key == "sort" ==> caption == "Ordenar por"
    ensures key in {"minPrice", "maxPrice", "category", "brand", "rating", "sort"} <==> caption != key
  {
    match key
    case "minPrice" => "Precio mínimo"
    case "maxPrice" => "Precio máximo"
    case "category" => "Categoría"
    case "brand" => "Marca"
    case "rating" => "Valoración"
    case "sort" => "Ordenar por"
    case _ => key
  }

  /** The six known keys get six different labels, and any other key is
      shown as it is. */
  lemma FormatFilterKeyCases(key: string)
    ensures key !in {"minPrice", "maxPrice", "category", "brand", "rating", "sort"} ==>
      FormatFilterKey(key) == key
    ensures forall k1, k2 ::
      (k1 in {"minPrice", "maxPrice", "category", "brand", "rating", "sort"} &&
       k2 in {"minPrice", "maxPrice", "category", "brand", "rating", "sort"} &&
       FormatFilterKey(k1) == FormatFilterKey(k2)) ==> k1 == k2
  {
    assert "Precio mínimo"[8] != "Precio máximo"[8];
    assert "Precio mínimo"[0] == 'P' && "Categoría"[0] == 'C' && "Marca"[0] == 'M';
    assert "Valoración"[0] == 'V' && "Ordenar por"[0] == 'O';
    assert "Precio máximo"[0] == 'P';
  }

  /** `formatFilterValue`: a dollar sign before values of keys containing
      "Price", a star after the rating, the value's string form otherwise. */
  function FormatFilterValue(key: string, value: Value): (r: string)
    ensures Contains(key, "Price") ==> r == "$" + Stringify(Some(value))
    ensures !Contains(key, "Price") && key == "rating" ==> r == Stringify(Some(value)) + "★+"
    ensures !Contains(key, "Price") && key != "rating" ==> r == Stringify(Some(value))
  {
    if Contains(key, "Price") then "$" + Stringify(Some(value))
    else if key == "rating" then Stringify(Some(value)) + "★+"
    else Stringify(Some(value))
  }

  /** The two price keys are shown in dollars; the match is on "Price" with
      a capital P, so a key such as "price" is not. */
  lemma FormatPriceKeys(value: Value)
    ensures FormatFilterValue("minPrice", value) == "$" + Stringify(Some(value))
    ensures FormatFilterValue("maxPrice", value) == "$" + Stringify(Some(value))
    ensures FormatFilterValue("price", value) == Stringify(Some(value))
  {
    assert OccursAt("minPrice", "Price", 3);
    assert OccursAt("maxPrice", "Price", 3);
    assert "price"[0] != "Price"[0];
    ContainsIffOccurs("price", "Price");
  }

  // ---------------------------------------------------------------------
  // highestRated
  // ---------------------------------------------------------------------

  /** The reducer: the earlier product is kept only when its rating is
      strictly greater. */
  function Better(prev: Item, current: Item): Item {
    if prev.rating > current.rating then prev else current
  }

  /** `products.reduce(Better)` on a non-empty list: an element of maximal
      rating, and the last one among several with that rating. */
  function ReduceBest(products: seq<Item>): (r: Item)
    requires |products| > 0
    ensures exists k ::
      && 0 <= k < |products|
      && products[k] == r
      && (forall j :: 0 <= j < |products| ==> products[j].rating <= r.rating)
      && (forall j :: k < j < |products| ==> products[j].rating < r.rating)
  {
    if |products| == 1 then products[0]
    else
      var n := |products| - 1;
      var prev := ReduceBest(products[..n]);
      var r := Better(prev, products[n]);
      assert exists k ::
        && 0 <= k < |products|
        && products[k] == r
        && (forall j :: 0 <= j < |products| ==> products[j].rating <= r.rating)
        && (forall j :: k < j < |products| ==> products[j].rating < r.rating) by {
        var k0 :| 0 <= k0 < n && products[..n][k0] == prev &&
          (forall j :: 0 <= j < n ==> products[..n][j].rating <= prev.rating) &&
          (forall j :: k0 < j < n ==> products[..n][j].rating < prev.rating);
        if prev.rating > products[n].rating {
          assert products[k0] == r;
          forall j | 0 <= j < |products| ensures products[j].rating <= r.rating {
            if j < n { assert products[j] == products[..n][j]; }
          }
          forall j | k0 < j < |products| ensures products[j].rating < r.rating {
            if j < n { assert products[j] == products[..n][j]; }
          }
        } else {
          forall j | 0 <= j < |products| ensures products[j].rating <= r.rating {
            if j < n { assert products[j] == products[..n][j]; }
          }
        }
      }
      r
  }

  /** `highestRated`: nothing for an empty list, otherwise the reduction's
      product, one of maximal rating. */
  function HighestRated(products: seq<Item>): (r: Option<Item>)
    ensures r.None? <==> products == []
    ensures products != [] ==> r == Some(ReduceBest(products))
    ensures r.Some? ==>
      && r.value in products
      && (forall j :: 0 <= j < |products| ==> products[j].rating <= r.value.rating)
  {
    if products == [] then None else Some(ReduceBest(products))
  }

  /** Two products with the same top rating: the later one wins. */
  lemma HighestRatedTie(a: Item, b: Item)
    requires a.rating == b.rating
    ensures HighestRated([a, b]) == Some(b)
  {
    assert [a, b][..1] == [a];
  }

  // ---------------------------------------------------------------------
  // allSpecs
  // ---------------------------------------------------------------------

  predicate NoDuplicates(s: seq<string>) {
    forall i, j :: 0 <= i < j < |s| ==> s[i] != s[j]
  }

  /** `[...new Set(s)]`: the elements of `s`, each once, in the order of
      their first appearance. */
  function Dedup(s: seq<string>): (r: seq<string>)
    ensures NoDuplicates(r)
    ensures forall x :: x in r <==> x in s
    decreases |s|
  {
    if s == [] then []
    else
      var d := Dedup(s[..|s| - 1]);
      if s[|s| - 1] in d then d else d + [s[|s| - 1]]
  }

  /** The position of the first occurrence of `x` in `s`. */
  function FirstIndex(s: seq<string>, x: string): (i: nat)
    requires x in s
    ensures i < |s| && s[i] == x && x !in s[..i]
  {
    if s[0] == x then 0 else 1 + FirstIndex(s[1..], x)
  }

  lemma FirstIndexOfPrefix(s: seq<string>, y: string, x: string)
    requires x in s
    ensures FirstIndex(s + [y], x) == FirstIndex(s, x)
  {
    var k := FirstIndex(s, x);
    assert (s + [y])[k] == x;
    assert (s + [y])[..k] == s[..k];
  }

  /** `Dedup` keeps first-appearance order. */
  lemma {:induction false} DedupOrder(s: seq<string>)
    ensures forall i, j :: 0 <= i < j < |Dedup(s)| ==>
      FirstIndex(s, Dedup(s)[i]) < FirstIndex(s, Dedup(s)[j])
    decreases |s|
  {
    if s != [] {
      var n := |s| - 1;
      var init := s[..n];
      var x := s[n];
      var d := Dedup(init);
      DedupOrder(init);
      assert s == init + [x];
      forall y | y in d ensures FirstIndex(s, y) == FirstIndex(init, y) {
        FirstIndexOfPrefix(init, x, y);
      }
      if x !in d {
        assert s[..n] == init;
        forall i, j | 0 <= i < j < |Dedup(s)|
          ensures FirstIndex(s, Dedup(s)[i]) < FirstIndex(s, Dedup(s)[j])
        {
          assert Dedup(s)[i] == d[i];
          if j < |d| {
            assert Dedup(s)[j] == d[j];
          } else {
            assert FirstIndex(s, d[i]) < |init|;
          }
        }
      }
    }
  }

  /** A de-duplicated prefix de-duplicates like the prefix itself. */
  lemma {:induction false} DedupAppend(a: seq<string>, b: seq<string>)
    ensures Dedup(Dedup(a) + b) == Dedup(a + b)
    decreases |b|
  {
    if b == [] {
      assert a + b == a;
      assert Dedup(a) + b == Dedup(a);
      DedupOfDistinct(Dedup(a));
    } else {
      var n := |b| - 1;
      DedupAppend(a, b[..n]);
      assert (Dedup(a) + b)[..|Dedup(a) + b| - 1] == Dedup(a) + b[..n];
      assert (a + b)[..|a + b| - 1] == a + b[..n];
    }
  }

  lemma {:induction false} DedupOfDistinct(s: seq<string>)
    requires NoDuplicates(s)
    ensures Dedup(s) == s
    decreases |s|
  {
    if s != [] {
      var n := |s| - 1;
      DedupOfDistinct(s[..n]);
      assert s[n] !in s[..n];
      assert s == s[..n] + [s[n]];
    }
  }

  /** The specification keys of a compared product, in insertion order. */
  function SpecKeys(p: ComparedProduct): (keys: seq<string>)
    ensures |keys| == |p.specifications|
    ensures forall i :: 0 <= i < |keys| ==> keys[i] == p.specifications[i].name
  {
    seq(|p.specifications|, i requires 0 <= i < |p.specifications| => p.specifications[i].name)
  }

  /** Every product's keys, one product after the other. */
  function AllKeys(products: seq<ComparedProduct>): seq<string> {
    if products == [] then [] else AllKeys(products[..|products| - 1]) + SpecKeys(products[|products| - 1])
  }

  /** The `allSpecs` reduction: after each product, the keys so far and the
      product's keys, passed through a Set. */
  function AllSpecs(products: seq<ComparedProduct>): (r: seq<string>)
    ensures forall x :: x in r <==> x in AllKeys(products)
  {
    if products == [] then []
    else Dedup(AllSpecs(products[..|products| - 1]) + SpecKeys(products[|products| - 1]))
  }

  /** The step-by-step union is one de-duplication of all the keys. */
  lemma {:induction false} AllSpecsIsDedup(products: seq<ComparedProduct>)
    ensures AllSpecs(products) == Dedup(AllKeys(products))
  {
    if products != [] {
      var n := |products| - 1;
      AllSpecsIsDedup(products[..n]);
      DedupAppend(AllKeys(products[..n]), SpecKeys(products[n]));
    }
  }

  lemma {:induction false} InAllKeys(products: seq<ComparedProduct>, x: string)
    ensures x in AllKeys(products) <==>
      exists i, j :: 0 <= i < |products| && 0 <= j < |products[i].specifications| &&
        products[i].specifications[j].name == x
  {
    if products != [] {
      var n := |products| - 1;
      InAllKeys(products[..n], x);
      if x in SpecKeys(products[n]) {
        var j :| 0 <= j < |SpecKeys(products[n])| && SpecKeys(products[n])[j] == x;
        assert products[n].specifications[j].name == x;
      }
      if exists i, j :: 0 <= i < |products| && 0 <= j < |products[i].specifications| &&
          products[i].specifications[j].name == x {
        var i, j :| 0 <= i < |products| && 0 <= j < |products[i].specifications| &&
          products[i].specifications[j].name == x;
        if i < n {
          assert products[..n][i] == products[i];
        } else {
          assert SpecKeys(products[n])[j] == x;
        }
      }
    }
  }

  /** `allSpecs` names every specification key of every product, each
      exactly once, in the order the keys first appear. */
  lemma AllSpecsUnion(products: seq<ComparedProduct>)
    ensures NoDuplicates(AllSpecs(products))
    ensures forall x :: x in AllSpecs(products) <==>
      exists i, j :: 0 <= i < |products| && 0 <= j < |products[i].specifications| &&
        products[i].specifications[j].name == x
    ensures forall i, j :: 0 <= i < j < |AllSpecs(products)| ==>
      FirstIndex(AllKeys(products), AllSpecs(products)[i]) <
      FirstIndex(AllKeys(products), AllSpecs(products)[j])
  {
    AllSpecsIsDedup(products);
    DedupOrder(AllKeys(products));
    forall x ensures x in AllSpecs(products) <==>
      exists i, j :: 0 <= i < |products| && 0 <= j < |products[i].specifications| &&
        products[i].specifications[j].name == x
    {
      InAllKeys(products, x);
    }
  }

  // ---------------------------------------------------------------------
  // priceCategory and ratingQuality
  // ---------------------------------------------------------------------

  /** `price < 100 ? ... : price < 200 ? ... : "premium"`; both comparisons
      are false for NaN, which therefore reads "premium". */
  function PriceCategory(price: Number): (category: string)
    ensures category in {"económico", "rango medio", "premium"}
    ensures price.NaN? ==> category == "premium"
  {
    if price.Finite? && price.r < 100.0 then "económico"
    else if price.Finite? && price.r < 200.0 then "rango medio"
    else "premium"
  }

  /** The rank of a price category, cheapest first. */
  function PriceRank(category: string): nat {
    if category == "económico" then 0 else if category == "rango medio" then 1 else 2
  }

  /** The price category steps up at exactly 100 and 200, never goes down
      as the price rises, and is "premium" for a price that is not a number. */
  lemma PriceCategoryThresholds(p: real, q: real)
    ensures PriceCategory(Finite(p)) == "económico" <==> p < 100.0
    ensures PriceCategory(Finite(p)) == "rango medio" <==> 100.0 <= p < 200.0
    ensures PriceCategory(Finite(p)) == "premium" <==> 200.0 <= p
    ensures p <= q ==> PriceRank(PriceCategory(Finite(p))) <= PriceRank(PriceCategory(Finite(q)))
    ensures PriceCategory(NaN) == "premium"
  {
    assert "económico"[0] == 'e' && "rango medio"[0] == 'r' && "premium"[0] == 'p';
  }

  /** `rating >= 4.5 ? ... : rating >= 4.0 ? ... : rating >= 3.5 ? ... :
      "aceptable"`. */
  function RatingQuality(rating: real): (quality: string)
    ensures quality in {"excelente", "muy buena", "buena", "aceptable"}
  {
    if rating >= 4.5 then "excelente"
    else if rating >= 4.0 then "muy buena"
    else if rating >= 3.5 then "buena"
    else "aceptable"
  }

  function QualityRank(quality: string): nat {
    if quality == "aceptable" then 0
    else if quality == "buena" then 1
    else if quality == "muy buena" then 2
    else 3
  }

  /** The rating quality steps up at exactly 3.5, 4.0 and 4.5 and never
      goes down as the rating rises. */
  lemma RatingQualityThresholds(a: real, b: real)
    ensures RatingQuality(a) == "excelente" <==> 4.5 <= a
    ensures RatingQuality(a) == "muy buena" <==> 4.0 <= a < 4.5
    ensures RatingQuality(a) == "buena" <==> 3.5 <= a < 4.0
    ensures RatingQuality(a) == "aceptable" <==> a < 3.5
    ensures a <= b ==> QualityRank(RatingQuality(a)) <= QualityRank(RatingQuality(b))
  {
    assert "excelente"[0] == 'e' && "muy buena"[0] == 'm';
    assert "buena"[0] == 'b' && "aceptable"[0] == 'a';
  }

  // ---------------------------------------------------------------------
  // The viewer component
  // ---------------------------------------------------------------------

  datatype Tab = ResultsTabName | HistoryTabName

  /** What the tabs widget displays: the results tab's content, or the
      history tab's cards. */
  datatype Screen =
    | ResultsScreen(shown: Option<(Template, FunctionResult)>)
    | HistoryScreen(cards: seq<FunctionResult>)

  class Viewer {
    var isDialogOpen: bool
    var newSiteName: string
    var newSiteUrl: string
    var activeTab: Tab

    /** The viewer as first rendered: dialog closed and empty, on the
        results tab. */
    constructor ()
      ensures !isDialogOpen && newSiteName == "" && newSiteUrl == ""
      ensures activeTab == ResultsTabName
    {
      isDialogOpen := false;
      newSiteName := "";
      newSiteUrl := "";
      activeTab := ResultsTabName;
    }

    /** `handleChangeSite`: with both fields filled in, the page's site is
        replaced by the typed name and the normalised URL, and the dialog
        is cleared and closed; otherwise nothing changes. */
    method HandleChangeSite(page: Session)
      modifies this, page
      ensures old(newSiteName) != "" && old(newSiteUrl) != "" ==>
        && page.currentSite == Site(old(newSiteName), NormalizeUrl(old(newSiteUrl)))
        && !isDialogOpen && newSiteName == "" && newSiteUrl == ""
      ensures !(old(newSiteName) != "" && old(newSiteUrl) != "") ==>
        && page.currentSite == old(page.currentSite)
        && isDialogOpen == old(isDialogOpen)
        && newSiteName == old(newSiteName) && newSiteUrl == old(newSiteUrl)
      ensures page.functionResults == old(page.functionResults)
      ensures activeTab == old(activeTab)
    {
      if newSiteName != "" && newSiteUrl != "" {
        var url := if StartsWith(newSiteUrl, "http") then newSiteUrl else "https://" + newSiteUrl;
        page.ChangeSite(Site(newSiteName, url));
        isDialogOpen := false;
        newSiteName := "";
        newSiteUrl := "";
      }
    }

    /** What the viewer displays for a history: the active tab's content. */
    function Shown(results: seq<FunctionResult>): Screen
      reads this
    {
      match activeTab
      case ResultsTabName => ResultsScreen(ResultsTab(results))
      case HistoryTabName => HistoryScreen(HistoryListing(results))
    }

    /** Clicking any card of the history listing switches to the results
        tab, which then shows the latest result in its tag's template,
        whichever card was clicked. */
    method ClickHistoryCard(results: seq<FunctionResult>, card: nat)
      requires card < |HistoryListing(results)|
      modifies this
      ensures activeTab == ResultsTabName
      ensures Shown(results) ==
        ResultsScreen(Some((DisplayFor(results[|results| - 1].tag), results[|results| - 1])))
      ensures isDialogOpen == old(isDialogOpen)
      ensures newSiteName == old(newSiteName) && newSiteUrl == old(newSiteUrl)
    {
      activeTab := ResultsTabName;
    }
  }
}
