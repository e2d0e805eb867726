/** The listing logic of `src/pages/Shop.tsx`: attribute filters over the
    catalogue, pages of twelve products, the pagination bar with its window of
    page numbers and ellipses, and the de-duplicated filter options. */
module Shop {
  import opened Wrappers
  import opened Lists
  import opened Products

  const ProductsPerPage := 12

  /** How many pages the pagination window shows on each side of the current page. */
  const Delta := 2

  /** One entry of the pagination bar: a page button or `...`. */
  datatype PageEntry = PageNumber(n: int) | Ellipsis

  function Max(a: int, b: int): int { if a >= b then a else b }
  function Min(a: int, b: int): int { if a <= b then a else b }

  /** The page numbers lo, lo+1, ..., hi (none when lo > hi). */
  function Run(lo: int, hi: int): (r: seq<PageEntry>)
    ensures |r| == if lo > hi then 0 else hi - lo + 1
    ensures forall i :: 0 <= i < |r| ==> r[i] == PageNumber(lo + i)
    decreases hi - lo
  {
    if lo > hi then [] else Run(lo, hi - 1) + [PageNumber(hi)]
  }

  /** Window bounds around the current page, kept inside the pages 2 .. total-1. */
  function WindowLow(current: int): int { Max(2, current - Delta) }
  function WindowHigh(current: int, total: int): int { Min(total - 1, current + Delta) }

  /** The pagination bar: page 1, an ellipsis when the window starts past 3, the window,
      an ellipsis when it ends before total-2, and the last page. */
  function VisiblePages(current: int, total: int): (r: seq<PageEntry>)
    ensures 2 <= |r| <= 2 * Delta + 5
  {
    [PageNumber(1)]
    + (if current - Delta > 2 then [Ellipsis] else [])
    + Run(WindowLow(current), WindowHigh(current, total))
    + (if current + Delta < total - 1 then [Ellipsis] else [])
    + [PageNumber(total)]
  }

  /** `getVisiblePages`: fill the window with a loop, then surround it with the first
      page, the last page and the ellipses. */
  method GetVisiblePages(current: int, total: int) returns (rangeWithDots: seq<PageEntry>)
    ensures rangeWithDots == VisiblePages(current, total)
  {
    var range: seq<PageEntry> := [];
    var lo := Max(2, current - Delta);
    var hi := Min(total - 1, current + Delta);
    var i := lo;
    while i <= hi
      invariant lo <= i <= Max(lo, hi + 1)
      invariant range == Run(lo, i - 1)
      decreases hi - i
    {
      range := range + [PageNumber(i)];
      i := i + 1;
    }
    assert range == Run(WindowLow(current), WindowHigh(current, total));
    ghost var pre: seq<PageEntry> := if current - Delta > 2 then [Ellipsis] else [];
    ghost var post: seq<PageEntry> := if current + Delta < total - 1 then [Ellipsis] else [];
    if current - Delta > 2 {
      rangeWithDots := [PageNumber(1), Ellipsis];
    } else {
      rangeWithDots := [PageNumber(1)];
    }
    assert rangeWithDots == [PageNumber(1)] + pre;
    rangeWithDots := rangeWithDots + range;
    if current + Delta < total - 1 {
      rangeWithDots := rangeWithDots + [Ellipsis, PageNumber(total)];
    } else {
      rangeWithDots := rangeWithDots + [PageNumber(total)];
    }
    assert rangeWithDots == [PageNumber(1)] + pre + range + post + [PageNumber(total)];
  }

  /** The page numbers of a bar, ellipses dropped. */
  function Numbers(entries: seq<PageEntry>): seq<int>
  {
    if entries == [] then []
    else (if entries[0].PageNumber? then [entries[0].n] else []) + Numbers(entries[1..])
  }

  lemma {:induction false} NumbersAppend(a: seq<PageEntry>, b: seq<PageEntry>)
    ensures Numbers(a + b) == Numbers(a) + Numbers(b)
  {
    if a == [] {
      assert a + b == b;
    } else {
      var ab := a + b;
      assert ab[0] == a[0] && ab[1..] == a[1..] + b;
      NumbersAppend(a[1..], b);
      var head := if a[0].PageNumber? then [a[0].n] else [];
      assert Numbers(ab) == head + Numbers(a[1..] + b);
      assert Numbers(a) == head + Numbers(a[1..]);
    }
  }

  lemma {:induction false} NumbersOfRun(lo: int, hi: int)
    ensures |Numbers(Run(lo, hi))| == |Run(lo, hi)|
    ensures forall i :: 0 <= i < |Run(lo, hi)| ==> Numbers(Run(lo, hi))[i] == lo + i
    decreases hi - lo
  {
    if lo <= hi {
      NumbersOfRun(lo, hi - 1);
      NumbersAppend(Run(lo, hi - 1), [PageNumber(hi)]);
    }
  }

  predicate StrictlyIncreasing(xs: seq<int>)
  {
    forall i, j :: 0 <= i < j < |xs| ==> xs[i] < xs[j]
  }

  /** The bar as its five parts. */
  lemma VisiblePagesParts(current: int, total: int)
    ensures VisiblePages(current, total)
      == [PageNumber(1)] + (if current - Delta > 2 then [Ellipsis] else [])
         + Run(WindowLow(current), WindowHigh(current, total))
         + (if current + Delta < total - 1 then [Ellipsis] else []) + [PageNumber(total)]
  {
  }

  /** For a current page within 1..total and at least two pages: the bar starts with page 1
      and ends with the last page, and it has an ellipsis after page 1 exactly when
      current-2 > 2 and before the last page exactly when current+2 < total-1. */
  lemma VisiblePagesEnds(current: int, total: int)
    requires 2 <= total && 1 <= current <= total
    ensures |VisiblePages(current, total)| >= 2
    ensures VisiblePages(current, total)[0] == PageNumber(1)
    ensures VisiblePages(current, total)[|VisiblePages(current, total)| - 1] == PageNumber(total)
    ensures VisiblePages(current, total)[1] == Ellipsis <==> current - Delta > 2
    ensures VisiblePages(current, total)[|VisiblePages(current, total)| - 2] == Ellipsis
            <==> current + Delta < total - 1
  {
    var lo, hi := WindowLow(current), WindowHigh(current, total);
    var pre: seq<PageEntry> := if current - Delta > 2 then [Ellipsis] else [];
    var post: seq<PageEntry> := if current + Delta < total - 1 then [Ellipsis] else [];
    var run := Run(lo, hi);
    var pages := VisiblePages(current, total);
    VisiblePagesParts(current, total);
    assert pages == [PageNumber(1)] + pre + run + post + [PageNumber(total)];
    // With an ellipsis on either side the window is not empty.
    assert current - Delta > 2 || current + Delta < total - 1 ==> lo <= hi;
  }

  /** Between page 1 and the last page the bar shows exactly the window
      max(2, current-2) .. min(total-1, current+2), so its page numbers strictly increase. */
  lemma VisiblePagesNumbers(current: int, total: int)
    requires 2 <= total && 1 <= current <= total
    ensures Numbers(VisiblePages(current, total))
      == [1] + Numbers(Run(WindowLow(current), WindowHigh(current, total))) + [total]
    ensures StrictlyIncreasing(Numbers(VisiblePages(current, total)))
  {
    var lo, hi := WindowLow(current), WindowHigh(current, total);
    var pre: seq<PageEntry> := if current - Delta > 2 then [Ellipsis] else [];
    var post: seq<PageEntry> := if current + Delta < total - 1 then [Ellipsis] else [];
    var run := Run(lo, hi);
    VisiblePagesParts(current, total);
    NumbersAppend([PageNumber(1)], pre);
    NumbersAppend([PageNumber(1)] + pre, run);
    NumbersAppend([PageNumber(1)] + pre + run, post);
    NumbersAppend([PageNumber(1)] + pre + run + post, [PageNumber(total)]);
    assert Numbers([PageNumber(1)]) == [1];
    assert Numbers([PageNumber(total)]) == [total];
    assert Numbers(pre) == [] && Numbers(post) == [];
    BracketedRunIncreasing(lo, hi, total);
  }

  /** A run of pages inside 2 .. total-1, with page 1 before it and `total` after it,
      is strictly increasing. */
  lemma BracketedRunIncreasing(lo: int, hi: int, total: int)
    requires 2 <= lo && hi <= total - 1 && 2 <= total
    ensures StrictlyIncreasing([1] + Numbers(Run(lo, hi)) + [total])
  {
    var run := Numbers(Run(lo, hi));
    var nums := [1] + run + [total];
    NumbersOfRun(lo, hi);
    forall i, j | 0 <= i < j < |nums| ensures nums[i] < nums[j] {
      if 0 < i && j < |nums| - 1 {
        assert nums[i] == run[i - 1] && nums[j] == run[j - 1];
      } else if 0 < i {
        assert nums[i] == run[i - 1];
      } else if j < |nums| - 1 {
        assert nums[j] == run[j - 1];
      }
    }
  }

  /** What the pagination component renders: nothing for a single page; otherwise the
      bar, with "previous" disabled on page 1 and "next" disabled on the last page. */
  datatype PaginationView = PaginationView(previousDisabled: bool, nextDisabled: bool, pages: seq<PageEntry>)

  function Pagination(current: int, total: int): (r: Option<PaginationView>)
    ensures r.None? <==> total <= 1
    ensures r.Some? ==> (r.value.previousDisabled <==> current == 1) && (r.value.nextDisabled <==> current == total)
    ensures r.Some? ==> r.value.pages == VisiblePages(current, total)
  {
    if total <= 1 then None
    else Some(PaginationView(current == 1, current == total, VisiblePages(current, total)))
  }

  // ---------------------------------------------------------------------------
  // Filters

  /** A search parameter filters only when it is present and not empty. */
  predicate Active(selected: Option<string>)
  {
    selected.Some? && selected.value != ""
  }

  /** A product passes every active filter. */
  predicate Matches(p: Product, category: Option<string>, material: Option<string>, productType: Option<string>)
  {
    && (Active(category) ==> p.category == category.value)
    && (Active(material) ==> p.material == material.value)
    && (Active(productType) ==> p.productType == productType.value)
  }

  function Filtered(all: seq<Product>, category: Option<string>, material: Option<string>,
                    productType: Option<string>): (r: seq<Product>)
    ensures |r| <= |all|
    ensures forall i :: 0 <= i < |r| ==> Matches(r[i], category, material, productType)
  {
    Filter(all, (p: Product) => Matches(p, category, material, productType))
  }

  /** The filter effect's body: start from all products and narrow once per active filter. */
  method ApplyFilters(all: seq<Product>, category: Option<string>, material: Option<string>,
                      productType: Option<string>) returns (filtered: seq<Product>)
    ensures filtered == Filtered(all, category, material, productType)
  {
    ghost var sofar: Product -> bool := (p: Product) => true;
    FilterAllTrue(all, sofar);
    filtered := all;
    if Active(category) {
      ghost var next := (p: Product) => p.category == category.value;
      FilterTwice(all, sofar, next, next);
      filtered := Filter(filtered, (p: Product) => p.category == category.value);
      sofar := next;
    }
    if Active(material) {
      ghost var both := (p: Product) => sofar(p) && p.material == material.value;
      FilterTwice(all, sofar, (p: Product) => p.material == material.value, both);
      filtered := Filter(filtered, (p: Product) => p.material == material.value);
      sofar := both;
    }
    if Active(productType) {
      ghost var both := (p: Product) => sofar(p) && p.productType == productType.value;
      FilterTwice(all, sofar, (p: Product) => p.productType == productType.value, both);
      filtered := Filter(filtered, (p: Product) => p.productType == productType.value);
      sofar := both;
    }
    FilterExtensional(all, sofar, (p: Product) => Matches(p, category, material, productType));
  }

  lemma {:induction false} FilterExtensional<T>(xs: seq<T>, p: T -> bool, q: T -> bool)
    requires forall x :: p(x) == q(x)
    ensures Filter(xs, p) == Filter(xs, q)
  {
    if xs != [] {
      FilterExtensional(xs[1..], p, q);
    }
  }

  /** The filtered list keeps the catalogue order, holds only products that pass every
      active filter, holds each such product as often as the catalogue does, and is the
      whole catalogue when no filter is active. */
  lemma FilteredSpec(all: seq<Product>, category: Option<string>, material: Option<string>,
                     productType: Option<string>)
    ensures var r := Filtered(all, category, material, productType);
      && IsSubsequence(r, all)
      && (forall p :: p in r ==> Matches(p, category, material, productType))
      && (forall p :: Matches(p, category, material, productType) ==> multiset(r)[p] == multiset(all)[p])
      && (!Active(category) && !Active(material) && !Active(productType) ==> r == all)
  {
    var keep := (p: Product) => Matches(p, category, material, productType);
    FilterIsSubsequence(all, keep);
    FilterKeepsOnlyMatches(all, keep);
    FilterCounts(all, keep);
    if !Active(category) && !Active(material) && !Active(productType) {
      FilterAllTrue(all, keep);
    }
  }

  // ---------------------------------------------------------------------------
  // Pages

  /** `Math.ceil(count / 12)`. */
  function TotalPages(count: nat): (r: nat)
    ensures r * ProductsPerPage >= count
    ensures r > 0 ==> (r - 1) * ProductsPerPage < count
    ensures r == 0 <==> count == 0
  {
    (count + ProductsPerPage - 1) / ProductsPerPage
  }

  /** `filtered.slice((page - 1) * 12, (page - 1) * 12 + 12)`. */
  function PageItems(filtered: seq<Product>, page: int): (r: seq<Product>)
    ensures |r| <= ProductsPerPage
    ensures page >= 1 ==> forall k :: 0 <= k < |r| ==>
      (page - 1) * ProductsPerPage + k < |filtered| && r[k] == filtered[(page - 1) * ProductsPerPage + k]
  {
    var start := (page - 1) * ProductsPerPage;
    Slice(filtered, start, start + ProductsPerPage)
  }

  /** Every filtered product appears on exactly the page its position gives, and that page
      is between 1 and the page count. */
  lemma EveryProductOnItsPage(filtered: seq<Product>, i: nat)
    requires i < |filtered|
    ensures var page := i / ProductsPerPage + 1;
      && 1 <= page <= TotalPages(|filtered|)
      && i % ProductsPerPage < |PageItems(filtered, page)|
      && PageItems(filtered, page)[i % ProductsPerPage] == filtered[i]
  {
    var page := i / ProductsPerPage + 1;
    var start := (page - 1) * ProductsPerPage;
    assert start + i % ProductsPerPage == i;
  }

  // ---------------------------------------------------------------------------
  // Filter options

  /** `[...new Set(xs)]` minus the values in `seen`: first occurrences, in order. */
  function Distinct(xs: seq<string>, seen: set<string>): (r: seq<string>)
    ensures NoDuplicates(r)
    ensures forall x :: x in r <==> x in xs && x !in seen
    ensures |r| <= |xs|
  {
    if xs == [] then []
    else if xs[0] in seen then Distinct(xs[1..], seen)
    else
      var rest := Distinct(xs[1..], seen + {xs[0]});
      assert forall x :: x in xs <==> x == xs[0] || x in xs[1..];
      [xs[0]] + rest
  }

  /** `[...new Set(xs)].filter(Boolean)`: the distinct non-empty values. */
  function OptionList(xs: seq<string>): (r: seq<string>)
    ensures |r| <= |xs|
    ensures forall i :: 0 <= i < |r| ==> r[i] != ""
  {
    Filter(Distinct(xs, {}), (s: string) => s != "")
  }

  /** The option list holds each non-empty value of the input once, and nothing else. */
  lemma OptionListSpec(xs: seq<string>)
    ensures NoDuplicates(OptionList(xs))
    ensures forall x :: x in OptionList(xs) <==> x in xs && x != ""
  {
    var d := Distinct(xs, {});
    var r := OptionList(xs);
    FilterKeepsOnlyMatches(d, (s: string) => s != "");
    FilterCounts(d, (s: string) => s != "");
    FilterNoDuplicates(d, (s: string) => s != "");
    assert forall x :: x in d && x != "" ==> multiset(r)[x] == multiset(d)[x] > 0;
  }

  lemma {:induction false} FilterNoDuplicates(xs: seq<string>, p: string -> bool)
    requires NoDuplicates(xs)
    ensures NoDuplicates(Filter(xs, p))
  {
    if xs != [] {
      FilterNoDuplicates(xs[1..], p);
      FilterKeepsOnlyMatches(xs[1..], p);
      if p(xs[0]) {
        var r := Filter(xs, p);
        assert r == [xs[0]] + Filter(xs[1..], p);
        assert xs[0] !in xs[1..];
        forall i, j | 0 <= i < j < |r| ensures r[i] != r[j] {
          if i == 0 {
            assert r[j] in Filter(xs[1..], p);
          } else {
            assert r[i] == Filter(xs[1..], p)[i - 1] && r[j] == Filter(xs[1..], p)[j - 1];
          }
        }
      }
    }
  }

  /** One attribute of every product, in catalogue order (`products.map(p => p.category)`). */
  function Column(ps: seq<Product>, attribute: Product -> string): (r: seq<string>)
    ensures |r| == |ps|
  {
    if ps == [] then [] else [attribute(ps[0])] + Column(ps[1..], attribute)
  }

  lemma {:induction false} ColumnAt(ps: seq<Product>, attribute: Product -> string, i: int)
    requires 0 <= i < |ps|
    ensures Column(ps, attribute)[i] == attribute(ps[i])
  {
    if i > 0 {
      ColumnAt(ps[1..], attribute, i - 1);
    }
  }

  function Categories(ps: seq<Product>): seq<string>
  {
    OptionList(Column(ps, (p: Product) => p.category))
  }

  function Materials(ps: seq<Product>): seq<string>
  {
    OptionList(Column(ps, (p: Product) => p.material))
  }

  function Types(ps: seq<Product>): seq<string>
  {
    OptionList(Column(ps, (p: Product) => p.productType))
  }

  /** An option list built from one attribute holds every non-empty value some product has
      for it, once, and nothing else. */
  lemma ColumnOptionsSpec(ps: seq<Product>, attribute: Product -> string, v: string)
    ensures NoDuplicates(OptionList(Column(ps, attribute)))
    ensures v in OptionList(Column(ps, attribute))
            <==> v != "" && exists i :: 0 <= i < |ps| && attribute(ps[i]) == v
  {
    OptionListSpec(Column(ps, attribute));
    ColumnHas(ps, attribute, v);
  }

  /** A value is in the column exactly when some product has it. */
  lemma ColumnHas(ps: seq<Product>, attribute: Product -> string, v: string)
    ensures v in Column(ps, attribute) <==> exists i :: 0 <= i < |ps| && attribute(ps[i]) == v
  {
    var col := Column(ps, attribute);
    if exists i :: 0 <= i < |ps| && attribute(ps[i]) == v {
      var i :| 0 <= i < |ps| && attribute(ps[i]) == v;
      ColumnAt(ps, attribute, i);
    }
    if v in col {
      var i :| 0 <= i < |col| && col[i] == v;
      ColumnAt(ps, attribute, i);
    }
  }

  /** The message the shop shows when the catalogue cannot be fetched. */
  const LoadError := "Error al cargar los productos. Por favor, intenta nuevamente."

  /** The three filter menus of the shop. */
  datatype FilterOptions = FilterOptions(categories: seq<string>, materials: seq<string>, types: seq<string>)

  function Options(ps: seq<Product>): FilterOptions
  {
    FilterOptions(Categories(ps), Materials(ps), Types(ps))
  }

  /** The three filter menus: each lists every non-empty category, material or type some
      product has, once, and nothing else. */
  lemma OptionListsSpec(ps: seq<Product>, v: string)
    ensures NoDuplicates(Categories(ps)) && NoDuplicates(Materials(ps)) && NoDuplicates(Types(ps))
    ensures v in Categories(ps) <==> v != "" && exists i :: 0 <= i < |ps| && ps[i].category == v
    ensures v in Materials(ps) <==> v != "" && exists i :: 0 <= i < |ps| && ps[i].material == v
    ensures v in Types(ps) <==> v != "" && exists i :: 0 <= i < |ps| && ps[i].productType == v
  {
    ColumnOptionsSpec(ps, (p: Product) => p.category, v);
    ColumnOptionsSpec(ps, (p: Product) => p.material, v);
    ColumnOptionsSpec(ps, (p: Product) => p.productType, v);
  }

  // ---------------------------------------------------------------------------
  // The page state

  /** The shop page: the catalogue, the filter parameters of the URL, the filtered list,
      the current page and the products shown on it, and the option lists. */
  class ShopPage {
    var allProducts: seq<Product>
    var filteredProducts: seq<Product>
    var products: seq<Product>
    var currentPage: int
    var selectedCategory: Option<string>
    var selectedMaterial: Option<string>
    var selectedType: Option<string>
    var options: FilterOptions
    var error: Option<string>

    /** The shown products are the current page of the filtered list. */
    ghost predicate Valid()
      reads this
    {
      products == PageItems(filteredProducts, currentPage)
    }

    /** Once products are loaded, the filtered list follows the catalogue and the filters. */
    ghost predicate FiltersApplied()
      reads this
    {
      filteredProducts == Filtered(allProducts, selectedCategory, selectedMaterial, selectedType)
    }

    constructor (category: Option<string>, material: Option<string>, productType: Option<string>)
      ensures Valid() && FiltersApplied()
      ensures allProducts == [] && products == [] && currentPage == 1
      ensures selectedCategory == category && selectedMaterial == material && selectedType == productType
    {
      allProducts, filteredProducts, products := [], [], [];
      currentPage := 1;
      selectedCategory, selectedMaterial, selectedType := category, material, productType;
      options := FilterOptions([], [], []);
      error := None;
    }

    /** The filter effect: nothing happens while the catalogue is empty; otherwise refilter
        and go back to page 1 (then the page effect runs). */
    method FilterEffect()
      requires Valid()
      modifies this`filteredProducts, this`currentPage, this`products
      ensures Valid()
      ensures |allProducts| == 0 ==>
        filteredProducts == old(filteredProducts) && currentPage == old(currentPage) && products == old(products)
      ensures |allProducts| > 0 ==> FiltersApplied() && currentPage == 1
    {
      if |allProducts| == 0 {
        return;
      }
      var filtered := ApplyFilters(allProducts, selectedCategory, selectedMaterial, selectedType);
      filteredProducts := filtered;
      currentPage := 1;
      products := PageItems(filteredProducts, currentPage);
    }

    /** The fetch effect: store the catalogue and its option lists, or record the error;
        every successful fetch stores a new array, so the filter effect runs after it. */
    method Load(response: Result<seq<Product>>)
      requires Valid()
      modifies this`error, this`allProducts, this`options, this`filteredProducts, this`currentPage, this`products
      ensures Valid()
      ensures response.Ok? ==> (allProducts == response.value
        && options == Options(allProducts) && error == None)
      ensures response.Ok? && |response.value| > 0 ==> FiltersApplied() && currentPage == 1
      ensures response.Ok? && |response.value| == 0 ==>
        filteredProducts == old(filteredProducts) && currentPage == old(currentPage) && products == old(products)
      ensures response.Err? ==>
        && allProducts == old(allProducts) && options == old(options) && error == Some(LoadError)
        && filteredProducts == old(filteredProducts) && currentPage == old(currentPage) && products == old(products)
    {
      error := None;
      if response.Err? {
        error := Some(LoadError);
        return;
      }
      allProducts := response.value;
      options := Options(allProducts);
      FilterEffect();
    }

    /** `refreshProducts`: a successful fetch replaces the catalogue (and refilters); a
        failed one changes nothing. The option lists are not rebuilt. */
    method Refresh(response: Result<seq<Product>>)
      requires Valid()
      modifies this`allProducts, this`filteredProducts, this`currentPage, this`products
      ensures Valid()
      ensures response.Ok? ==> allProducts == response.value
      ensures response.Ok? && |response.value| > 0 ==> FiltersApplied() && currentPage == 1
      ensures response.Err? || |allProducts| == 0 ==>
        filteredProducts == old(filteredProducts) && currentPage == old(currentPage) && products == old(products)
      ensures response.Err? ==> allProducts == old(allProducts)
    {
      if response.Ok? {
        allProducts := response.value;
        FilterEffect();
      }
    }

    /** `handleCategoryChange`: a truthy value sets the parameter, anything else deletes it.
        The filter effect depends on the parameter's value, so it runs only when that value
        changes; setting the same category again leaves the page where it is. */
    method CategoryChange(category: Option<string>)
      requires Valid()
      modifies this`selectedCategory, this`filteredProducts, this`currentPage, this`products
      ensures Valid()
      ensures selectedCategory == (if Active(category) then category else None)
      ensures selectedCategory != old(selectedCategory) && |allProducts| > 0 ==> FiltersApplied() && currentPage == 1
      ensures selectedCategory == old(selectedCategory) || |allProducts| == 0 ==>
        filteredProducts == old(filteredProducts) && currentPage == old(currentPage) && products == old(products)
    {
      var previous := selectedCategory;
      selectedCategory := if Active(category) then category else None;
      if selectedCategory != previous {
        FilterEffect();
      }
    }

    /** `handleMaterialChange`, as `CategoryChange` for the material parameter. */
    method MaterialChange(material: Option<string>)
      requires Valid()
      modifies this`selectedMaterial, this`filteredProducts, this`currentPage, this`products
      ensures Valid()
      ensures selectedMaterial == (if Active(material) then material else None)
      ensures selectedMaterial != old(selectedMaterial) && |allProducts| > 0 ==> FiltersApplied() && currentPage == 1
      ensures selectedMaterial == old(selectedMaterial) || |allProducts| == 0 ==>
        filteredProducts == old(filteredProducts) && currentPage == old(currentPage) && products == old(products)
    {
      var previous := selectedMaterial;
      selectedMaterial := if Active(material) then material else None;
      if selectedMaterial != previous {
        FilterEffect();
      }
    }

    /** `handleTypeChange`, as `CategoryChange` for the type parameter. */
    method TypeChange(productType: Option<string>)
      requires Valid()
      modifies this`selectedType, this`filteredProducts, this`currentPage, this`products
      ensures Valid()
      ensures selectedType == (if Active(productType) then productType else None)
      ensures selectedType != old(selectedType) && |allProducts| > 0 ==> FiltersApplied() && currentPage == 1
      ensures selectedType == old(selectedType) || |allProducts| == 0 ==>
        filteredProducts == old(filteredProducts) && currentPage == old(currentPage) && products == old(products)
    {
      var previous := selectedType;
      selectedType := if Active(productType) then productType else None;
      if selectedType != previous {
        FilterEffect();
      }
    }

    /** "Limpiar filtros": every search parameter is removed, so the whole catalogue is
        listed again from page 1; when no parameter was set the filter effect does not run. */
    method ClearFilters()
      requires Valid()
      modifies this`selectedCategory, this`selectedMaterial, this`selectedType,
               this`filteredProducts, this`currentPage, this`products
      ensures Valid()
      ensures selectedCategory == None && selectedMaterial == None && selectedType == None
      ensures old(selectedCategory != None || selectedMaterial != None || selectedType != None) && |allProducts| > 0 ==>
        filteredProducts == allProducts && currentPage == 1
      ensures old(selectedCategory == None && selectedMaterial == None && selectedType == None) || |allProducts| == 0 ==>
        filteredProducts == old(filteredProducts) && currentPage == old(currentPage) && products == old(products)
    {
      var changed := selectedCategory != None || selectedMaterial != None || selectedType != None;
      selectedCategory, selectedMaterial, selectedType := None, None, None;
      if changed {
        FilterEffect();
        if |allProducts| > 0 {
          FilteredSpec(allProducts, None, None, None);
        }
      }
    }

    /** `handlePageChange`, then the page effect. */
    method PageChange(page: int)
      requires Valid()
      modifies this`currentPage, this`products
      ensures Valid() && currentPage == page
    {
      currentPage := page;
      products := PageItems(filteredProducts, currentPage);
    }
  }
}
