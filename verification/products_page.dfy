/**
 * The products page's filter state: the filters sent to the catalogue and
 * the two price-range text inputs, with the category, price and clear
 * transitions the sidebar triggers.
 */
module ProductsPage {
  import opened Wrappers
  import opened JsValues
  import opened Types
  import ProductService

  datatype PriceRange = PriceRange(min: string, max: string)

  datatype PageState = PageState(filters: ProductFilters, priceRange: PriceRange)

  /** `searchParams.get(name) || undefined`: a missing or empty URL parameter is no filter. */
  function FromUrl(v: Option<string>): (r: Option<string>)
    ensures r.Some? ==> r == v && |r.value| > 0
    ensures v.Some? && |v.value| > 0 ==> r == v
  {
    if v.Some? && |v.value| > 0 then v else None
  }

  /** The page opens with only the URL's `search` and `category` as filters and empty price inputs. */
  function Initial(urlSearch: Option<string>, urlCategory: Option<string>): (s: PageState)
    ensures s.filters.minPrice.None? && s.filters.maxPrice.None? && s.filters.rating.None?
    ensures s.filters.search == FromUrl(urlSearch) && s.filters.category == FromUrl(urlCategory)
    ensures s.priceRange == PriceRange("", "")
  {
    PageState(NoFilters.(search := FromUrl(urlSearch), category := FromUrl(urlCategory)), PriceRange("", ""))
  }

  /** Everything but the category is the same in both filter sets. */
  predicate SameButCategory(a: ProductFilters, b: ProductFilters) {
    a.minPrice == b.minPrice && a.maxPrice == b.maxPrice && a.rating == b.rating && a.search == b.search
  }

  /** `handleCategoryChange(category)`: the `all` radio removes the category filter. */
  function CategoryChange(s: PageState, category: string): (r: PageState)
    ensures category == "all" ==> r.filters.category.None?
    ensures category != "all" ==> r.filters.category == Some(category)
    ensures SameButCategory(r.filters, s.filters)
    ensures r.priceRange == s.priceRange
  {
    if category == "all" then s.(filters := s.filters.(category := None))
    else s.(filters := s.filters.(category := Some(category)))
  }

  /** `handlePriceFilter()`: a non-empty input sets its bound through `Number`; an empty one keeps the old bound. */
  function ApplyPriceFilter(s: PageState): (r: PageState)
    ensures TruthyText(s.priceRange.min) ==> r.filters.minPrice == Some(NumberOf(s.priceRange.min))
    ensures !TruthyText(s.priceRange.min) ==> r.filters.minPrice == s.filters.minPrice
    ensures TruthyText(s.priceRange.max) ==> r.filters.maxPrice == Some(NumberOf(s.priceRange.max))
    ensures !TruthyText(s.priceRange.max) ==> r.filters.maxPrice == s.filters.maxPrice
    ensures r.filters.category == s.filters.category && r.filters.search == s.filters.search
    ensures r.filters.rating == s.filters.rating && r.priceRange == s.priceRange
  {
    var f1 := if TruthyText(s.priceRange.min) then s.filters.(minPrice := Some(NumberOf(s.priceRange.min))) else s.filters;
    var f2 := if TruthyText(s.priceRange.max) then f1.(maxPrice := Some(NumberOf(s.priceRange.max))) else f1;
    s.(filters := f2)
  }

  /** `clearFilters()`. */
  function ClearFilters(s: PageState): (r: PageState)
    ensures r.filters == NoFilters && r.priceRange == PriceRange("", "")
    ensures ProductService.QueryParams(Some(r.filters)) == []
  {
    PageState(NoFilters, PriceRange("", ""))
  }

  /** After choosing `all`, the catalogue request carries no category; after another non-empty choice, exactly that one. */
  lemma CategoryReachesQuery(s: PageState, category: string)
    ensures var ps := ProductService.QueryParams(Some(CategoryChange(s, category).filters));
            ProductService.Lookup(ps, ProductService.CategoryKey) ==
              if category == "all" || category == "" then None else Some(category)
  {
  }

  /**
   * Entering "0" as the minimum price sets a filter of 0 (a non-empty input
   * is truthy), which the catalogue request then drops (0 is falsy).
   */
  lemma ZeroMinimumIsSilentlyDropped(s: PageState)
    requires s.priceRange.min == "0"
    ensures ApplyPriceFilter(s).filters.minPrice == Some(Num(0))
    ensures ProductService.Lookup(ProductService.QueryParams(Some(ApplyPriceFilter(s).filters)),
                                  ProductService.MinPriceKey).None?
  {
    assert NumberOf("0") == Num(0) by {
      assert AllDigits("0");
    }
  }

  /** A bound entered as the text of a non-zero number reaches the request as the same text. */
  lemma PriceBoundReachesQuery(s: PageState, bound: int)
    requires bound != 0 && s.priceRange.max == IntToString(bound)
    ensures ProductService.Lookup(ProductService.QueryParams(Some(ApplyPriceFilter(s).filters)),
                                  ProductService.MaxPriceKey) == Some(IntToString(bound))
  {
    NumberOfIntToString(bound);
  }
}
