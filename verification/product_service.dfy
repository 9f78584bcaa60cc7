/**
 * The catalogue service: serialising filters into the query of
 * `GET /products`, the network fallback to a built-in mock catalogue, the
 * lookup of one product by id, and product creation's error mapping.
 */
module ProductService {
  import opened Wrappers
  import opened JsValues
  import opened Types

  /** The five query keys `getProducts` can send. */
  datatype ParamKey = CategoryKey | MinPriceKey | MaxPriceKey | RatingKey | SearchKey

  /** The key as written in the query; the search text goes under `q`. */
  function KeyName(k: ParamKey): string {
    match k
    case CategoryKey => "category"
    case MinPriceKey => "minPrice"
    case MaxPriceKey => "maxPrice"
    case RatingKey => "rating"
    case SearchKey => "q"
  }

  type Param = (ParamKey, string)

  /** The value of the first parameter with this key. */
  function Lookup(params: seq<Param>, key: ParamKey): (r: Option<string>)
    ensures r.Some? ==> exists i :: 0 <= i < |params| && params[i] == (key, r.value)
    ensures r.None? <==> forall i :: 0 <= i < |params| ==> params[i].0 != key
  {
    if |params| == 0 then None
    else if params[0].0 == key then Some(params[0].1)
    else
      var r := Lookup(params[1..], key);
      assert forall i :: 0 < i < |params| ==> params[1..][i - 1] == params[i];
      r
  }

  lemma LookupConcat(a: seq<Param>, b: seq<Param>, key: ParamKey)
    ensures Lookup(a + b, key) == if Lookup(a, key).Some? then Lookup(a, key) else Lookup(b, key)
    decreases |a|
  {
    if |a| == 0 {
      assert a + b == b;
    } else {
      assert (a + b)[1..] == a[1..] + b;
      LookupConcat(a[1..], b, key);
    }
  }

  /** A text filter that is present and truthy. */
  predicate SentTextTruthy(v: Option<string>) {
    v.Some? && TruthyText(v.value)
  }

  /** A number filter that is present and truthy. */
  predicate SentNumberTruthy(v: Option<JsNumber>) {
    v.Some? && Truthy(v.value)
  }

  /** The value a text filter sends, if it sends one: the empty text is dropped. */
  function SentText(v: Option<string>): Option<string> {
    if SentTextTruthy(v) then v else None
  }

  /** The value a number filter sends, if it sends one: 0 and NaN are dropped. */
  function SentNumber(v: Option<JsNumber>): Option<string> {
    if SentNumberTruthy(v) then Some(IntToString(v.value.n)) else None
  }

  /** The one pair `params.append(key, value)` adds when its guard holds, or nothing. */
  function Piece(key: ParamKey, sent: Option<string>): (ps: seq<Param>)
    ensures forall k :: Lookup(ps, k) == if k == key then sent else None
  {
    if sent.Some? then [(key, sent.value)] else []
  }

  /** The position of each parameter key in the serialisation order. */
  function KeyRank(k: ParamKey): int {
    match k
    case CategoryKey => 0
    case MinPriceKey => 1
    case MaxPriceKey => 2
    case RatingKey => 3
    case SearchKey => 4
  }

  predicate Ordered(ps: seq<Param>) {
    forall i, j :: 0 <= i < j < |ps| ==> KeyRank(ps[i].0) < KeyRank(ps[j].0)
  }

  predicate RanksBelow(ps: seq<Param>, bound: int) {
    forall i :: 0 <= i < |ps| ==> KeyRank(ps[i].0) < bound
  }

  lemma OrderedExtend(a: seq<Param>, key: ParamKey, sent: Option<string>)
    requires Ordered(a) && RanksBelow(a, KeyRank(key))
    ensures Ordered(a + Piece(key, sent)) && RanksBelow(a + Piece(key, sent), KeyRank(key) + 1)
  {
  }

  /** Each truthy filter contributes its one pair, in the order the code appends them. */
  function Params(f: ProductFilters): seq<Param> {
    Piece(CategoryKey, SentText(f.category))
    + Piece(MinPriceKey, SentNumber(f.minPrice))
    + Piece(MaxPriceKey, SentNumber(f.maxPrice))
    + Piece(RatingKey, SentNumber(f.rating))
    + Piece(SearchKey, SentText(f.search))
  }

  /** What a key should be sent with, if anything. */
  function Expected(f: ProductFilters, key: ParamKey): Option<string> {
    match key
    case CategoryKey => SentText(f.category)
    case MinPriceKey => SentNumber(f.minPrice)
    case MaxPriceKey => SentNumber(f.maxPrice)
    case RatingKey => SentNumber(f.rating)
    case SearchKey => SentText(f.search)
  }

  lemma LookupParams(f: ProductFilters, key: ParamKey)
    ensures Lookup(Params(f), key) == Expected(f, key)
  {
    var p1 := Piece(CategoryKey, SentText(f.category));
    var p2 := p1 + Piece(MinPriceKey, SentNumber(f.minPrice));
    var p3 := p2 + Piece(MaxPriceKey, SentNumber(f.maxPrice));
    var p4 := p3 + Piece(RatingKey, SentNumber(f.rating));
    LookupConcat(p1, Piece(MinPriceKey, SentNumber(f.minPrice)), key);
    LookupConcat(p2, Piece(MaxPriceKey, SentNumber(f.maxPrice)), key);
    LookupConcat(p3, Piece(RatingKey, SentNumber(f.rating)), key);
    LookupConcat(p4, Piece(SearchKey, SentText(f.search)), key);
  }

  lemma ParamsOrdered(f: ProductFilters)
    ensures Ordered(Params(f))
  {
    var p1 := Piece(CategoryKey, SentText(f.category));
    var p2 := p1 + Piece(MinPriceKey, SentNumber(f.minPrice));
    var p3 := p2 + Piece(MaxPriceKey, SentNumber(f.maxPrice));
    var p4 := p3 + Piece(RatingKey, SentNumber(f.rating));
    OrderedExtend([], CategoryKey, SentText(f.category));
    assert [] + p1 == p1;
    OrderedExtend(p1, MinPriceKey, SentNumber(f.minPrice));
    OrderedExtend(p2, MaxPriceKey, SentNumber(f.maxPrice));
    OrderedExtend(p3, RatingKey, SentNumber(f.rating));
    OrderedExtend(p4, SearchKey, SentText(f.search));
  }

  /** `getProducts`'s `URLSearchParams`: truthy filters only, in the fixed key order, search under `q`. */
  function QueryParams(filters: Option<ProductFilters>): (ps: seq<Param>)
    ensures filters.None? ==> ps == []
    ensures Ordered(ps)
    ensures filters.Some? ==>
              && Lookup(ps, CategoryKey) == SentText(filters.value.category)
              && Lookup(ps, MinPriceKey) == SentNumber(filters.value.minPrice)
              && Lookup(ps, MaxPriceKey) == SentNumber(filters.value.maxPrice)
              && Lookup(ps, RatingKey) == SentNumber(filters.value.rating)
              && Lookup(ps, SearchKey) == SentText(filters.value.search)
  {
    match filters
    case None => []
    case Some(f) =>
      ParamsOrdered(f);
      LookupParams(f, CategoryKey);
      LookupParams(f, MinPriceKey);
      LookupParams(f, MaxPriceKey);
      LookupParams(f, RatingKey);
      LookupParams(f, SearchKey);
      Params(f)
  }

  /** One `key=value` piece of the query text. */
  function Pair(p: Param): (t: string)
    ensures |t| > |KeyName(p.0)| && t[|KeyName(p.0)|] == '='
  {
    KeyName(p.0) + "=" + p.1
  }

  /**
   * `params.toString()` without percent-encoding: the `key=value` pieces in
   * parameter order, separated by `&`; see `QueryStringJoin`.
   */
  function QueryString(params: seq<Param>): (r: string)
    ensures r == "" <==> |params| == 0
    ensures |params| == 1 ==> r == Pair(params[0])
  {
    if |params| == 0 then ""
    else if |params| == 1 then Pair(params[0])
    else Pair(params[0]) + "&" + QueryString(params[1..])
  }

  /** The query of two non-empty parameter lists is their two queries joined by `&`. */
  lemma {:induction false} QueryStringJoin(a: seq<Param>, b: seq<Param>)
    requires |a| > 0 && |b| > 0
    ensures QueryString(a + b) == QueryString(a) + "&" + QueryString(b)
    decreases |a|
  {
    assert (a + b)[0] == a[0];
    assert (a + b)[1..] == a[1..] + b;
    if |a| > 1 {
      QueryStringJoin(a[1..], b);
    }
  }

  const ProductsPrefix := "/products?"

  /** The catalogue request path: `/products?` followed by the query text. */
  function ProductsPath(filters: Option<ProductFilters>): (path: string)
    ensures |path| >= |ProductsPrefix| && path[..|ProductsPrefix|] == ProductsPrefix
    ensures path[|ProductsPrefix|..] == QueryString(QueryParams(filters))
  {
    ProductsPrefix + QueryString(QueryParams(filters))
  }

  /** A category and a search text become exactly two parameters, the category first. */
  lemma CategoryAndSearchParams(category: string, search: string)
    requires |category| > 0 && |search| > 0
    ensures QueryParams(Some(NoFilters.(category := Some(category), search := Some(search))))
            == [(CategoryKey, category), (SearchKey, search)]
  {
    var f := NoFilters.(category := Some(category), search := Some(search));
    assert SentText(f.category) == Some(category) && SentText(f.search) == Some(search);
    assert SentNumber(f.minPrice) == None && SentNumber(f.maxPrice) == None && SentNumber(f.rating) == None;
    assert Params(f) == [(CategoryKey, category)] + [] + [] + [] + [(SearchKey, search)];
  }

  /** A category and a search text reach the path as `category=…&q=…`, in that order. */
  lemma CategoryAndSearchPath(category: string, search: string)
    requires |category| > 0 && |search| > 0
    ensures ProductsPath(Some(NoFilters.(category := Some(category), search := Some(search))))
            == ProductsPrefix + KeyName(CategoryKey) + "=" + category + "&" + KeyName(SearchKey) + "=" + search
  {
    var a, b := (CategoryKey, category), (SearchKey, search);
    CategoryAndSearchParams(category, search);
    assert [a, b] == [a] + [b];
    QueryStringJoin([a], [b]);
    assert QueryString([a, b]) == Pair(a) + "&" + Pair(b);
  }

  /** Absent or all-falsy filters ask for the whole catalogue with an empty query. */
  lemma EmptyFiltersEmptyQuery(filters: Option<ProductFilters>)
    requires filters.None? || filters == Some(NoFilters)
    ensures ProductsPath(filters) == "/products?"
  {
  }

  /** A minimum price of 0 is truthiness-dropped: it never reaches the server. */
  lemma ZeroPriceDropped(f: ProductFilters)
    requires f.minPrice == Some(Num(0))
    ensures Lookup(QueryParams(Some(f)), MinPriceKey).None?
  {
  }

  // Display texts of the built-in catalogue.
  const HeadphonesDescription := "High-quality wireless headphones with noise cancellation and 30-hour battery life."
  const HeadphonesImage := "https://images.unsplash.com/photo-1505740420928-5e560c06d30e?w=500"
  const SmartWatchDescription := "Feature-rich smartwatch with fitness tracking, heart rate monitor, and GPS."
  const SmartWatchImage := "https://images.unsplash.com/photo-1523275335684-37898b6baf30?w=500"
  const BackpackDescription := "Durable laptop backpack with multiple compartments and USB charging port."
  const BackpackImage := "https://images.unsplash.com/photo-1553062407-98eeb64c6a62?w=500"
  const MouseDescription := "Ergonomic wireless mouse with precision tracking and long battery life."
  const MouseImage := "https://images.unsplash.com/photo-1527814050087-3793815479db?w=500"
  const KeyboardDescription := "RGB mechanical keyboard with Cherry MX switches and customizable keys."
  const KeyboardImage := "https://images.unsplash.com/photo-1587829741301-dc798b83add3?w=500"
  const UsbHubDescription := "Multi-port USB-C hub with HDMI, USB 3.0, and SD card reader."
  const UsbHubImage := "https://images.unsplash.com/photo-1625842268584-8f3296236761?w=500"

  /** The six built-in products (prices in cents, ratings in tenths of a star). */
  function MockProducts(now: string): seq<Product> {
    [ Product("1", "Wireless Bluetooth Headphones", HeadphonesDescription,
              9999, HeadphonesImage, "Electronics", 50, 45, 234, now),
      Product("2", "Smart Watch Pro", SmartWatchDescription,
              24999, SmartWatchImage, "Electronics", 30, 47, 189, now),
      Product("3", "Laptop Backpack", BackpackDescription,
              4999, BackpackImage, "Accessories", 75, 43, 156, now),
      Product("4", "Wireless Mouse", MouseDescription,
              2999, MouseImage, "Electronics", 100, 44, 312, now),
      Product("5", "Mechanical Keyboard", KeyboardDescription,
              12999, KeyboardImage, "Electronics", 40, 46, 278, now),
      Product("6", "USB-C Hub", UsbHubDescription,
              3999, UsbHubImage, "Accessories", 60, 42, 145, now) ]
  }

  const MockIds: seq<string> := ["1", "2", "3", "4", "5", "6"]

  predicate DistinctIds(ps: seq<Product>) {
    forall i, j :: 0 <= i < j < |ps| ==> ps[i].id != ps[j].id
  }

  /** The catalogue has six products, with ids "1" to "6" in order, so lookup by id is unambiguous. */
  lemma MockCatalogueShape(now: string)
    ensures |MockProducts(now)| == 6
    ensures forall i :: 0 <= i < 6 ==> MockProducts(now)[i].id == MockIds[i]
    ensures DistinctIds(MockProducts(now))
  {
  }

  /** `products.find(p => p.id === id)`. */
  function FindProduct(ps: seq<Product>, id: string): (r: Option<Product>)
    ensures r.Some? ==> r.value in ps && r.value.id == id
    ensures r.Some? ==> exists i :: 0 <= i < |ps| && ps[i] == r.value && forall j :: 0 <= j < i ==> ps[j].id != id
    ensures r.None? <==> forall i :: 0 <= i < |ps| ==> ps[i].id != id
  {
    if |ps| == 0 then None
    else if ps[0].id == id then Some(ps[0])
    else
      var r := FindProduct(ps[1..], id);
      assert forall i :: 0 < i < |ps| ==> ps[1..][i - 1] == ps[i];
      r
  }

  /** With distinct ids the product found is the one at the id's position. */
  lemma FindDistinct(ps: seq<Product>, k: int)
    requires DistinctIds(ps)
    requires 0 <= k < |ps|
    ensures FindProduct(ps, ps[k].id) == Some(ps[k])
  {
    var r := FindProduct(ps, ps[k].id);
    assert r.Some?;
    var j :| 0 <= j < |ps| && ps[j] == r.value;
  }

  /** `getProducts(filters)`: the mock catalogue on a network error, otherwise the server's answer or error. */
  function GetProducts(filters: Option<ProductFilters>, api: Result<seq<Product>, Failure>, now: string)
    : (r: Result<seq<Product>, Failure>)
    ensures api == Err(NetworkError) ==> r == Ok(MockProducts(now))
    ensures api != Err(NetworkError) ==> r == api
  {
    match api
    case Ok(_) => api
    case Err(e) => if e == NetworkError then Ok(MockProducts(now)) else api
  }

  const ProductNotFoundMessage := "Product not found"

  function GetProduct(id: string, api: Result<Product, Failure>, now: string): (r: Result<Product, Failure>)
    ensures api != Err(NetworkError) ==> r == api
    ensures api == Err(NetworkError) ==>
              (r.Ok? <==> id in MockIds)
              && (r.Ok? ==> r.value.id == id && r.value in MockProducts(now))
              && (r.Err? ==> r.error == Thrown(ProductNotFoundMessage))
  {
    match api
    case Ok(_) => api
    case Err(e) =>
      if e != NetworkError then api
      else
        MockCatalogueShape(now);
        match FindProduct(MockProducts(now), id)
        case None => Err(Thrown(ProductNotFoundMessage))
        case Some(p) => Ok(p)
  }

  const NoServerMessage :=
    "Unable to connect to the server. Please make sure the backend is running on port 3001. Run \"npm run server\" in another terminal."

  /** `createProduct`: no fallback; an unreachable server (or status 0) becomes an explanatory error. */
  function CreateProduct(api: Result<Product, Failure>): (r: Result<Product, Failure>)
    ensures api.Ok? ==> r == api
    ensures api.Err? && (api.error == NetworkError || api.error == HttpError(0)) ==> r == Err(Thrown(NoServerMessage))
    ensures api.Err? && api.error != NetworkError && api.error != HttpError(0) ==> r == api
  {
    match api
    case Ok(_) => api
    case Err(e) => if e == NetworkError || e == HttpError(0) then Err(Thrown(NoServerMessage)) else api
  }
}
