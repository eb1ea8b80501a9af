/** The frontend's API service (`api.ts`): the query string `getProducts`
    builds from the filter panel, the conversion of the JSON product rows
    into the shape the components use, and what each call returns when the
    request fails. `fetch` is a parameter from URL to response; URL
    percent-encoding is the `encode` parameter. */
module ApiClient {
  import opened JsString
  import opened JsNumber
  import opened Store
  import Products

  // ---------------------------------------------------------------- query parameters

  /** `ProductFilters`: every field optional. */
  datatype Filters = Filters(category: Option<seq<string>>, minPrice: Option<Float>, maxPrice: Option<Float>,
                             featured: Option<bool>, onSale: Option<bool>)

  type Params = seq<(string, string)>

  /** The parameter names in the order `getProducts` appends them. */
  const Names: seq<string> := ["category", "minPrice", "maxPrice", "featured", "onSale"]

  /** The position of a parameter name in `Names`. */
  function Rank(key: string): nat {
    if key == "category" then 0
    else if key == "minPrice" then 1
    else if key == "maxPrice" then 2
    else if key == "featured" then 3
    else 4
  }

  /** The value of the first parameter named `key`, as the server reads it. */
  function Lookup(params: Params, key: string): (r: Option<string>)
    ensures r.Some? ==> (key, r.value) in params
    ensures r.None? <==> forall p :: p in params ==> p.0 != key
  {
    if params == [] then None
    else if params[0].0 == key then Some(params[0].1)
    else Lookup(params[1..], key)
  }

  /** Each name's rank is its position. */
  lemma RankOfNames()
    ensures forall i :: 0 <= i < |Names| ==> Rank(Names[i]) == i
  {
    assert "minPrice"[0] != "category"[0];
    assert "maxPrice"[0] != "category"[0] && "maxPrice"[1] != "minPrice"[1];
    assert "featured"[0] != "category"[0] && "featured"[0] != "minPrice"[0] && "featured"[0] != "maxPrice"[0];
    assert "onSale"[0] != "category"[0] && "onSale"[0] != "minPrice"[0] && "onSale"[0] != "maxPrice"[0]
      && "onSale"[0] != "featured"[0];
  }

  /** `x && x > 0` on a number: NaN, zero and negatives are left out. */
  predicate Sent(x: Option<Float>) {
    x.Some? && IsPositive(x.value)
  }

  predicate HasCategory(f: Filters) {
    f.category.Some? && |f.category.value| > 0
  }

  /** The value `getProducts` appends under `Names[i]`, if any: only the
      first category, only positive prices (as `String(n)` prints them), and
      the two flags as `true` only when set. */
  function Expected(f: Filters, show: Float -> string, i: nat): Option<string>
    requires i < |Names|
  {
    if i == 0 then (if HasCategory(f) then Some(f.category.value[0]) else None)
    else if i == 1 then (if Sent(f.minPrice) then Some(show(f.minPrice.value)) else None)
    else if i == 2 then (if Sent(f.maxPrice) then Some(show(f.maxPrice.value)) else None)
    else if i == 3 then (if f.featured == Some(true) then Some("true") else None)
    else (if f.onSale == Some(true) then Some("true") else None)
  }

  /** How many of the first `n` parameters are appended. */
  function Appended(f: Filters, show: Float -> string, n: nat): nat
    requires n <= |Names|
  {
    if n == 0 then 0 else Appended(f, show, n - 1) + (if Expected(f, show, n - 1).Some? then 1 else 0)
  }

  /** The parameters carry exactly the expected value under each name, in
      the order `getProducts` appends them. */
  predicate Carries(params: Params, f: Filters, show: Float -> string) {
    && (forall i :: 0 <= i < |Names| ==> Lookup(params, Names[i]) == Expected(f, show, i))
    && (forall i, j :: 0 <= i < j < |params| ==> Rank(params[i].0) < Rank(params[j].0))
    && |params| == Appended(f, show, |Names|)
  }

  /** `params` after the first `n` guarded appends. */
  predicate CarriesUpTo(params: Params, f: Filters, show: Float -> string, n: nat) {
    && n <= |Names|
    && (forall p :: p in params ==> Rank(p.0) < n)
    && (forall i :: 0 <= i < n ==> Lookup(params, Names[i]) == Expected(f, show, i))
    && (forall i, j :: 0 <= i < j < |params| ==> Rank(params[i].0) < Rank(params[j].0))
    && |params| == Appended(f, show, n)
  }

  /** `getProducts`'s `params.append` calls. */
  method BuildParams(f: Filters, show: Float -> string) returns (params: Params)
    ensures Carries(params, f, show)
    ensures params == [] <==> forall i :: 0 <= i < |Names| ==> Expected(f, show, i).None?
  {
    params := [];
    // `n` is the position in `Names` of the parameter appended next.
    var n := 0;
    params := AppendExpected(params, f, show, n);
    n := n + 1;
    params := AppendExpected(params, f, show, n);
    n := n + 1;
    params := AppendExpected(params, f, show, n);
    n := n + 1;
    params := AppendExpected(params, f, show, n);
    n := n + 1;
    params := AppendExpected(params, f, show, n);
    AllAppended(params, f, show);
  }

  /** After the last guarded append the parameters carry every filter, and
      they are empty exactly when no filter is set. */
  lemma AllAppended(params: Params, f: Filters, show: Float -> string)
    requires CarriesUpTo(params, f, show, |Names|)
    ensures Carries(params, f, show)
    ensures params == [] <==> forall i :: 0 <= i < |Names| ==> Expected(f, show, i).None?
  {
    NoneAppended(f, show, |Names|);
  }

  lemma {:induction false} NoneAppended(f: Filters, show: Float -> string, n: nat)
    requires n <= |Names|
    ensures Appended(f, show, n) == 0 <==> forall i :: 0 <= i < n ==> Expected(f, show, i).None?
  {
    if n > 0 {
      NoneAppended(f, show, n - 1);
    }
  }

  /** One guarded `params.append(Names[n], value)`. */
  method AppendExpected(params: Params, f: Filters, show: Float -> string, n: nat) returns (r: Params)
    requires n < |Names| && CarriesUpTo(params, f, show, n)
    ensures CarriesUpTo(r, f, show, n + 1)
    ensures r == params + (if Expected(f, show, n).Some? then [(Names[n], Expected(f, show, n).value)] else [])
  {
    var e := Expected(f, show, n);
    if e.Some? {
      r := params + [(Names[n], e.value)];
      AppendKeepsCarries(params, f, show, n);
    } else {
      r := params;
      SkipKeepsCarries(params, f, show, n);
    }
  }

  lemma AppendKeepsCarries(params: Params, f: Filters, show: Float -> string, n: nat)
    requires n < |Names| && CarriesUpTo(params, f, show, n) && Expected(f, show, n).Some?
    ensures CarriesUpTo(params + [(Names[n], Expected(f, show, n).value)], f, show, n + 1)
  {
    RankOfNames();
    LookupAppend(params, Names[n], Expected(f, show, n).value);
  }

  lemma SkipKeepsCarries(params: Params, f: Filters, show: Float -> string, n: nat)
    requires n < |Names| && CarriesUpTo(params, f, show, n) && Expected(f, show, n).None?
    ensures CarriesUpTo(params, f, show, n + 1)
  {
    RankOfNames();
    assert forall p :: p in params ==> p.0 != Names[n];
  }

  lemma {:induction false} LookupAppend(params: Params, key: string, value: string)
    requires forall p :: p in params ==> Rank(p.0) < Rank(key)
    ensures Lookup(params + [(key, value)], key) == Some(value)
    ensures forall k :: Rank(k) < Rank(key) ==> Lookup(params + [(key, value)], k) == Lookup(params, k)
  {
    if params != [] {
      assert (params + [(key, value)])[1..] == params[1..] + [(key, value)];
      LookupAppend(params[1..], key, value);
    }
  }

  /** `params.toString()`: `name=value` pairs joined by `&`. */
  function QueryString(params: Params, encode: string -> string): (r: string)
    ensures r == [] <==> params == []
  {
    if params == [] then []
    else
      var init := QueryString(params[..|params| - 1], encode);
      var last := params[|params| - 1];
      (if init == [] then [] else init + "&") + encode(last.0) + "=" + encode(last.1)
  }

  /** The request URL: a `?` exactly when some parameter was added. */
  function ProductsUrl(apiUrl: string, params: Params, encode: string -> string): (url: string)
    ensures params == [] ==> url == apiUrl + "/products"
    ensures params != [] ==> url == apiUrl + "/products?" + QueryString(params, encode)
  {
    var qs := QueryString(params, encode);
    apiUrl + "/products" + (if qs != [] then "?" + qs else [])
  }

  /** The query object the products route receives for these parameters. */
  function QueryOf(params: Params): Products.ListQuery {
    Products.ListQuery(Lookup(params, "category"), Lookup(params, "minPrice"), Lookup(params, "maxPrice"),
                       Lookup(params, "featured"), Lookup(params, "onSale"))
  }

  /** `String(n)` for a whole number prints its digits. */
  lemma NumberToStringOfNat(n: nat)
    ensures NumberToString(Fin(n, 0)) == NatToString(n)
  {
    if n > 0 {
      NormalizeKeepsDigits(n, 0);
    }
  }

  lemma {:induction false} NormalizeKeepsDigits(u: nat, e: nat)
    requires u > 0
    ensures Normalize(u, e).0 > 0 && Normalize(u, e).1 >= 0
    ensures NatToString(Normalize(u, e).0) + Zeros(Normalize(u, e).1) == NatToString(u) + Zeros(e)
    decreases u
  {
    if u % 10 == 0 {
      NormalizeKeepsDigits(u / 10, e + 1);
      assert NatToString(u) == NatToString(u / 10) + [DigitChar(0)];
      assert Zeros(e + 1) == "0" + Zeros(e);
    }
  }

  /** The filters the panel sets are the filters the products route applies:
      the first category's slug, a whole positive price read back as itself,
      and each flag as `true` exactly when set. */
  lemma FiltersReachServer(f: Filters, params: Params)
    requires Carries(params, f, NumberToString)
    ensures var q := QueryOf(params);
      && (HasCategory(f) ==> Products.Given(q.category) == (f.category.value[0] != []))
      && (!HasCategory(f) ==> !Products.Given(q.category))
      && (q.featured == Some("true") <==> f.featured == Some(true))
      && (q.onSale == Some("true") <==> f.onSale == Some(true))
      && (forall n: nat :: f.minPrice == Some(Fin(n, 0)) && n > 0 ==>
            Products.Given(q.minPrice) && ParseFloat(q.minPrice.value) == Fin(n, 0))
  {
    assert Names[0] == "category" && Names[1] == "minPrice" && Names[3] == "featured" && Names[4] == "onSale";
    forall n: nat | f.minPrice == Some(Fin(n, 0)) && n > 0
      ensures Products.Given(QueryOf(params).minPrice) && ParseFloat(QueryOf(params).minPrice.value) == Fin(n, 0)
    {
      NumberToStringOfNat(n);
      ParseFloatOfNatToString(n);
    }
  }

  // ---------------------------------------------------------------- rows

  /** A product as the JSON body carries it; SQL NULL is `None`, and a
      `numeric` column arrives as its text. */
  datatype ApiProduct = ApiProduct(
    id: int, title: Option<string>, artist: Option<string>, price: Option<string>,
    installmentPrice: Option<string>, categoryName: Option<string>, categorySlug: Option<string>,
    description: Option<string>, year: Option<int>, stock: Option<int>, imageUrl: Option<string>,
    isFeatured: Option<bool>, isOnSale: Option<bool>, discount: Option<int>)

  /** The frontend `Product`. `installments` is the parsed installment price
      before rounding; `description` is `None` when the field is absent. */
  datatype ClientProduct = ClientProduct(
    id: int, title: Option<string>, artist: Option<string>, price: Float, installments: Float,
    genre: Option<string>, category: Option<string>, stock: Option<int>, year: Option<int>,
    imageUrl: Option<string>, isFeatured: Option<bool>, isOnSale: Option<bool>,
    discountPercentage: Option<int>, description: Option<Option<string>>)

  /** What `parseFloat` sees of a nullable text: `null` reads as NaN. */
  function NumText(v: Option<string>): string {
    if v.Some? then v.value else "null"
  }

  /** The conversion of one row; `getProductById` also copies the
      description. */
  function Convert(p: ApiProduct, withDescription: bool): (c: ClientProduct)
    ensures c.id == p.id && c.title == p.title && c.artist == p.artist && c.stock == p.stock && c.year == p.year
    ensures c.isFeatured == p.isFeatured && c.isOnSale == p.isOnSale && c.imageUrl == p.imageUrl
    ensures c.discountPercentage == p.discount
    ensures c.genre == p.categorySlug && c.category == p.categoryName
    ensures c.price == ParseFloat(NumText(p.price))
    ensures c.description == if withDescription then Some(p.description) else None
  {
    ClientProduct(p.id, p.title, p.artist, ParseFloat(NumText(p.price)), ParseFloat(NumText(p.installmentPrice)),
                  p.categorySlug, p.categoryName, p.stock, p.year, p.imageUrl, p.isFeatured, p.isOnSale,
                  p.discount, if withDescription then Some(p.description) else None)
  }

  function ConvertAll(ps: seq<ApiProduct>): (r: seq<ClientProduct>)
    ensures |r| == |ps| && forall k :: 0 <= k < |ps| ==> r[k].id == ps[k].id
  {
    seq(|ps|, k requires 0 <= k < |ps| => Convert(ps[k], false))
  }

  /** The JSON the products route sends for one listed row. */
  function ApiOf(r: Products.Listed): ApiProduct {
    var p := r.product;
    ApiProduct(p.id, p.title, p.artist, if p.price.Some? then Some(NumberToString(p.price.value)) else None,
               if p.installmentPrice.Some? then Some(NumberToString(p.installmentPrice.value)) else None,
               r.categoryName, r.categorySlug, p.description, p.year, p.stock, p.imageUrl,
               p.isFeatured, p.isOnSale, p.discount)
  }

  /** A listed row keeps its identity across the wire: the genre is the
      category's slug and the category its name. */
  lemma RowSurvivesTransfer(r: Products.Listed)
    ensures var c := Convert(ApiOf(r), false);
      c.id == r.product.id && c.genre == r.categorySlug && c.category == r.categoryName
      && c.title == r.product.title && c.artist == r.product.artist
  {
  }

  /** A whole-number price is read back as itself; a NULL price reads as
      NaN. */
  lemma PriceSurvivesTransfer(r: Products.Listed, n: nat)
    ensures r.product.price == Some(Fin(n, 0)) ==> Convert(ApiOf(r), false).price == Fin(n, 0)
    ensures r.product.price.None? ==> Convert(ApiOf(r), false).price.NaN?
  {
    NumberToStringOfNat(n);
    ParseFloatOfNatToString(n);
    NullIsNaN();
  }

  // ---------------------------------------------------------------- requests

  /** What `fetch` gives: no response at all (the promise rejects), an ok
      response whose body is not JSON (`response.json()` rejects), or a
      response with its `ok` flag and the expected field of the JSON body,
      `None` when that field is missing. A response that is not ok is never
      read, whatever its body. */
  datatype Response<T> = NoResponse | NotJson | Response(ok: bool, data: Option<T>)

  /** `getProducts`: the converted rows, or `[]` on any failure. */
  method GetProducts(f: Filters, apiUrl: string, encode: string -> string,
                     fetch: string -> Response<seq<ApiProduct>>)
    returns (params: Params, url: string, products: seq<ClientProduct>)
    ensures Carries(params, f, NumberToString) && url == ProductsUrl(apiUrl, params, encode)
    ensures fetch(url).Response? && fetch(url).ok && fetch(url).data.Some? ==> products == ConvertAll(fetch(url).data.value)
    ensures !(fetch(url).Response? && fetch(url).ok && fetch(url).data.Some?) ==> products == []
  {
    params := BuildParams(f, NumberToString);
    url := ProductsUrl(apiUrl, params, encode);
    var resp := fetch(url);
    if !resp.Response? || !resp.ok || resp.data.None? {
      return params, url, [];
    }
    products := ConvertAll(resp.data.value);
  }

  /** Why `getProductById` throws. */
  datatype ClientError = NetworkFailed | ProductNotFound | BodyNotJson | MalformedBody

  datatype Fetched<T> = Got(value: T) | Threw(error: ClientError)

  function IntToString(n: int): string {
    if n < 0 then "-" + NatToString(-n) else NatToString(n)
  }

  /** `getProductById`: the converted product with its description, and the
      failure passed on to the caller rather than swallowed. */
  method GetProductById(id: int, apiUrl: string, fetch: string -> Response<ApiProduct>) returns (r: Fetched<ClientProduct>)
    ensures var resp := fetch(apiUrl + "/products/" + IntToString(id));
      && (resp.NoResponse? <==> r == Threw(NetworkFailed))
      && (resp.NotJson? <==> r == Threw(BodyNotJson))
      && (resp.Response? && !resp.ok <==> r == Threw(ProductNotFound))
      && (resp.Response? && resp.ok && resp.data.None? <==> r == Threw(MalformedBody))
      && (r.Got? ==> resp.Response? && resp.ok && resp.data.Some? && r.value == Convert(resp.data.value, true))
  {
    var resp := fetch(apiUrl + "/products/" + IntToString(id));
    if resp.NoResponse? {
      return Threw(NetworkFailed);
    }
    if resp.NotJson? {
      return Threw(BodyNotJson);
    }
    if !resp.ok {
      return Threw(ProductNotFound);
    }
    if resp.data.None? {
      return Threw(MalformedBody);
    }
    r := Got(Convert(resp.data.value, true));
  }

  /** `getCategories`: the `categories` field, `[]` when the request fails or
      the status is not ok, and `undefined` (`None`) when an ok body lacks
      the field. */
  method GetCategories(apiUrl: string, fetch: string -> Response<seq<Category>>) returns (r: Option<seq<Category>>)
    ensures var resp := fetch(apiUrl + "/categories");
      && (!resp.Response? || !resp.ok ==> r == Some([]))
      && (resp.Response? && resp.ok ==> r == resp.data)
  {
    var resp := fetch(apiUrl + "/categories");
    if !resp.Response? || !resp.ok {
      return Some([]);
    }
    r := resp.data;
  }
}
