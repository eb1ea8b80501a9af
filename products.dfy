/** The public catalogue routes: the filtered listing built clause by clause
    with numbered placeholders, one product with its gallery, and the plain
    create, update and delete of a product row. Comparisons follow
    PostgreSQL's `numeric` type, where NaN is equal to itself and above every
    other value, and a comparison with NULL selects nothing. */
module Products {
  import opened JsString
  import opened JsNumber
  import opened Store
  import opened Sorting
  import ProductImages

  // ---------------------------------------------------------------- the listing query

  /** The query string of GET /: every filter is optional. */
  datatype ListQuery = ListQuery(category: Option<string>, minPrice: Option<string>, maxPrice: Option<string>,
                                 featured: Option<string>, onSale: Option<string>)

  /** One ` AND ...` clause; the parameterised ones name their placeholder `$n`. */
  datatype Clause = SlugIs(n: nat) | PriceAtLeast(n: nat) | PriceAtMost(n: nat) | FeaturedOnly | OnSaleOnly

  /** A query parameter: the category text or a parsed price. */
  datatype Param = TextParam(text: string) | NumParam(num: Float)

  predicate Given(f: Option<string>) {
    f.Some? && f.value != []
  }

  /** The placeholders of the parameterised clauses, in order. */
  function Placeholders(cs: seq<Clause>): seq<nat> {
    if cs == [] then []
    else Placeholders(cs[..|cs| - 1]) + (if cs[|cs| - 1].FeaturedOnly? || cs[|cs| - 1].OnSaleOnly? then [] else [cs[|cs| - 1].n])
  }

  /** `[1, 2, ..., n]`. */
  function OneTo(n: nat): (r: seq<nat>)
    ensures |r| == n && forall k :: 0 <= k < n ==> r[k] == k + 1
  {
    if n == 0 then [] else OneTo(n - 1) + [n]
  }

  /** The parameter of a clause has the right kind. */
  predicate ParamFits(c: Clause, params: seq<Param>) {
    match c
    case SlugIs(n) => 1 <= n <= |params| && params[n - 1].TextParam?
    case PriceAtLeast(n) => 1 <= n <= |params| && params[n - 1].NumParam?
    case PriceAtMost(n) => 1 <= n <= |params| && params[n - 1].NumParam?
    case FeaturedOnly => true
    case OnSaleOnly => true
  }

  lemma PlaceholdersSnoc(cs: seq<Clause>, c: Clause)
    ensures Placeholders(cs + [c]) == Placeholders(cs) + (if c.FeaturedOnly? || c.OnSaleOnly? then [] else [c.n])
  {
    assert (cs + [c])[..|cs|] == cs;
  }

  // ---------------------------------------------------------------- what a row must satisfy

  /** A product as the listing returns it: the row, its category's name and
      slug from the LEFT JOIN, and the main image URL. */
  datatype Listed = Listed(product: Product, categoryName: Option<string>, categorySlug: Option<string>,
                           mainImageUrl: Option<string>)

  /** `a <= b` on PostgreSQL `numeric`: NaN is the largest value. */
  predicate NumericLe(a: Float, b: Float) {
    if b.NaN? then true
    else if a.NaN? then false
    else if a.NegInf? || b.PosInf? then true
    else if a.PosInf? || b.NegInf? then false
    else Value(a) <= Value(b)
  }

  /** One clause on one row; a NULL column fails the comparison. */
  predicate Matches(row: Listed, c: Clause, params: seq<Param>)
    requires ParamFits(c, params)
  {
    match c
    case SlugIs(n) => row.categorySlug == Some(params[n - 1].text)
    case PriceAtLeast(n) => row.product.price.Some? && NumericLe(params[n - 1].num, row.product.price.value)
    case PriceAtMost(n) => row.product.price.Some? && NumericLe(row.product.price.value, params[n - 1].num)
    case FeaturedOnly => row.product.isFeatured == Some(true)
    case OnSaleOnly => row.product.isOnSale == Some(true)
  }

  /** `WHERE 1=1 AND ...`. */
  predicate MatchesAll(row: Listed, clauses: seq<Clause>, params: seq<Param>) {
    forall c :: c in clauses ==> ParamFits(c, params) && Matches(row, c, params)
  }

  /** Filter `k` of the query string (1 category, 2 minimum price, 3 maximum
      price, 4 featured, 5 on sale) holds of the row, or was not supplied;
      `parse` reads a price bound (the handler uses `parseFloat`). */
  predicate FilterHolds(row: Listed, q: ListQuery, parse: string -> Float, k: nat) {
    if k == 1 then Given(q.category) ==> row.categorySlug == q.category
    else if k == 2 then Given(q.minPrice) ==>
      row.product.price.Some? && NumericLe(parse(q.minPrice.value), row.product.price.value)
    else if k == 3 then Given(q.maxPrice) ==>
      row.product.price.Some? && NumericLe(row.product.price.value, parse(q.maxPrice.value))
    else if k == 4 then q.featured == Some("true") ==> row.product.isFeatured == Some(true)
    else if k == 5 then q.onSale == Some("true") ==> row.product.isOnSale == Some(true)
    else true
  }

  /** The first `k` filters hold. */
  predicate WantedUpTo(row: Listed, q: ListQuery, parse: string -> Float, k: nat) {
    forall j :: 1 <= j <= k ==> FilterHolds(row, q, parse, j)
  }

  /** The listing's meaning: every supplied filter holds. */
  predicate Wanted(row: Listed, q: ListQuery) {
    WantedUpTo(row, q, ParseFloat, 5)
  }

  /** The clauses and parameters built from the first `k` filters are
      numbered `$1..$n` and select the rows those filters select. */
  ghost predicate Built(q: ListQuery, parse: string -> Float, k: nat, clauses: seq<Clause>, params: seq<Param>) {
    Placeholders(clauses) == OneTo(|params|)
    && (forall c :: c in clauses ==> ParamFits(c, params))
    && (forall row :: MatchesAll(row, clauses, params) <==> WantedUpTo(row, q, parse, k))
  }

  /** A clause whose placeholder is already bound means the same once more
      parameters are appended. */
  lemma MatchesExtend(c: Clause, params: seq<Param>, extra: seq<Param>)
    requires ParamFits(c, params)
    ensures ParamFits(c, params + extra)
    ensures forall row :: Matches(row, c, params + extra) == Matches(row, c, params)
  {
    if !(c.FeaturedOnly? || c.OnSaleOnly?) {
      assert (params + extra)[c.n - 1] == params[c.n - 1];
    }
  }

  lemma WantedUpToStep(row: Listed, q: ListQuery, parse: string -> Float, k: nat)
    requires 1 <= k
    ensures WantedUpTo(row, q, parse, k) <==> WantedUpTo(row, q, parse, k - 1) && FilterHolds(row, q, parse, k)
  {
    if WantedUpTo(row, q, parse, k - 1) && FilterHolds(row, q, parse, k) {
      forall j | 1 <= j <= k ensures FilterHolds(row, q, parse, j) {
        if j < k {
          assert 1 <= j <= k - 1;
        }
      }
    }
  }

  /** Clause `c` with its parameter in `ps` is how the handler writes
      supplied filter `k`. */
  predicate Encodes(q: ListQuery, parse: string -> Float, k: nat, c: Clause, ps: seq<Param>)
    requires ParamFits(c, ps)
  {
    match c
    case SlugIs(n) => k == 1 && Given(q.category) && ps[n - 1] == TextParam(q.category.value)
    case PriceAtLeast(n) => k == 2 && Given(q.minPrice) && ps[n - 1] == NumParam(parse(q.minPrice.value))
    case PriceAtMost(n) => k == 3 && Given(q.maxPrice) && ps[n - 1] == NumParam(parse(q.maxPrice.value))
    case FeaturedOnly => k == 4 && q.featured == Some("true")
    case OnSaleOnly => k == 5 && q.onSale == Some("true")
  }

  /** Filter `k` appends clause `c` (and its value, if it takes one). */
  lemma AddClause(q: ListQuery, parse: string -> Float, k: nat, clauses: seq<Clause>, params: seq<Param>, c: Clause, extra: seq<Param>)
    requires 1 <= k && Built(q, parse, k - 1, clauses, params)
    requires if c.FeaturedOnly? || c.OnSaleOnly? then extra == [] else |extra| == 1 && c.n == |params| + 1
    requires ParamFits(c, params + extra)
    requires Encodes(q, parse, k, c, params + extra)
    ensures Built(q, parse, k, clauses + [c], params + extra)
  {
    var ps := params + extra;
    assert forall row :: Matches(row, c, ps) <==> FilterHolds(row, q, parse, k);
    PlaceholdersSnoc(clauses, c);
    assert OneTo(|ps|) == OneTo(|params|) + (if extra == [] then [] else [|ps|]);
    forall c' | c' in clauses ensures ParamFits(c', ps) && forall row :: Matches(row, c', ps) == Matches(row, c', params) {
      MatchesExtend(c', params, extra);
    }
    forall row ensures MatchesAll(row, clauses + [c], ps) <==> WantedUpTo(row, q, parse, k) {
      WantedUpToStep(row, q, parse, k);
      assert MatchesAll(row, clauses + [c], ps) <==> MatchesAll(row, clauses, params) && Matches(row, c, ps);
    }
  }

  /** Filter `k` was not supplied: nothing is appended. */
  lemma SkipFilter(q: ListQuery, parse: string -> Float, k: nat, clauses: seq<Clause>, params: seq<Param>)
    requires 1 <= k && Built(q, parse, k - 1, clauses, params)
    requires forall row :: FilterHolds(row, q, parse, k)
    ensures Built(q, parse, k, clauses, params)
  {
    forall row ensures WantedUpTo(row, q, parse, k) <==> WantedUpTo(row, q, parse, k - 1) {
      assert FilterHolds(row, q, parse, k);
    }
  }

  // The handler's five filter blocks, one method each: a supplied filter
  // appends its clause and, when it takes a value, binds the value to the
  // next placeholder and advances the counter.

  method CategoryBlock(q: ListQuery, ghost parse: string -> Float, clauses: seq<Clause>, params: seq<Param>, paramCount: nat)
    returns (clauses': seq<Clause>, params': seq<Param>, paramCount': nat)
    requires Built(q, parse, 0, clauses, params) && paramCount == |params| + 1
    ensures Built(q, parse, 1, clauses', params') && paramCount' == |params'| + 1
    ensures |params'| == |params| + if Given(q.category) then 1 else 0
  {
    clauses', params', paramCount' := clauses, params, paramCount;
    if Given(q.category) {
      AddClause(q, parse, 1, clauses, params, SlugIs(paramCount), [TextParam(q.category.value)]);
      clauses' := clauses' + [SlugIs(paramCount)];
      params' := params' + [TextParam(q.category.value)];
      paramCount' := paramCount' + 1;
    } else {
      SkipFilter(q, parse, 1, clauses, params);
    }
  }

  method MinPriceBlock(q: ListQuery, parse: string -> Float, clauses: seq<Clause>, params: seq<Param>, paramCount: nat)
    returns (clauses': seq<Clause>, params': seq<Param>, paramCount': nat)
    requires Built(q, parse, 1, clauses, params) && paramCount == |params| + 1
    ensures Built(q, parse, 2, clauses', params') && paramCount' == |params'| + 1
    ensures |params'| == |params| + if Given(q.minPrice) then 1 else 0
  {
    clauses', params', paramCount' := clauses, params, paramCount;
    if Given(q.minPrice) {
      AddClause(q, parse, 2, clauses, params, PriceAtLeast(paramCount), [NumParam(parse(q.minPrice.value))]);
      clauses' := clauses' + [PriceAtLeast(paramCount)];
      params' := params' + [NumParam(parse(q.minPrice.value))];
      paramCount' := paramCount' + 1;
    } else {
      SkipFilter(q, parse, 2, clauses, params);
    }
  }

  method MaxPriceBlock(q: ListQuery, parse: string -> Float, clauses: seq<Clause>, params: seq<Param>, paramCount: nat)
    returns (clauses': seq<Clause>, params': seq<Param>, paramCount': nat)
    requires Built(q, parse, 2, clauses, params) && paramCount == |params| + 1
    ensures Built(q, parse, 3, clauses', params') && paramCount' == |params'| + 1
    ensures |params'| == |params| + if Given(q.maxPrice) then 1 else 0
  {
    clauses', params', paramCount' := clauses, params, paramCount;
    if Given(q.maxPrice) {
      AddClause(q, parse, 3, clauses, params, PriceAtMost(paramCount), [NumParam(parse(q.maxPrice.value))]);
      clauses' := clauses' + [PriceAtMost(paramCount)];
      params' := params' + [NumParam(parse(q.maxPrice.value))];
      paramCount' := paramCount' + 1;
    } else {
      SkipFilter(q, parse, 3, clauses, params);
    }
  }

  method FeaturedBlock(q: ListQuery, ghost parse: string -> Float, clauses: seq<Clause>, ghost params: seq<Param>)
    returns (clauses': seq<Clause>)
    requires Built(q, parse, 3, clauses, params)
    ensures Built(q, parse, 4, clauses', params)
  {
    clauses' := clauses;
    if q.featured == Some("true") {
      AddClause(q, parse, 4, clauses, params, FeaturedOnly, []);
      assert params + [] == params;
      clauses' := clauses' + [FeaturedOnly];
    } else {
      SkipFilter(q, parse, 4, clauses, params);
    }
  }

  method OnSaleBlock(q: ListQuery, ghost parse: string -> Float, clauses: seq<Clause>, ghost params: seq<Param>)
    returns (clauses': seq<Clause>)
    requires Built(q, parse, 4, clauses, params)
    ensures Built(q, parse, 5, clauses', params)
  {
    clauses' := clauses;
    if q.onSale == Some("true") {
      AddClause(q, parse, 5, clauses, params, OnSaleOnly, []);
      assert params + [] == params;
      clauses' := clauses' + [OnSaleOnly];
    } else {
      SkipFilter(q, parse, 5, clauses, params);
    }
  }

  /** Builds the WHERE clauses and their parameters as the handler does,
      block by block. */
  method BuildQuery(q: ListQuery, parse: string -> Float) returns (clauses: seq<Clause>, params: seq<Param>)
    ensures Placeholders(clauses) == OneTo(|params|)
    ensures forall c :: c in clauses ==> ParamFits(c, params)
    ensures |params| == (if Given(q.category) then 1 else 0) + (if Given(q.minPrice) then 1 else 0)
                        + (if Given(q.maxPrice) then 1 else 0)
    ensures forall row :: MatchesAll(row, clauses, params) <==> WantedUpTo(row, q, parse, 5)
  {
    clauses, params := [], [];
    var paramCount := 1;
    assert Built(q, parse, 0, clauses, params);
    clauses, params, paramCount := CategoryBlock(q, parse, clauses, params, paramCount);
    clauses, params, paramCount := MinPriceBlock(q, parse, clauses, params, paramCount);
    clauses, params, paramCount := MaxPriceBlock(q, parse, clauses, params, paramCount);
    clauses := FeaturedBlock(q, parse, clauses, params);
    clauses := OnSaleBlock(q, parse, clauses, params);
  }

  // ---------------------------------------------------------------- running the query

  /** The first category with id `cid`: categories ids are the table's key. */
  function CategoryOf(cats: seq<Category>, cid: Option<int>): (r: Option<Category>)
    ensures r.Some? ==> cid.Some? && r.value in cats && r.value.id == cid.value
    ensures r.None? ==> cid.None? || forall c :: c in cats ==> c.id != cid.value
  {
    if cid.None? || cats == [] then None
    else if cats[0].id == cid.value then Some(cats[0])
    else CategoryOf(cats[1..], cid)
  }

  /** The URL of the first main image of product `pid`, in table order (the
      subquery's `LIMIT 1` has no ORDER BY). */
  function FirstMainUrl(images: seq<ProductImage>, pid: int): (r: Option<string>)
    ensures r.Some? ==> exists img :: img in images && img.productId == pid && img.isMain && img.imageUrl == r.value
    ensures r.None? ==> forall img :: img in images && img.productId == pid ==> !img.isMain
  {
    if images == [] then None
    else if images[0].productId == pid && images[0].isMain then Some(images[0].imageUrl)
    else FirstMainUrl(images[1..], pid)
  }

  /** `COALESCE(main image, p.image_url)`. */
  function MainImageUrl(p: Product, images: seq<ProductImage>): Option<string> {
    var m := FirstMainUrl(images, p.id);
    if m.Some? then m else p.imageUrl
  }

  /** The main image URL is a main gallery image's URL when the product has
      one, and the product's own `image_url` otherwise. */
  lemma MainImageFallback(p: Product, images: seq<ProductImage>)
    ensures (exists img :: img in images && img.productId == p.id && img.isMain) ==>
      exists img :: img in images && img.productId == p.id && img.isMain && MainImageUrl(p, images) == Some(img.imageUrl)
    ensures (forall img :: img in images && img.productId == p.id ==> !img.isMain) ==>
      MainImageUrl(p, images) == p.imageUrl
  {
  }

  function ListedOf(p: Product, cats: seq<Category>, images: seq<ProductImage>): Listed {
    var c := CategoryOf(cats, p.categoryId);
    Listed(p, if c.Some? then Some(c.value.name) else None, if c.Some? then Some(c.value.slug) else None,
           MainImageUrl(p, images))
  }

  /** The joined rows, one per product. */
  function Joined(ps: seq<Product>, cats: seq<Category>, images: seq<ProductImage>): (r: seq<Listed>)
    ensures |r| == |ps| && forall k :: 0 <= k < |ps| ==> r[k].product == ps[k]
  {
    seq(|ps|, k requires 0 <= k < |ps| => ListedOf(ps[k], cats, images))
  }

  /** `ORDER BY p.created_at DESC`. */
  const Newest: (Listed, Listed) -> bool := (a: Listed, b: Listed) => a.product.createdAt >= b.product.createdAt

  lemma NewestIsTotalPreorder()
    ensures TotalPreorder(Newest)
  {
  }

  function MatchesBy(clauses: seq<Clause>, params: seq<Param>): Listed -> bool {
    (row: Listed) => MatchesAll(row, clauses, params)
  }

  function WantedBy(q: ListQuery): Listed -> bool {
    (row: Listed) => Wanted(row, q)
  }

  /** The listing of GET /. */
  function Listing(db: seq<Product>, cats: seq<Category>, images: seq<ProductImage>, q: ListQuery): seq<Listed> {
    NewestIsTotalPreorder();
    SortBy(Filter(Joined(db, cats, images), WantedBy(q)), Newest)
  }

  lemma {:induction false} FilterSame<T(!new)>(s: seq<T>, f: T -> bool, g: T -> bool)
    requires forall x :: f(x) == g(x)
    ensures Filter(s, f) == Filter(s, g)
  {
    if s != [] {
      FilterSame(s[..|s| - 1], f, g);
    }
  }

  /** GET /: builds the query, runs it, and answers with the rows and their
      count. */
  method ListProducts(db: Database, q: ListQuery) returns (count: nat, rows: seq<Listed>)
    ensures rows == Listing(db.products, db.categories, db.images, q) && count == |rows|
  {
    var clauses, params := BuildQuery(q, ParseFloat);
    NewestIsTotalPreorder();
    var joined := Joined(db.products, db.categories, db.images);
    FilterSame(joined, MatchesBy(clauses, params), WantedBy(q));
    rows := SortBy(Filter(joined, MatchesBy(clauses, params)), Newest);
    count := |rows|;
  }

  /** The listing holds exactly the products that pass every supplied filter,
      newest first. */
  lemma ListingMeaning(ps: seq<Product>, cats: seq<Category>, images: seq<ProductImage>, q: ListQuery)
    ensures var l := Listing(ps, cats, images, q);
      SortedBy(l, Newest)
      && (forall row :: row in l <==> row in Joined(ps, cats, images) && Wanted(row, q))
  {
    NewestIsTotalPreorder();
    var sel := Filter(Joined(ps, cats, images), WantedBy(q));
    var l := Listing(ps, cats, images, q);
    forall row ensures row in l <==> row in sel {
      assert row in l <==> row in multiset(l);
      assert row in sel <==> row in multiset(sel);
    }
  }

  // ---------------------------------------------------------------- one product

  const NotFound := "Producto no encontrado"

  /** GET /:id: 404 for an unknown id; otherwise the joined row and the
      product's images by display position. */
  method GetProduct(db: Database, pid: int) returns (r: Reply<(Listed, seq<ProductImage>)>)
    ensures FindProduct(db.products, pid) == |db.products| ==> r == Fail(404, NotFound)
    ensures FindProduct(db.products, pid) < |db.products| ==>
      r == Ok(200, (ListedOf(db.products[FindProduct(db.products, pid)], db.categories, db.images),
                    ProductImages.Gallery(db.images, pid)))
  {
    var k := FindProduct(db.products, pid);
    if k == |db.products| {
      return Fail(404, NotFound);
    }
    var row := ListedOf(db.products[k], db.categories, db.images);
    var images := ProductImages.Gallery(db.images, pid);
    r := Ok(200, (row, images));
  }

  // ---------------------------------------------------------------- create, update, delete

  /** The `price` of a JSON body: absent, an explicit `null`, or a number.
      The driver writes the first two alike, as NULL, but `price / 3` tells
      them apart. */
  datatype PriceField = Absent | Null | Number(value: Float)

  /** A JSON body of POST / and PUT /:id; for every field but the price,
      `None` is an absent field or `null`, which the driver writes alike. */
  datatype ProductBody = ProductBody(
    title: Option<string>, artist: Option<string>, price: PriceField, categoryId: Option<int>,
    description: Option<string>, year: Option<int>, stock: Option<int>, imageUrl: Option<string>,
    isFeatured: Option<bool>, isOnSale: Option<bool>, discount: Option<int>)

  /** The `price` column the driver writes: NULL for an absent or `null` price. */
  function PriceColumn(price: PriceField): (c: Option<Float>)
    ensures c.Some? <==> price.Number?
    ensures c.Some? ==> c.value == price.value
  {
    if price.Number? then Some(price.value) else None
  }

  /** `price / 3`: `undefined / 3` is NaN and `null / 3` is 0. `third` is the
      floating-point division, left abstract. */
  function InstallmentPrice(price: PriceField, third: Float -> Float): (x: Float)
    ensures price.Absent? ==> x.NaN?
    ensures price.Null? ==> x == Fin(0, 0)
    ensures price.Number? ==> x == third(price.value)
  {
    match price
    case Absent => NaN
    case Null => Fin(0, 0)
    case Number(v) => third(v)
  }

  /** The row POST / inserts: `is_featured || false`, `is_on_sale || false`
      and `discount_percentage || 0`; the other columns as sent. */
  function CreatedRow(id: int, b: ProductBody, third: Float -> Float, now: int): (p: Product)
    ensures p.isFeatured == Some(b.isFeatured == Some(true)) && p.isOnSale == Some(b.isOnSale == Some(true))
    ensures p.discount == Some(if b.discount.Some? then b.discount.value else 0)
    ensures p.id == id && p.title == b.title && p.artist == b.artist && p.price == PriceColumn(b.price)
    ensures p.installmentPrice == Some(InstallmentPrice(b.price, third))
    ensures p.categoryId == b.categoryId && p.description == b.description && p.year == b.year
    ensures p.stock == b.stock && p.imageUrl == b.imageUrl && p.createdAt == now
    ensures p.installments.None? && p.recordLabel.None? && p.country.None?
    ensures p.conditionCover.None? && p.conditionMedia.None?
  {
    Product(id, b.title, b.artist, PriceColumn(b.price), None, Some(InstallmentPrice(b.price, third)), None, None, None, None,
            b.categoryId, b.stock, b.imageUrl, Some(b.isFeatured == Some(true)), Some(b.isOnSale == Some(true)),
            Some(if b.discount.Some? then b.discount.value else 0), b.description, b.year, now)
  }

  /** POST /: inserts the row and answers 201 with it. */
  method CreateProduct(db: Database, b: ProductBody, third: Float -> Float, now: int) returns (r: Reply<Product>)
    modifies db`products, db`nextId
    ensures db.products == old(db.products) + [CreatedRow(old(db.nextId), b, third, now)]
    ensures db.nextId == old(db.nextId) + 1
    ensures r == Ok(201, CreatedRow(old(db.nextId), b, third, now))
  {
    var id := db.FreshId();
    var p := CreatedRow(id, b, third, now);
    db.products := db.products + [p];
    r := Ok(201, p);
  }

  /** The UPDATE: every column of the body, as sent (an absent field becomes
      NULL), on the product's row. */
  function UpdatedRow(p: Product, b: ProductBody, third: Float -> Float): Product {
    p.(title := b.title, artist := b.artist, price := PriceColumn(b.price),
       installmentPrice := Some(InstallmentPrice(b.price, third)), categoryId := b.categoryId,
       description := b.description, year := b.year, stock := b.stock, imageUrl := b.imageUrl,
       isFeatured := b.isFeatured, isOnSale := b.isOnSale, discount := b.discount)
  }

  function UpdateRows(ps: seq<Product>, pid: int, b: ProductBody, third: Float -> Float): (r: seq<Product>)
    ensures |r| == |ps|
    ensures forall k :: 0 <= k < |ps| ==> r[k] == if ps[k].id == pid then UpdatedRow(ps[k], b, third) else ps[k]
  {
    seq(|ps|, k requires 0 <= k < |ps| => if ps[k].id == pid then UpdatedRow(ps[k], b, third) else ps[k])
  }

  /** PUT /:id: 404 and no change for an unknown id. */
  method UpdateProduct(db: Database, pid: int, b: ProductBody, third: Float -> Float) returns (r: Reply<Product>)
    modifies db`products
    ensures FindProduct(old(db.products), pid) == |old(db.products)| ==>
      r == Fail(404, NotFound) && db.products == old(db.products)
    ensures FindProduct(old(db.products), pid) < |old(db.products)| ==>
      db.products == UpdateRows(old(db.products), pid, b, third)
      && r == Ok(200, UpdatedRow(old(db.products)[FindProduct(old(db.products), pid)], b, third))
  {
    var k := FindProduct(db.products, pid);
    if k == |db.products| {
      return Fail(404, NotFound);
    }
    db.products := UpdateRows(db.products, pid, b, third);
    r := Ok(200, db.products[k]);
  }

  /** Updating a product leaves every other product as it was, and the
      updated row keeps its id and creation time. */
  lemma UpdateTouchesOnlyTarget(ps: seq<Product>, pid: int, b: ProductBody, third: Float -> Float)
    ensures var r := UpdateRows(ps, pid, b, third);
      forall k :: 0 <= k < |ps| ==>
        r[k].id == ps[k].id && r[k].createdAt == ps[k].createdAt && (ps[k].id != pid ==> r[k] == ps[k])
  {
  }

  /** A body without a price and one whose price is `null` both leave the
      price column NULL, but `price / 3` stores NaN for the first and 0 for
      the second, on create and on update alike. */
  lemma MissingPriceInstallments(id: int, p: Product, b: ProductBody, third: Float -> Float, now: int)
    requires !b.price.Number?
    ensures CreatedRow(id, b, third, now).price.None? && UpdatedRow(p, b, third).price.None?
    ensures b.price.Null? ==>
      CreatedRow(id, b, third, now).installmentPrice == Some(Fin(0, 0))
      && UpdatedRow(p, b, third).installmentPrice == Some(Fin(0, 0))
    ensures b.price.Absent? ==>
      CreatedRow(id, b, third, now).installmentPrice == Some(NaN) && UpdatedRow(p, b, third).installmentPrice == Some(NaN)
  {
  }

  /** DELETE /:id: 404 and no change for an unknown id; otherwise the row is
      removed, and its images with it (the foreign key cascades). */
  method DeleteProduct(db: Database, pid: int) returns (r: Reply<Product>)
    modifies db`products, db`images
    ensures FindProduct(old(db.products), pid) == |old(db.products)| ==>
      r == Fail(404, NotFound) && db.products == old(db.products) && db.images == old(db.images)
    ensures FindProduct(old(db.products), pid) < |old(db.products)| ==>
      db.products == Filter(old(db.products), (p: Product) => p.id != pid)
      && db.images == Filter(old(db.images), (img: ProductImage) => img.productId != pid)
      && r == Ok(200, old(db.products)[FindProduct(old(db.products), pid)])
  {
    var k := FindProduct(db.products, pid);
    if k == |db.products| {
      return Fail(404, NotFound);
    }
    r := Ok(200, db.products[k]);
    db.products := Filter(db.products, (p: Product) => p.id != pid);
    db.images := Filter(db.images, (img: ProductImage) => img.productId != pid);
  }
}
