/** The category routes: the listing of every category with its number of
    products, ordered by name, and the lookup of one category by slug. */
module Categories {
  import opened JsString
  import opened Store
  import opened Sorting

  /** A listed category: the row and its `product_count`. */
  datatype CategoryCount = CategoryCount(category: Category, productCount: nat)

  /** `COUNT(p.id)` of the LEFT JOIN for category `cid`: the products whose
      `category_id` is `cid`. */
  function ProductCount(ps: seq<Product>, cid: int): (n: nat)
    ensures n <= |ps|
  {
    if ps == [] then 0
    else ProductCount(ps[..|ps| - 1], cid) + (if ps[|ps| - 1].categoryId == Some(cid) then 1 else 0)
  }

  /** The count is the number of products the category's join selects. */
  lemma {:induction false} ProductCountIsSelection(ps: seq<Product>, cid: int)
    ensures ProductCount(ps, cid) == |Filter(ps, (p: Product) => p.categoryId == Some(cid))|
  {
    if ps != [] {
      ProductCountIsSelection(ps[..|ps| - 1], cid);
    }
  }

  /** A category has no products exactly when no product points at it; the
      LEFT JOIN keeps it with a count of 0. */
  lemma {:induction false} ProductCountZeroIff(ps: seq<Product>, cid: int)
    ensures ProductCount(ps, cid) == 0 <==> forall p :: p in ps ==> p.categoryId != Some(cid)
  {
    if ps != [] {
      var init := ps[..|ps| - 1];
      assert ps == init + [ps[|ps| - 1]];
      ProductCountZeroIff(init, cid);
    }
  }

  /** `ORDER BY c.name`, by code point. */
  const ByName: (CategoryCount, CategoryCount) -> bool :=
    (a: CategoryCount, b: CategoryCount) => StrLe(a.category.name, b.category.name)

  lemma ByNameIsTotalPreorder()
    ensures TotalPreorder(ByName)
  {
    forall a: CategoryCount, b: CategoryCount ensures ByName(a, b) || ByName(b, a) {
      StrLeTotal(a.category.name, b.category.name);
    }
    forall a: CategoryCount, b: CategoryCount, c: CategoryCount | ByName(a, b) && ByName(b, c)
      ensures ByName(a, c)
    {
      StrLeTransitive(a.category.name, b.category.name, c.category.name);
    }
  }

  /** One row per category with its count, in table order. */
  function Counted(cats: seq<Category>, ps: seq<Product>): (r: seq<CategoryCount>)
    ensures |r| == |cats|
    ensures forall k :: 0 <= k < |cats| ==> r[k].category == cats[k] && r[k].productCount <= |ps|
  {
    seq(|cats|, k requires 0 <= k < |cats| => CategoryCount(cats[k], ProductCount(ps, cats[k].id)))
  }

  /** The rows of GET /. */
  function Listing(cats: seq<Category>, ps: seq<Product>): seq<CategoryCount> {
    ByNameIsTotalPreorder();
    SortBy(Counted(cats, ps), ByName)
  }

  /** GET /: every category once, with its product count, ordered by name,
      and the number of rows. */
  method ListCategories(db: Database) returns (count: nat, rows: seq<CategoryCount>)
    ensures rows == Listing(db.categories, db.products)
    ensures count == |rows| == |db.categories|
  {
    rows := Listing(db.categories, db.products);
    count := |rows|;
  }

  /** The listing holds each category with the count of its products, sorted
      by name. */
  lemma ListingMeaning(cats: seq<Category>, ps: seq<Product>)
    ensures var rows := Listing(cats, ps);
      SortedBy(rows, ByName)
      && (forall r :: r in rows <==> r.category in cats && r.productCount == ProductCount(ps, r.category.id))
  {
    ByNameIsTotalPreorder();
    var counted := Counted(cats, ps);
    var rows := Listing(cats, ps);
    forall r ensures r in rows <==> r in counted {
      assert r in rows <==> r in multiset(rows);
      assert r in counted <==> r in multiset(counted);
    }
    forall r: CategoryCount | r.category in cats && r.productCount == ProductCount(ps, r.category.id) ensures r in counted {
      var k :| 0 <= k < |cats| && cats[k] == r.category;
      assert counted[k] == r;
    }
  }

  const NotFound := "Categor\U{00ED}a no encontrada"

  /** The position of the first category whose slug is exactly `slug`. */
  function FindSlug(cats: seq<Category>, slug: string): (k: nat)
    ensures k <= |cats|
    ensures k < |cats| ==> cats[k].slug == slug
    ensures forall j :: 0 <= j < k ==> cats[j].slug != slug
  {
    if cats == [] then 0
    else if cats[0].slug == slug then 0
    else 1 + FindSlug(cats[1..], slug)
  }

  /** GET /:slug: the first category whose slug equals the parameter
      character for character, or 404. */
  method GetCategory(db: Database, slug: string) returns (r: Reply<Category>)
    ensures r.Ok? <==> exists c :: c in db.categories && c.slug == slug
    ensures r.Ok? ==> r.code == 200 && r.value in db.categories && r.value.slug == slug
    ensures r.Fail? ==> r == Fail(404, NotFound)
  {
    var k := FindSlug(db.categories, slug);
    if k == |db.categories| {
      return Fail(404, NotFound);
    }
    r := Ok(200, db.categories[k]);
  }

  /** The lookup is exact and case-sensitive: it finds nothing exactly when
      no category has that very slug, and a category whose slug differs only
      in letter case is never the one found. */
  lemma SlugLookupIsExact(cats: seq<Category>, slug: string)
    ensures FindSlug(cats, slug) == |cats| <==> forall c :: c in cats ==> c.slug != slug
    ensures forall k :: 0 <= k < |cats| && cats[k].slug != slug && ToLower(cats[k].slug) == ToLower(slug) ==>
      FindSlug(cats, slug) != k
    ensures FindSlug([Category(1, "Rock", "rock")], "Rock") == 1
  {
    if FindSlug(cats, slug) == |cats| {
      forall c | c in cats
        ensures c.slug != slug
      {
        var j :| 0 <= j < |cats| && cats[j] == c;
      }
    }
    assert "Rock" != "rock" by { assert "Rock"[0] != "rock"[0]; }
  }
}
