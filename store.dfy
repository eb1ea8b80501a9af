/** The shop's relational store: each SQL table is a sequence of records in
    table order, held by one `Database` object whose fields the route
    handlers reassign. `NOW()` is a parameter of the methods that stamp rows,
    and serial ids come from one counter. */
module Store {
  import opened JsString
  import opened JsNumber

  datatype Category = Category(id: int, name: string, slug: string)

  /** A `products` row. SQL NULL is `None`; each column holds the value the
      handler sent (a JavaScript `NaN` sent to the numeric `price` column is
      stored as the numeric NaN). */
  datatype Product = Product(
    id: int, title: Option<string>, artist: Option<string>, price: Option<Float>,
    installments: Option<int>, installmentPrice: Option<Float>,
    recordLabel: Option<string>, country: Option<string>,
    conditionCover: Option<string>, conditionMedia: Option<string>,
    categoryId: Option<int>, stock: Option<int>, imageUrl: Option<string>,
    isFeatured: Option<bool>, isOnSale: Option<bool>, discount: Option<int>,
    description: Option<string>, year: Option<int>, createdAt: int)

  /** A `product_images` row. */
  datatype ProductImage = ProductImage(
    id: int, productId: int, imageUrl: string, publicId: Option<string>,
    isMain: bool, displayOrder: int, altText: Option<string>)

  /** A `users` row. */
  datatype User = User(
    id: int, email: string, passwordHash: string,
    firstName: Option<string>, lastName: Option<string>, phone: Option<string>,
    role: string, isActive: bool)

  /** A `user_addresses` row (`addressLabel` is its `label` column, a reserved word here). */
  datatype Address = Address(
    id: int, userId: int, addressLabel: string, street: Option<string>, city: Option<string>,
    province: Option<string>, postalCode: Option<string>, isDefault: bool)

  /** An `orders` row, reduced to what the status route touches. */
  datatype Order = Order(id: int, status: string, updatedAt: int)

  /** An HTTP reply: a status code with a payload, or a status code with the
      `error` text of the JSON body. */
  datatype Reply<T> = Ok(code: int, value: T) | Fail(code: int, error: string)

  /** JavaScript `a || b` on strings: `a` unless it is empty. */
  function Or(a: string, b: string): (r: string)
    ensures a != [] ==> r == a
    ensures a == [] ==> r == b
  {
    if a != [] then a else b
  }

  /** `s || null` for an optional string field of a request body. */
  function OrNull(s: Option<string>): (r: Option<string>)
    ensures r.Some? <==> s.Some? && s.value != []
    ensures r.Some? ==> r == s
  {
    if s.Some? && s.value != [] then s else None
  }

  /** The rows of `s` that satisfy `keep`, in table order: what a `WHERE`
      clause selects and what a `DELETE ... WHERE not keep` leaves. */
  function Filter<T(!new)>(s: seq<T>, keep: T -> bool): (r: seq<T>)
    ensures |r| <= |s|
    ensures forall x :: x in r <==> x in s && keep(x)
  {
    if s == [] then []
    else
      var init := Filter(s[..|s| - 1], keep);
      assert forall x :: x in s <==> x in s[..|s| - 1] || x == s[|s| - 1] by {
        assert s == s[..|s| - 1] + [s[|s| - 1]];
      }
      init + (if keep(s[|s| - 1]) then [s[|s| - 1]] else [])
  }

  /** A filter that rejects an element of the sequence makes it shorter. */
  lemma {:induction false} FilterDrops<T(!new)>(s: seq<T>, keep: T -> bool, x: T)
    requires x in s && !keep(x)
    ensures |Filter(s, keep)| < |s|
  {
    var init := s[..|s| - 1];
    assert s == init + [s[|s| - 1]];
    if s[|s| - 1] != x {
      FilterDrops(init, keep, x);
    }
  }

  /** Filtering a concatenation filters each part and keeps them in order,
      so the selection keeps the table order and every duplicate row. */
  lemma {:induction false} FilterAppend<T(!new)>(a: seq<T>, b: seq<T>, keep: T -> bool)
    ensures Filter(a + b, keep) == Filter(a, keep) + Filter(b, keep)
  {
    if b == [] {
      assert a + b == a;
    } else {
      var b0, x := b[..|b| - 1], b[|b| - 1];
      assert (a + b)[..|a + b| - 1] == a + b0;
      assert (a + b)[|a + b| - 1] == x;
      FilterAppend(a, b0, keep);
      var tail := if keep(x) then [x] else [];
      assert Filter(a + b, keep) == Filter(a, keep) + Filter(b0, keep) + tail;
      assert Filter(b, keep) == Filter(b0, keep) + tail;
    }
  }

  /** The images of product `pid`, in table order. */
  function ImagesOf(images: seq<ProductImage>, pid: int): seq<ProductImage> {
    Filter(images, (img: ProductImage) => img.productId == pid)
  }

  /** `WHERE id = $1` on `products`: the position of the first product with
      id `pid`, or `|ps|` when there is none. */
  function FindProduct(ps: seq<Product>, pid: int): (k: nat)
    ensures k <= |ps|
    ensures k < |ps| ==> ps[k].id == pid
    ensures forall j :: 0 <= j < k ==> ps[j].id != pid
  {
    if ps == [] then 0
    else if ps[0].id == pid then 0
    else 1 + FindProduct(ps[1..], pid)
  }

  class Database {
    var categories: seq<Category>
    var products: seq<Product>
    var images: seq<ProductImage>
    var users: seq<User>
    var addresses: seq<Address>
    var orders: seq<Order>
    /** The next value of the serial id sequences. */
    var nextId: int

    constructor(categories: seq<Category>, products: seq<Product>, images: seq<ProductImage>,
                users: seq<User>, addresses: seq<Address>, orders: seq<Order>, nextId: int)
      ensures this.categories == categories && this.products == products && this.images == images
      ensures this.users == users && this.addresses == addresses && this.orders == orders
      ensures this.nextId == nextId
    {
      this.categories := categories;
      this.products := products;
      this.images := images;
      this.users := users;
      this.addresses := addresses;
      this.orders := orders;
      this.nextId := nextId;
    }

    /** Takes the next serial id. */
    method FreshId() returns (id: int)
      modifies this`nextId
      ensures id == old(nextId) && nextId == old(nextId) + 1
    {
      id := nextId;
      nextId := nextId + 1;
    }
  }
}
