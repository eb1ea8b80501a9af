/** The product and order routes of the admin API: creating and updating a
    vinyl together with its uploaded images, deleting it with a best-effort
    cleanup of the hosted images, and setting an order's status. The image
    host is an oracle: each upload has already succeeded with a URL and a
    public id, or failed; each deletion may fail and is ignored. */
module AdminProducts {
  import opened JsString
  import opened JsNumber
  import opened Store

  // ---------------------------------------------------------------- the form

  /** A flag of the request body: absent, a form text, or a JSON boolean. */
  datatype FlagField = NoFlag | FlagText(text: string) | FlagBool(value: bool)

  /** The text fields of the multipart form; `None` is an absent field. */
  datatype ProductForm = ProductForm(
    title: Option<string>, artist: Option<string>, price: Option<string>,
    installments: Option<string>, installmentPrice: Option<string>,
    recordLabel: Option<string>, country: Option<string>,
    conditionCover: Option<string>, conditionMedia: Option<string>,
    categoryId: Option<string>, stock: Option<string>,
    isFeatured: FlagField, isOnSale: FlagField,
    discount: Option<string>, description: Option<string>)

  /** JavaScript truthiness of a form field. */
  predicate Given(f: Option<string>) {
    f.Some? && f.value != []
  }

  /** `x === "true" || x === true`. */
  predicate FlagOn(f: FlagField) {
    f == FlagText("true") || f == FlagBool(true)
  }

  /** `parseFloat(x)`; `parseFloat(undefined)` is NaN. */
  function PriceParam(f: Option<string>): Float {
    if f.Some? then ParseFloat(f.value) else NaN
  }

  /** An integer query parameter: SQL NULL, a number, or the `NaN` that
      `parseInt` gives for text without a leading number. */
  datatype IntParam = Null | Int(value: int) | NotANumber

  /** `x ? parseInt(x) : otherwise`. */
  function IntOr(f: Option<string>, otherwise: IntParam): (p: IntParam)
    ensures !Given(f) ==> p == otherwise
    ensures Given(f) ==> (p.NotANumber? <==> ParseInt(f.value).None?)
  {
    if Given(f) then
      match ParseInt(f.value)
      case Some(v) => Int(v)
      case None => NotANumber
    else otherwise
  }

  /** The integer parameters sent for installments, category, stock and
      discount. */
  function IntParams(f: ProductForm): seq<IntParam> {
    [IntOr(f.installments, Int(3)), IntOr(f.categoryId, Null), IntOr(f.stock, Int(0)), IntOr(f.discount, Int(0))]
  }

  /** PostgreSQL refuses the text `NaN` for an integer column, so the query
      throws when one of the integer parameters is `NaN`. */
  predicate Numeric(f: ProductForm) {
    NotANumber !in IntParams(f)
  }

  function Column(p: IntParam): Option<int>
    requires !p.NotANumber?
  {
    if p.Int? then Some(p.value) else None
  }

  /** The fifteen columns that both the INSERT and the UPDATE write. */
  function WithForm(p: Product, f: ProductForm): (q: Product)
    requires Numeric(f)
    ensures q.id == p.id && q.imageUrl == p.imageUrl && q.year == p.year && q.createdAt == p.createdAt
    ensures q.title == f.title && q.artist == f.artist && q.price == Some(PriceParam(f.price))
    ensures q.installments == (if Given(f.installments) then ParseInt(f.installments.value) else Some(3))
    ensures q.installmentPrice == (if Given(f.installmentPrice) then Some(ParseFloat(f.installmentPrice.value)) else None)
    ensures q.categoryId == (if Given(f.categoryId) then ParseInt(f.categoryId.value) else None)
    ensures q.stock == (if Given(f.stock) then ParseInt(f.stock.value) else Some(0))
    ensures q.discount == (if Given(f.discount) then ParseInt(f.discount.value) else Some(0))
    ensures q.isFeatured == Some(FlagOn(f.isFeatured)) && q.isOnSale == Some(FlagOn(f.isOnSale))
    ensures q.recordLabel == OrNull(f.recordLabel) && q.description == OrNull(f.description)
    ensures q.country == OrNull(f.country) && q.conditionCover == OrNull(f.conditionCover)
    ensures q.conditionMedia == OrNull(f.conditionMedia)
  {
    var ps := IntParams(f);
    assert ps[0] in ps && ps[1] in ps && ps[2] in ps && ps[3] in ps;
    p.(title := f.title, artist := f.artist, price := Some(PriceParam(f.price)),
       installments := Column(ps[0]),
       installmentPrice := if Given(f.installmentPrice) then Some(ParseFloat(f.installmentPrice.value)) else None,
       recordLabel := OrNull(f.recordLabel), country := OrNull(f.country),
       conditionCover := OrNull(f.conditionCover), conditionMedia := OrNull(f.conditionMedia),
       categoryId := Column(ps[1]), stock := Column(ps[2]),
       isFeatured := Some(FlagOn(f.isFeatured)), isOnSale := Some(FlagOn(f.isOnSale)),
       discount := Column(ps[3]), description := OrNull(f.description))
  }

  /** The row the INSERT creates: the form's columns, no image, no year. */
  function NewProduct(id: int, f: ProductForm, now: int): Product
    requires Numeric(f)
  {
    WithForm(Product(id, None, None, None, None, None, None, None, None, None, None, None, None,
                     None, None, None, None, None, now), f)
  }

  // ---------------------------------------------------------------- uploaded images

  /** The image host's answer to one upload. */
  datatype Upload = Uploaded(url: string, publicId: string) | UploadFailed

  /** How many uploads succeed before the first failure. */
  function UploadedPrefix(us: seq<Upload>): (n: nat)
    ensures n <= |us|
    ensures forall j :: 0 <= j < n ==> us[j].Uploaded?
    ensures n < |us| ==> us[n].UploadFailed?
  {
    if us == [] || us[0].UploadFailed? then 0 else 1 + UploadedPrefix(us[1..])
  }

  /** The image rows inserted for the first `n` uploads, when the product had
      `start` images. */
  function NewImages(pid: int, us: seq<Upload>, start: int, firstId: int, n: nat): (r: seq<ProductImage>)
    requires n <= |us| && forall j :: 0 <= j < n ==> us[j].Uploaded?
    ensures |r| == n
  {
    if n == 0 then []
    else
      var u := us[n - 1];
      NewImages(pid, us, start, firstId, n - 1)
        + [ProductImage(firstId + n - 1, pid, u.url, Some(u.publicId), start == 0 && n - 1 == 0, start + n - 1, None)]
  }

  /** Upload `j` becomes an image of the product with the upload's URL and
      public id, shown at position `start + j`; only the very first image of
      a product without images is its main one. */
  lemma {:induction false} NewImagesRules(pid: int, us: seq<Upload>, start: int, firstId: int, n: nat)
    requires n <= |us| && forall j :: 0 <= j < n ==> us[j].Uploaded?
    ensures var r := NewImages(pid, us, start, firstId, n);
      forall j :: 0 <= j < n ==>
        r[j].id == firstId + j && r[j].productId == pid
        && r[j].imageUrl == us[j].url && r[j].publicId == Some(us[j].publicId)
        && r[j].displayOrder == start + j && (r[j].isMain <==> start == 0 && j == 0)
        && r[j].altText == None
  {
    if n > 0 {
      NewImagesRules(pid, us, start, firstId, n - 1);
    }
  }

  /** Among the new images at most one is main, and none is when the product
      already had images. */
  lemma AtMostOneNewMain(pid: int, us: seq<Upload>, start: int, firstId: int, n: nat)
    requires n <= |us| && forall j :: 0 <= j < n ==> us[j].Uploaded?
    ensures var r := NewImages(pid, us, start, firstId, n);
      (forall j, k :: 0 <= j < k < n ==> !(r[j].isMain && r[k].isMain))
      && (start != 0 ==> forall j :: 0 <= j < n ==> !r[j].isMain)
  {
    NewImagesRules(pid, us, start, firstId, n);
  }

  /** `UPDATE products SET image_url = url WHERE id = pid`. */
  function SetImageUrl(ps: seq<Product>, pid: int, url: string): (r: seq<Product>)
    ensures |r| == |ps|
    ensures forall k :: 0 <= k < |ps| ==>
      r[k] == if ps[k].id == pid then ps[k].(imageUrl := Some(url)) else ps[k]
  {
    seq(|ps|, k requires 0 <= k < |ps| => if ps[k].id == pid then ps[k].(imageUrl := Some(url)) else ps[k])
  }

  /** `SELECT COUNT(*) FROM product_images WHERE product_id = pid`. */
  function ImageCount(images: seq<ProductImage>, pid: int): nat {
    |ImagesOf(images, pid)|
  }

  /** The tables after the first `i` uploads went through the loop, when it
      started from `images0`, `products0` and the id `id0`. */
  predicate StoredUpTo(images: seq<ProductImage>, products: seq<Product>, nextId: int,
                       images0: seq<ProductImage>, products0: seq<Product>, id0: int,
                       pid: int, uploads: seq<Upload>, start: int, i: nat)
    requires i <= |uploads| && forall j :: 0 <= j < i ==> uploads[j].Uploaded?
  {
    && images == images0 + NewImages(pid, uploads, start, id0, i)
    && nextId == id0 + i
    && products == if start == 0 && i > 0 then SetImageUrl(products0, pid, uploads[0].url) else products0
  }

  /** The upload loop shared by create and update: for each upload in order,
      insert its image row; the first image of a product that had none also
      becomes the product's `image_url`. A failed upload throws out of the
      loop, leaving the rows already inserted. */
  method StoreUploads(db: Database, pid: int, uploads: seq<Upload>, start: int) returns (failed: bool)
    modifies db`images, db`products, db`nextId
    ensures var n := UploadedPrefix(uploads);
      failed == (n < |uploads|)
      && db.images == old(db.images) + NewImages(pid, uploads, start, old(db.nextId), n)
      && db.nextId == old(db.nextId) + n
      && db.products == if start == 0 && n > 0 then SetImageUrl(old(db.products), pid, uploads[0].url) else old(db.products)
  {
    ghost var images0, products0, id0 := db.images, db.products, db.nextId;
    var i := 0;
    while i < |uploads| && uploads[i].Uploaded?
      invariant i <= UploadedPrefix(uploads)
      invariant StoredUpTo(db.images, db.products, db.nextId, images0, products0, id0, pid, uploads, start, i)
    {
      ghost var images, products, nextId := db.images, db.products, db.nextId;
      StoreUpload(db, pid, uploads[i], start, i);
      StoredNext(images, products, nextId, db.images, db.products, db.nextId,
                 images0, products0, id0, pid, uploads, start, i);
      i := i + 1;
    }
    failed := i < |uploads|;
  }

  /** One more upload through the loop extends what was stored. */
  lemma StoredNext(images: seq<ProductImage>, products: seq<Product>, nextId: int,
                   images': seq<ProductImage>, products': seq<Product>, nextId': int,
                   images0: seq<ProductImage>, products0: seq<Product>, id0: int,
                   pid: int, uploads: seq<Upload>, start: int, i: nat)
    requires i < |uploads| && forall j :: 0 <= j <= i ==> uploads[j].Uploaded?
    requires StoredUpTo(images, products, nextId, images0, products0, id0, pid, uploads, start, i)
    requires images' == images
      + [ProductImage(nextId, pid, uploads[i].url, Some(uploads[i].publicId), start == 0 && i == 0, start + i, None)]
    requires nextId' == nextId + 1
    requires products' == if start == 0 && i == 0 then SetImageUrl(products, pid, uploads[i].url) else products
    ensures StoredUpTo(images', products', nextId', images0, products0, id0, pid, uploads, start, i + 1)
  {
  }

  /** One pass of the upload loop: upload `i` becomes the next image row,
      and the product's `image_url` when it is its first image. */
  method StoreUpload(db: Database, pid: int, u: Upload, start: int, i: int)
    requires u.Uploaded?
    modifies db`images, db`products, db`nextId
    ensures db.images == old(db.images)
      + [ProductImage(old(db.nextId), pid, u.url, Some(u.publicId), start == 0 && i == 0, start + i, None)]
    ensures db.nextId == old(db.nextId) + 1
    ensures db.products == if start == 0 && i == 0 then SetImageUrl(old(db.products), pid, u.url) else old(db.products)
  {
    var id := db.FreshId();
    db.images := db.images + [ProductImage(id, pid, u.url, Some(u.publicId), start == 0 && i == 0, start + i, None)];
    if start == 0 && i == 0 {
      db.products := SetImageUrl(db.products, pid, u.url);
    }
  }

  // ---------------------------------------------------------------- create

  const RequiredError := "T\U{00ED}tulo, artista y precio son requeridos"
  const CreateError := "Error al crear el vinilo"

  /** POST /products: 400 unless title, artist and price are given; then the
      row is inserted and the images uploaded in order, image `i` at display
      position `i` and image 0 the main one. The reply carries the row as the
      INSERT returned it. */
  method CreateProduct(db: Database, form: ProductForm, uploads: seq<Upload>, now: int)
    returns (r: Reply<Product>)
    modifies db`products, db`images, db`nextId
    ensures !Given(form.title) || !Given(form.artist) || !Given(form.price) ==>
      r == Fail(400, RequiredError)
      && db.products == old(db.products) && db.images == old(db.images) && db.nextId == old(db.nextId)
    ensures Given(form.title) && Given(form.artist) && Given(form.price) && !Numeric(form) ==>
      r == Fail(500, CreateError)
      && db.products == old(db.products) && db.images == old(db.images) && db.nextId == old(db.nextId)
    ensures Given(form.title) && Given(form.artist) && Given(form.price) && Numeric(form) ==>
      var id := old(db.nextId);
      var p := NewProduct(id, form, now);
      var n := UploadedPrefix(uploads);
      db.products == (if n > 0 then SetImageUrl(old(db.products) + [p], id, uploads[0].url) else old(db.products) + [p])
      && db.images == old(db.images) + NewImages(id, uploads, 0, id + 1, n)
      && db.nextId == id + 1 + n
      && r == if n == |uploads| then Ok(201, p) else Fail(500, CreateError)
  {
    if !Given(form.title) || !Given(form.artist) || !Given(form.price) {
      return Fail(400, RequiredError);
    }
    if !Numeric(form) {
      return Fail(500, CreateError);
    }
    var id := db.FreshId();
    var p := NewProduct(id, form, now);
    db.products := db.products + [p];
    var failed := StoreUploads(db, id, uploads, 0);
    r := if failed then Fail(500, CreateError) else Ok(201, p);
  }

  // ---------------------------------------------------------------- update

  const NotFoundError := "Vinilo no encontrado"
  const UpdateError := "Error al actualizar el vinilo"

  /** The UPDATE of the form's columns on every row with id `pid`. */
  function Overwrite(ps: seq<Product>, pid: int, f: ProductForm): (r: seq<Product>)
    requires Numeric(f)
    ensures |r| == |ps|
    ensures forall k :: 0 <= k < |ps| ==> r[k] == if ps[k].id == pid then WithForm(ps[k], f) else ps[k]
  {
    seq(|ps|, k requires 0 <= k < |ps| => if ps[k].id == pid then WithForm(ps[k], f) else ps[k])
  }

  /** PUT /products/:id: the form overwrites the row (404 when there is
      none); new images are appended at display position COUNT + i, and the
      first one is main only when the product had no image at all. */
  method UpdateProduct(db: Database, pid: int, form: ProductForm, uploads: seq<Upload>)
    returns (r: Reply<Product>)
    modifies db`products, db`images, db`nextId
    ensures !Numeric(form) ==>
      r == Fail(500, UpdateError)
      && db.products == old(db.products) && db.images == old(db.images) && db.nextId == old(db.nextId)
    ensures Numeric(form) && FindProduct(old(db.products), pid) == |old(db.products)| ==>
      r == Fail(404, NotFoundError)
      && db.products == old(db.products) && db.images == old(db.images) && db.nextId == old(db.nextId)
    ensures Numeric(form) && FindProduct(old(db.products), pid) < |old(db.products)| ==>
      var ps := Overwrite(old(db.products), pid, form);
      var start := ImageCount(old(db.images), pid);
      var n := UploadedPrefix(uploads);
      db.products == (if start == 0 && n > 0 then SetImageUrl(ps, pid, uploads[0].url) else ps)
      && db.images == old(db.images) + NewImages(pid, uploads, start, old(db.nextId), n)
      && db.nextId == old(db.nextId) + n
      && r == if n == |uploads| then Ok(200, ps[FindProduct(old(db.products), pid)]) else Fail(500, UpdateError)
  {
    if !Numeric(form) {
      return Fail(500, UpdateError);
    }
    var k := FindProduct(db.products, pid);
    if k == |db.products| {
      return Fail(404, NotFoundError);
    }
    db.products := Overwrite(db.products, pid, form);
    var updated := db.products[k];
    var start := ImageCount(db.images, pid);
    var failed := StoreUploads(db, pid, uploads, start);
    r := if failed then Fail(500, UpdateError) else Ok(200, updated);
  }

  /** Numbering appended images from the COUNT of the gallery repeats a
      display position once an earlier image has been deleted: a product
      left with only its image at position 1 gets its next image at
      position 1 again. */
  lemma CountStartRepeatsOrder(kept: ProductImage, url: string, publicId: string, firstId: int)
    requires kept.displayOrder == 1
    ensures var added := NewImages(kept.productId, [Uploaded(url, publicId)], ImageCount([kept], kept.productId), firstId, 1);
      added[0].displayOrder == kept.displayOrder && !added[0].isMain
  {
    assert kept in ImagesOf([kept], kept.productId);
    assert |ImagesOf([kept], kept.productId)| == 1;
    NewImagesRules(kept.productId, [Uploaded(url, publicId)], 1, firstId, 1);
  }

  // ---------------------------------------------------------------- delete

  /** The public ids of product `pid`'s hosted images, in table order. */
  function PublicIds(images: seq<ProductImage>, pid: int): (r: seq<string>)
    ensures forall x :: x in r <==> exists img :: img in images && img.productId == pid && img.publicId == Some(x)
  {
    if images == [] then []
    else
      var last := images[|images| - 1];
      var init := images[..|images| - 1];
      assert forall img :: img in images <==> img in init || img == last by {
        assert images == init + [last];
      }
      PublicIds(init, pid) + (if last.productId == pid && last.publicId.Some? then [last.publicId.value] else [])
  }

  /** DELETE /products/:id: every stored public id of the product is sent to
      the image host, whose failures are swallowed; then the product row is
      deleted, and its image rows with it (the foreign key cascades). The
      reply does not depend on whether the product existed. */
  method DeleteProduct(db: Database, pid: int, destroy: string -> bool)
    returns (r: Reply<string>, attempted: seq<string>)
    modifies db`products, db`images
    ensures attempted == PublicIds(old(db.images), pid)
    ensures db.products == Filter(old(db.products), (p: Product) => p.id != pid)
    ensures db.images == Filter(old(db.images), (img: ProductImage) => img.productId != pid)
    ensures r == Ok(200, "Vinilo eliminado")
  {
    var ids := PublicIds(db.images, pid);
    attempted := [];
    for k := 0 to |ids|
      invariant attempted == ids[..k]
    {
      var _ := destroy(ids[k]);
      attempted := attempted + [ids[k]];
    }
    assert ids[..|ids|] == ids;
    db.products := Filter(db.products, (p: Product) => p.id != pid);
    db.images := Filter(db.images, (img: ProductImage) => img.productId != pid);
    r := Ok(200, "Vinilo eliminado");
  }

  // ---------------------------------------------------------------- order status

  const ValidStatuses: seq<string> := ["pending", "paid", "shipped", "delivered", "cancelled"]

  /** `validStatuses.includes(status)`; an absent status is not included. */
  predicate ValidStatus(status: Option<string>) {
    status.Some? && status.value in ValidStatuses
  }

  /** `UPDATE orders SET status, updated_at WHERE id = oid`. */
  function SetStatus(os: seq<Order>, oid: int, status: string, now: int): (r: seq<Order>)
    ensures |r| == |os|
    ensures forall k :: 0 <= k < |os| ==> r[k] == if os[k].id == oid then Order(oid, status, now) else os[k]
  {
    seq(|os|, k requires 0 <= k < |os| => if os[k].id == oid then Order(oid, status, now) else os[k])
  }

  /** The position of the first order with id `oid`, or `|os|`. */
  function FindOrder(os: seq<Order>, oid: int): (k: nat)
    ensures k <= |os|
    ensures k < |os| ==> os[k].id == oid
    ensures forall j :: 0 <= j < k ==> os[j].id != oid
  {
    if os == [] then 0
    else if os[0].id == oid then 0
    else 1 + FindOrder(os[1..], oid)
  }

  /** PATCH /orders/:id/status: 400 for a status outside the allow-list,
      404 for an unknown order, otherwise the status is set from whatever it
      was. */
  method UpdateOrderStatus(db: Database, oid: int, status: Option<string>, now: int)
    returns (r: Reply<Order>)
    modifies db`orders
    ensures !ValidStatus(status) ==> r == Fail(400, "Estado inv\U{00E1}lido") && db.orders == old(db.orders)
    ensures ValidStatus(status) && FindOrder(old(db.orders), oid) == |old(db.orders)| ==>
      r == Fail(404, "Orden no encontrada") && db.orders == old(db.orders)
    ensures ValidStatus(status) && FindOrder(old(db.orders), oid) < |old(db.orders)| ==>
      r == Ok(200, Order(oid, status.value, now)) && db.orders == SetStatus(old(db.orders), oid, status.value, now)
  {
    if !ValidStatus(status) {
      return Fail(400, "Estado inv\U{00E1}lido");
    }
    var k := FindOrder(db.orders, oid);
    if k == |db.orders| {
      return Fail(404, "Orden no encontrada");
    }
    db.orders := SetStatus(db.orders, oid, status.value, now);
    r := Ok(200, db.orders[k]);
  }

  /** The route never stores a status outside the allow-list: if every order
      had an allowed status before, every order has one after. */
  lemma StatusesStayValid(os: seq<Order>, oid: int, status: string, now: int)
    requires ValidStatus(Some(status))
    requires forall o :: o in os ==> ValidStatus(Some(o.status))
    ensures forall o :: o in SetStatus(os, oid, status, now) ==> ValidStatus(Some(o.status))
  {
    var r := SetStatus(os, oid, status, now);
    forall o | o in r ensures ValidStatus(Some(o.status)) {
      var k :| 0 <= k < |r| && r[k] == o;
      if os[k].id != oid { assert os[k] in os; }
    }
  }
}
