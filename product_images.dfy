/** The gallery routes of a product: list its images by display position, add
    an image after the last position, update an image with COALESCE, delete
    one, and mark one as main. Every route that names an image acts only when
    both the image id and the product id match. */
module ProductImages {
  import opened JsString
  import opened Store
  import opened Sorting

  const ImageNotFound := "Imagen no encontrada"

  // ---------------------------------------------------------------- listing

  /** `ORDER BY display_order ASC`. */
  const ByOrder: (ProductImage, ProductImage) -> bool :=
    (a: ProductImage, b: ProductImage) => a.displayOrder <= b.displayOrder

  lemma ByOrderIsTotalPreorder()
    ensures TotalPreorder(ByOrder)
  {
  }

  /** The listing: the product's images sorted by display position. */
  function Gallery(images: seq<ProductImage>, pid: int): seq<ProductImage> {
    ByOrderIsTotalPreorder();
    SortBy(ImagesOf(images, pid), ByOrder)
  }

  /** GET /:productId/images: the count and the sorted images. */
  method ListImages(db: Database, pid: int) returns (count: nat, list: seq<ProductImage>)
    ensures list == Gallery(db.images, pid) && count == |list|
  {
    list := Gallery(db.images, pid);
    count := |list|;
  }

  /** The listing holds exactly the product's images, each as often as in the
      table, sorted by display position. */
  lemma GalleryIsSortedSelection(images: seq<ProductImage>, pid: int)
    ensures var g := Gallery(images, pid);
      SortedBy(g, ByOrder)
      && (forall img :: img in g <==> img in images && img.productId == pid)
      && multiset(g) == multiset(ImagesOf(images, pid))
  {
    var g := Gallery(images, pid);
    forall img ensures img in g <==> img in ImagesOf(images, pid) {
      assert img in g <==> img in multiset(g);
      assert img in ImagesOf(images, pid) <==> img in multiset(ImagesOf(images, pid));
    }
  }

  // ---------------------------------------------------------------- add

  /** `MAX(display_order)` over the product's images, `None` when it has none. */
  function MaxOrder(images: seq<ProductImage>, pid: int): (m: Option<int>)
    ensures m.None? <==> forall img :: img in images ==> img.productId != pid
    ensures m.Some? ==> exists img :: img in images && img.productId == pid && img.displayOrder == m.value
    ensures m.Some? ==> forall img :: img in images && img.productId == pid ==> img.displayOrder <= m.value
  {
    if images == [] then None
    else
      var init := images[..|images| - 1];
      var last := images[|images| - 1];
      assert forall img :: img in images <==> img in init || img == last by {
        assert images == init + [last];
      }
      var m := MaxOrder(init, pid);
      if last.productId != pid then m
      else if m.Some? && m.value >= last.displayOrder then m
      else Some(last.displayOrder)
  }

  /** `COALESCE(MAX(display_order), -1) + 1`. */
  function NextOrder(images: seq<ProductImage>, pid: int): int {
    var m := MaxOrder(images, pid);
    if m.Some? then m.value + 1 else 0
  }

  /** The next position is one past the product's last one: past every image
      of the product, so an added image never shares a position, and 0 for a
      product without images. */
  lemma NextOrderIsFresh(images: seq<ProductImage>, pid: int)
    ensures forall img :: img in images && img.productId == pid ==> img.displayOrder < NextOrder(images, pid)
    ensures (forall img :: img in images ==> img.productId != pid) ==> NextOrder(images, pid) == 0
    ensures (exists img :: img in images && img.productId == pid) ==>
      exists img :: img in images && img.productId == pid && img.displayOrder == NextOrder(images, pid) - 1
  {
  }

  /** Whether some product has id `pid`. */
  predicate ProductExists(ps: seq<Product>, pid: int) {
    exists k :: 0 <= k < |ps| && ps[k].id == pid
  }

  /** POST /:productId/images: 400 without an image URL, 404 for an unknown
      product, and in both cases nothing changes; otherwise the image is
      appended after the product's last position, main only if asked. */
  method AddImage(db: Database, pid: int, imageUrl: Option<string>, isMain: Option<bool>, altText: Option<string>)
    returns (r: Reply<ProductImage>)
    modifies db`images, db`nextId
    ensures imageUrl.None? || imageUrl.value == [] ==>
      r == Fail(400, "image_url es requerido") && db.images == old(db.images) && db.nextId == old(db.nextId)
    ensures imageUrl.Some? && imageUrl.value != [] && !ProductExists(db.products, pid) ==>
      r == Fail(404, "Producto no encontrado") && db.images == old(db.images) && db.nextId == old(db.nextId)
    ensures imageUrl.Some? && imageUrl.value != [] && ProductExists(db.products, pid) ==>
      var img := ProductImage(old(db.nextId), pid, imageUrl.value, None, isMain == Some(true),
                              NextOrder(old(db.images), pid), altText);
      r == Ok(201, img) && db.images == old(db.images) + [img] && db.nextId == old(db.nextId) + 1
  {
    if imageUrl.None? || imageUrl.value == [] {
      return Fail(400, "image_url es requerido");
    }
    if !ProductExists(db.products, pid) {
      return Fail(404, "Producto no encontrado");
    }
    var next := NextOrder(db.images, pid);
    var id := db.FreshId();
    var img := ProductImage(id, pid, imageUrl.value, None, isMain == Some(true), next, altText);
    db.images := db.images + [img];
    r := Ok(201, img);
  }

  // ---------------------------------------------------------------- the image routes

  /** Whether image `iid` belongs to product `pid`. */
  predicate Targets(img: ProductImage, pid: int, iid: int) {
    img.id == iid && img.productId == pid
  }

  /** The position of the first image matching both ids, or `|images|`. */
  function FindImage(images: seq<ProductImage>, pid: int, iid: int): (k: nat)
    ensures k <= |images|
    ensures k < |images| ==> Targets(images[k], pid, iid)
    ensures forall j :: 0 <= j < k ==> !Targets(images[j], pid, iid)
  {
    if images == [] then 0
    else if Targets(images[0], pid, iid) then 0
    else 1 + FindImage(images[1..], pid, iid)
  }

  /** The optional fields of an update; `None` is a null or absent field. */
  datatype Patch = Patch(imageUrl: Option<string>, isMain: Option<bool>, displayOrder: Option<int>,
                         altText: Option<string>)

  /** `COALESCE(new, old)`. */
  function Coalesce<T>(n: Option<T>, o: T): T {
    if n.Some? then n.value else o
  }

  function Patched(img: ProductImage, p: Patch): ProductImage {
    img.(imageUrl := Coalesce(p.imageUrl, img.imageUrl), isMain := Coalesce(p.isMain, img.isMain),
         displayOrder := Coalesce(p.displayOrder, img.displayOrder),
         altText := if p.altText.Some? then p.altText else img.altText)
  }

  /** The UPDATE with COALESCE on the targeted image. */
  function PatchImages(images: seq<ProductImage>, pid: int, iid: int, p: Patch): (r: seq<ProductImage>)
    ensures |r| == |images|
  {
    seq(|images|, k requires 0 <= k < |images| => if Targets(images[k], pid, iid) then Patched(images[k], p) else images[k])
  }

  /** An update changes only the targeted image, and in it only the fields
      supplied; applying the same update again changes nothing more. */
  lemma PatchRules(images: seq<ProductImage>, pid: int, iid: int, p: Patch)
    ensures var r := PatchImages(images, pid, iid, p);
      forall k :: 0 <= k < |images| ==>
        (!Targets(images[k], pid, iid) ==> r[k] == images[k])
        && (Targets(images[k], pid, iid) ==>
              r[k].id == iid && r[k].productId == pid && r[k].publicId == images[k].publicId
              && (p.imageUrl.None? ==> r[k].imageUrl == images[k].imageUrl)
              && (p.imageUrl.Some? ==> r[k].imageUrl == p.imageUrl.value)
              && (p.isMain.None? ==> r[k].isMain == images[k].isMain)
              && (p.isMain.Some? ==> r[k].isMain == p.isMain.value)
              && (p.displayOrder.None? ==> r[k].displayOrder == images[k].displayOrder)
              && (p.displayOrder.Some? ==> r[k].displayOrder == p.displayOrder.value)
              && (p.altText.None? ==> r[k].altText == images[k].altText)
              && (p.altText.Some? ==> r[k].altText == p.altText))
    ensures PatchImages(PatchImages(images, pid, iid, p), pid, iid, p) == PatchImages(images, pid, iid, p)
  {
  }

  /** PUT /:productId/images/:imageId: 404 and no change unless an image
      matches both ids. */
  method UpdateImage(db: Database, pid: int, iid: int, p: Patch) returns (r: Reply<ProductImage>)
    modifies db`images
    ensures FindImage(old(db.images), pid, iid) == |old(db.images)| ==>
      r == Fail(404, ImageNotFound) && db.images == old(db.images)
    ensures FindImage(old(db.images), pid, iid) < |old(db.images)| ==>
      db.images == PatchImages(old(db.images), pid, iid, p)
      && r == Ok(200, Patched(old(db.images)[FindImage(old(db.images), pid, iid)], p))
  {
    var k := FindImage(db.images, pid, iid);
    if k == |db.images| {
      return Fail(404, ImageNotFound);
    }
    db.images := PatchImages(db.images, pid, iid, p);
    r := Ok(200, db.images[k]);
  }

  /** DELETE /:productId/images/:imageId: removes the matching image (404 and
      no change when there is none). */
  method DeleteImage(db: Database, pid: int, iid: int) returns (r: Reply<ProductImage>)
    modifies db`images
    ensures FindImage(old(db.images), pid, iid) == |old(db.images)| ==>
      r == Fail(404, ImageNotFound) && db.images == old(db.images)
    ensures FindImage(old(db.images), pid, iid) < |old(db.images)| ==>
      db.images == Filter(old(db.images), (img: ProductImage) => !Targets(img, pid, iid))
      && r == Ok(200, old(db.images)[FindImage(old(db.images), pid, iid)])
  {
    var k := FindImage(db.images, pid, iid);
    if k == |db.images| {
      return Fail(404, ImageNotFound);
    }
    r := Ok(200, db.images[k]);
    db.images := Filter(db.images, (img: ProductImage) => !Targets(img, pid, iid));
  }

  /** A delete removes the targeted image and keeps every other one. */
  lemma DeleteRemovesOnlyTarget(images: seq<ProductImage>, pid: int, iid: int)
    requires FindImage(images, pid, iid) < |images|
    ensures var r := Filter(images, (img: ProductImage) => !Targets(img, pid, iid));
      (forall img :: img in r <==> img in images && !Targets(img, pid, iid))
      && |r| < |images|
  {
    var k := FindImage(images, pid, iid);
    FilterDrops(images, (img: ProductImage) => !Targets(img, pid, iid), images[k]);
  }

  /** `UPDATE product_images SET is_main = true` on the targeted image only. */
  function MarkMain(images: seq<ProductImage>, pid: int, iid: int): (r: seq<ProductImage>)
    ensures |r| == |images|
  {
    seq(|images|, k requires 0 <= k < |images| => if Targets(images[k], pid, iid) then images[k].(isMain := true) else images[k])
  }

  /** PUT /:productId/images/:imageId/set-main: 404 and no change unless an
      image matches both ids. */
  method SetMain(db: Database, pid: int, iid: int) returns (r: Reply<ProductImage>)
    modifies db`images
    ensures FindImage(old(db.images), pid, iid) == |old(db.images)| ==>
      r == Fail(404, ImageNotFound) && db.images == old(db.images)
    ensures FindImage(old(db.images), pid, iid) < |old(db.images)| ==>
      db.images == MarkMain(old(db.images), pid, iid)
      && r == Ok(200, old(db.images)[FindImage(old(db.images), pid, iid)].(isMain := true))
  {
    var k := FindImage(db.images, pid, iid);
    if k == |db.images| {
      return Fail(404, ImageNotFound);
    }
    db.images := MarkMain(db.images, pid, iid);
    r := Ok(200, db.images[k]);
  }

  /** Set-main does not clear the other images' flag: an image that was main
      stays main, so a product can end up with two main images. */
  lemma SetMainKeepsOtherMains(images: seq<ProductImage>, pid: int, iid: int, j: nat, k: nat)
    requires j < |images| && k < |images| && j != k
    requires Targets(images[j], pid, iid) && images[k].isMain && images[k].productId == pid
    ensures var r := MarkMain(images, pid, iid);
      r[j].isMain && r[k].isMain && r[j].productId == pid && r[k].productId == pid
    ensures forall m :: 0 <= m < |images| ==>
      MarkMain(images, pid, iid)[m] == if Targets(images[m], pid, iid) then images[m].(isMain := true) else images[m]
  {
  }
}
