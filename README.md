# bb-discos in Dafny

A model of the logic of the bb-discos record shop, with proofs about it. The shop is an Express backend over a PostgreSQL catalogue of vinyl records plus a React frontend.

The model covers:

- **The CSV bulk import of the admin routes** (`csv_import.dfy`), which is the centre of the model. It follows the import handler step by step:
  - keep the non-blank lines;
  - split each line with the quote-toggling splitter;
  - normalise the header names and build each row by header;
  - resolve the English or Spanish alias columns and validate title, artist and price;
  - resolve the category from a numeric id or a case-insensitive name or slug;
  - run the batch loop that counts the created products and collects the row errors in order.

  The database insert is an oracle that may throw.
- **The admin product routes** (`admin_products.dfy`):
  - gallery ordering on create and on update;
  - best-effort image deletion;
  - the order-status allow-list.
- **The other backend routes:**
  - the product gallery routes (`product_images.dfy`);
  - the filtered catalogue listing and the product routes (`products.dfy`);
  - the category listing and slug lookup (`categories.dfy`);
  - the authentication middleware (`auth_middleware.dfy`);
  - registration, login, profile, password and address routes (`auth_routes.dfy`).
- **The two maintenance scripts:**
  - the naive CSV importer (`import_script.dfy`);
  - the promote-or-create admin script (`create_admin.dfy`).
- **The frontend logic:**
  - the API client's query building and row mapping (`api_client.dfy`);
  - the session state (`auth_context.dfy`);
  - the filter panel (`filters_bar.dfy`);
  - the carousels' index state machine (`carousel.dfy`);
  - the admin panel's image and CSV handling (`admin_panel.dfy`).

The supporting modules are:

- `store.dfy`: tables as sequences of records, with a serial-id counter.
- `sorting.dfy`: ORDER BY as a stable insertion sort.
- `js_string.dfy`: the JavaScript string operations the code relies on, namely `trim`, `split`, `toLowerCase` and `String(n)`.
- `js_number.dfy`: `parseInt`, `parseFloat` and `Number`, over exact decimals with NaN and the infinities.

Tables that a handler changes are fields of a `Database` class. Each handler is a method with a `modifies` clause. Its `ensures` ties the new tables to functions of the old ones, and lemmas state the rules about those functions.

Cloudinary, bcrypt and JSON Web Tokens are not modelled. Each appears as a parameter: an oracle result, a hash function or a verify function. The window width, `localStorage` and the server's replies to the frontend are parameters too.

## Behaviour worth knowing

The code behaves as follows in these places:

- **Header names keep underscores.** The CSV header normaliser keeps `a-z` and `_` (`backend/src/routes/admin.js:334`). Stripping every non-letter would break the `category_id` column, and the code keeps `_`. Lemma `CsvImport.NormalizeHeaderIdempotent` covers this.
- **Appended images are numbered from the existing image COUNT, not MAX+1** (`backend/src/routes/admin.js:264-268`). After a gallery deletion, a display order can repeat. `AdminProducts.CountStartRepeatsOrder` exhibits such a case. The gallery's own "add image" route does use MAX+1 (`backend/src/routes/productImages.js:59-63`).
- **`created` counts every insert that does not throw.** This includes an `ON CONFLICT DO NOTHING` that inserts nothing (`backend/src/routes/admin.js:387-402`). `CsvImport.ProcessRowOutcome` states the per-row rule. `CsvImport.ReimportCountsConflictsAsCreated` shows that re-importing a file whose rows all exist stores nothing, yet reports every valid row as created, not 0.
- **Only a price of 0 or NaN is rejected.** A negative price passes validation (`backend/src/routes/admin.js:358-360`). `CsvImport.NegativePriceAccepted` shows this.
- **Row errors carry the position among the non-blank lines.** They read `Fila {i+1}: …`, so the first data line is "Fila 2".
- **Set-main does not clear the other main images** (`backend/src/routes/productImages.js:161-164`). Several images can be main at once. `ProductImages.SetMainKeepsOtherMains` shows this.

## Model

| member | source | states |
|---|---|---|
| Products.OneTo | backend/src/routes/products.js:28-29 | the placeholder numbers `$1, $2, ...` the counter hands out are exactly 1 to n in order |
| Products.PlaceholdersSnoc | backend/src/routes/products.js:31-60 | appending a clause extends the placeholder list by that clause's placeholder, and by nothing for the two flag clauses |
| Products.MatchesExtend | backend/src/routes/products.js:28-64 | binding more parameters after a clause's own never changes which rows the clause selects |
| Products.WantedUpToStep | backend/src/routes/products.js:31-60 | the first k filters hold exactly when the first k-1 hold and filter k holds |
| Products.AddClause | backend/src/routes/products.js:31-60 | a supplied filter's clause, bound to the next placeholder, keeps the built query equivalent to the filters handled so far |
| Products.SkipFilter | backend/src/routes/products.js:31-60 | an absent filter adds no clause and no parameter and the query stays equivalent |
| Products.CategoryBlock | backend/src/routes/products.js:32-36 | a non-empty `category` adds `c.slug = $n` with the text bound to `$n` and advances the counter; otherwise nothing changes |
| Products.MinPriceBlock | backend/src/routes/products.js:39-43 | a non-empty `minPrice` adds `p.price >= $n` bound to `parseFloat(minPrice)` and advances the counter |
| Products.MaxPriceBlock | backend/src/routes/products.js:46-50 | a non-empty `maxPrice` adds `p.price <= $n` bound to `parseFloat(maxPrice)` and advances the counter |
| Products.FeaturedBlock | backend/src/routes/products.js:53-55 | only the exact text `"true"` adds the featured clause; it binds no parameter |
| Products.OnSaleBlock | backend/src/routes/products.js:58-60 | only the exact text `"true"` adds the on-sale clause; it binds no parameter |
| Products.BuildQuery | backend/src/routes/products.js:11-60 | the placeholders used are exactly `$1..$n` for the n parameters, each parameter has its clause's kind, n counts the supplied text filters, and a row passes the WHERE clause iff it passes every supplied filter |
| Products.CategoryOf | backend/src/routes/products.js:24 | the LEFT JOIN finds a category with the product's `category_id`, or none when the id is NULL or unknown |
| Products.FirstMainUrl | backend/src/routes/products.js:17-20 | the subquery returns the URL of a main image of this product, and NULL exactly when it has none |
| Products.MainImageFallback | backend/src/routes/products.js:17-22 | `main_image_url` is a main gallery image's URL when there is one, and the product's own `image_url` otherwise |
| Products.Joined | backend/src/routes/products.js:13-26 | one joined row per product, carrying that product, in table order |
| Products.NewestIsTotalPreorder | backend/src/routes/products.js:62 | `created_at DESC` compares any two rows and is transitive, so the sort is well defined |
| Products.FilterSame | backend/src/routes/products.js:64 | two equivalent WHERE conditions select the same rows |
| Products.ListProducts | backend/src/routes/products.js:9-70 | GET / answers the filtered, newest-first listing, and `count` is its length |
| Products.ListingMeaning | backend/src/routes/products.js:9-70 | the listing is sorted newest first and holds exactly the joined rows that pass every supplied filter |
| Store.FindProduct | backend/src/routes/products.js:85-101 | the position found holds the product with the id, no earlier one has it, and the table length means none does; the admin update's `WHERE id=$16` uses the same lookup |
| Products.GetProduct | backend/src/routes/products.js:81-124 | an unknown id gives 404 "Producto no encontrado"; a known one gives its joined row with its images by `display_order` |
| Products.CreatedRow | backend/src/routes/products.js:137-178 | the inserted row takes the body's title, artist, category, description, year, stock and image URL and the time `now`, leaves the columns POST / does not write empty, `is_featured`/`is_on_sale` default to false and the discount to 0, the price column is NULL for an absent or `null` price, and the installment price is `price / 3` |
| Products.CreateProduct | backend/src/routes/products.js:135-184 | POST / appends that row with the next id and answers 201 with it, whether the price was a number, `null` or absent |
| Products.UpdateRows | backend/src/routes/products.js:214-239 | the UPDATE rewrites every column of the rows with that id from the body as sent (an absent or `null` price as NULL, its installment price `price / 3`), and leaves the others as they were |
| Products.UpdateProduct | backend/src/routes/products.js:195-252 | an unknown id gives 404 and changes nothing; otherwise the row is updated as `UpdateRows` states and returned |
| Products.UpdateTouchesOnlyTarget | backend/src/routes/products.js:216-221 | an update keeps every row's id and creation time and changes no other product |
| Products.PriceColumn | backend/src/routes/products.js:164-168 | the driver writes a price of `null` or none as NULL, and a number as itself |
| Products.InstallmentPrice | backend/src/routes/products.js:152 | `price / 3` is NaN for an absent price, 0 for `null`, and the division of the number otherwise |
| Products.MissingPriceInstallments | backend/src/routes/products.js:152-228 | an absent and a `null` price both store a NULL price, but the installment price is NaN for the first and 0 for the second, on create and on update |
| Products.DeleteProduct | backend/src/routes/products.js:263-283 | an unknown id gives 404 and changes nothing; otherwise the product and its images are removed and the deleted row is returned |
| Categories.ProductCount | backend/src/routes/categories.js:12-15 | `COUNT(p.id)` for a category never exceeds the number of products |
| Categories.ProductCountIsSelection | backend/src/routes/categories.js:12-15 | the count is the number of products the LEFT JOIN pairs with the category |
| Categories.ProductCountZeroIff | backend/src/routes/categories.js:12-15 | a category's count is 0 exactly when no product points at it, and it is still listed |
| Categories.ByNameIsTotalPreorder | backend/src/routes/categories.js:16 | `ORDER BY c.name` compares any two rows and is transitive |
| Categories.Counted | backend/src/routes/categories.js:11-15 | one row per category, in table order, each with a count no larger than the number of products |
| Categories.ListCategories | backend/src/routes/categories.js:9-23 | GET / lists every category exactly once, sorted by name, and `count` is the number of categories |
| Categories.ListingMeaning | backend/src/routes/categories.js:11-17 | the rows are sorted by name and are exactly the categories paired with their product counts |
| Categories.FindSlug | backend/src/routes/categories.js:38-40 | the position found holds a category with exactly that slug and no earlier one has it |
| Categories.GetCategory | backend/src/routes/categories.js:34-52 | the lookup succeeds iff some category has the slug, answers with such a category, and otherwise gives 404 "Categoría no encontrada" |
| Categories.SlugLookupIsExact | backend/src/routes/categories.js:38-47 | the lookup finds nothing exactly when no category has that very slug, and a slug differing only in letter case is never the one found ("Rock" does not find "rock") |
| ProductImages.ByOrderIsTotalPreorder | backend/src/routes/productImages.js:14 | `ORDER BY display_order ASC` compares any two images and is transitive |
| ProductImages.ListImages | backend/src/routes/productImages.js:7-22 | GET lists the product's images sorted by display position, with their count |
| ProductImages.GalleryIsSortedSelection | backend/src/routes/productImages.js:11-16 | the listing is sorted by display position and holds exactly the product's images, each as often as in the table |
| ProductImages.MaxOrder | backend/src/routes/productImages.js:59-62 | `MAX(display_order)` is NULL iff the product has no image, and otherwise is the largest position among its images |
| ProductImages.NextOrderIsFresh | backend/src/routes/productImages.js:59-63 | the next position is past every position the product uses, one past its last, and 0 for a product without images |
| ProductImages.AddImage | backend/src/routes/productImages.js:33-77 | no or empty `image_url` gives 400, an unknown product 404, both without change; otherwise the image is appended at the next position, main only if asked, and answered with 201 |
| ProductImages.FindImage | backend/src/routes/productImages.js:99 | the position found holds an image matching both the image id and the product id, and no earlier image does |
| ProductImages.PatchImages | backend/src/routes/productImages.js:93-102 | the COALESCE update rewrites only the images matching both ids |
| ProductImages.PatchRules | backend/src/routes/productImages.js:94-99 | an update changes only the targeted image; in it each supplied field takes the supplied value and each absent one keeps the old value; repeating it changes nothing more |
| ProductImages.UpdateImage | backend/src/routes/productImages.js:88-115 | no image matching both ids gives 404 "Imagen no encontrada" and no change; otherwise the patched image is stored and returned |
| ProductImages.DeleteImage | backend/src/routes/productImages.js:126-146 | no image matching both ids gives 404 and no change; otherwise the matching images are removed and the first is returned |
| ProductImages.DeleteRemovesOnlyTarget | backend/src/routes/productImages.js:130-133 | a delete removes the targeted image, keeps every other one, and shortens the table |
| ProductImages.MarkMain | backend/src/routes/productImages.js:161-164 | `SET is_main = true` touches only the image matching both ids |
| ProductImages.SetMain | backend/src/routes/productImages.js:157-177 | no matching image gives 404 and no change; otherwise the image becomes main and is returned |
| ProductImages.SetMainKeepsOtherMains | backend/src/routes/productImages.js:161-164 | set-main does not clear the flag of another main image of the product, so two images can both be main |
| AdminProducts.IntOr | backend/src/routes/admin.js:178 | `x ? parseInt(x) : d`: an absent or empty field gives the default, and the parameter is NaN exactly when the text has no leading integer |
| AdminProducts.WithForm | backend/src/routes/admin.js:176-188 | the fifteen written columns: the price parsed as a float, installments 3, stock 0 and discount 0 by default, flags on only for `"true"` or `true`, empty texts (label, country, both conditions, description) as NULL, and every other column kept |
| AdminProducts.UploadedPrefix | backend/src/routes/admin.js:195-204 | the loop gets past exactly the uploads before the first failed one |
| AdminProducts.NewImages | backend/src/routes/admin.js:206-210 | one image row is inserted per successful upload |
| AdminProducts.NewImagesRules | backend/src/routes/admin.js:281-285 | upload `j` becomes an image of the product with its URL and public id at position `start + j`, main iff `start` is 0 and `j` is 0 |
| AdminProducts.AtMostOneNewMain | backend/src/routes/admin.js:284 | at most one new image is main, and none when the product already had images |
| AdminProducts.SetImageUrl | backend/src/routes/admin.js:214 | the UPDATE sets `image_url` on the product with that id and on no other row |
| AdminProducts.StoreUploads | backend/src/routes/admin.js:270-290 | the loop inserts one image row per upload until the first failure, sets the product's `image_url` from the first image of a product that had none, and reports whether an upload failed |
| AdminProducts.StoredNext | backend/src/routes/admin.js:281-289 | one more pass of the loop extends the stored rows by the next upload's image |
| AdminProducts.StoreUpload | backend/src/routes/admin.js:281-289 | one pass inserts the upload's image row and, for a product's first image, sets its `image_url` |
| AdminProducts.CreateProduct | backend/src/routes/admin.js:156-224 | a missing title, artist or price gives 400 and a NaN integer parameter 500, both without change; otherwise the row is inserted, the images stored at positions 0, 1, … with the first as main, and the reply is 201 with the row, or 500 after a failed upload |
| AdminProducts.Overwrite | backend/src/routes/admin.js:236-256 | the UPDATE rewrites the form's columns of the product with that id and of no other row |
| AdminProducts.UpdateProduct | backend/src/routes/admin.js:227-298 | a NaN integer parameter gives 500 and an unknown id 404, both without change; otherwise the row is overwritten, new images go at positions COUNT, COUNT+1, … with the first main only for a product without images, and the reply is 200 with the updated row, or 500 after a failed upload |
| AdminProducts.CountStartRepeatsOrder | backend/src/routes/admin.js:264-268 | numbering from COUNT repeats a display position already in use once an earlier image was deleted |
| AdminProducts.PublicIds | backend/src/routes/admin.js:306 | the ids sent to the image host are exactly the non-null public ids of the product's images |
| AdminProducts.DeleteProduct | backend/src/routes/admin.js:301-317 | every public id of the product is sent for deletion with failures ignored, the product and its images are removed, and the reply is 200 whether or not it existed |
| AdminProducts.SetStatus | backend/src/routes/admin.js:430-433 | the UPDATE sets status and time on the order with that id and on no other row |
| AdminProducts.FindOrder | backend/src/routes/admin.js:431 | `WHERE id=$2` finds the first order with the id, or none exists |
| AdminProducts.UpdateOrderStatus | backend/src/routes/admin.js:420-444 | a status outside the five allowed gives 400 and an unknown order 404, both without change; otherwise the order gets the status and is returned |
| AdminProducts.StatusesStayValid | backend/src/routes/admin.js:424-427 | the route never stores a status outside the allow-list |
| CsvImport.NonBlank | backend/src/routes/admin.js:327 | the kept lines are exactly the lines that are not blank after trimming |
| CsvImport.NonBlankAppend | backend/src/routes/admin.js:327 | dropping blank lines distributes over concatenation, so the kept lines keep their order and their repeats |
| CsvImport.TrimAll | backend/src/routes/admin.js:348-351 | every pushed field has no white space at either end |
| CsvImport.SplitLine | backend/src/routes/admin.js:343-351 | the character-by-character loop with its quote flag yields exactly the fields of the quote-toggling split whose four rules `SplitQuotedRules` proves |
| CsvImport.RemoveQuotes | backend/src/routes/admin.js:347 | quote characters are dropped from the text |
| CsvImport.ScanCounts | backend/src/routes/admin.js:346-350 | quoted mode is on exactly after an odd number of quotes, and one field is pushed per comma outside quotes |
| CsvImport.ScanDropsQuotes | backend/src/routes/admin.js:347 | no field ever holds a quote character |
| CsvImport.JoinRawFields | backend/src/routes/admin.js:346-351 | rejoining the untrimmed fields with commas gives the line without its quotes, so a comma inside quotes stays in its field |
| CsvImport.SplitQuotedRules | backend/src/routes/admin.js:343-351 | a line splits into one field per unquoted comma plus one, each trimmed and free of quotes, and no other character is lost |
| CsvImport.KeepHeaderChars | backend/src/routes/admin.js:334 | `replace(/[^a-z_]/g, "")` keeps exactly the characters `a`-`z` and `_`, in order |
| CsvImport.KeepHeaderCharsOfHeaderChars | backend/src/routes/admin.js:334 | a name made only of `a`-`z` and `_` passes the filter unchanged |
| CsvImport.NormalizeHeaderOfHeaderChars | backend/src/routes/admin.js:334 | such a name, `category_id` for one, is its own normal form, so underscores survive |
| CsvImport.NormalizeHeaderIdempotent | backend/src/routes/admin.js:334 | normalising a header name twice is normalising it once |
| CsvImport.Headers | backend/src/routes/admin.js:334 | there is one header name per plain comma-separated piece of the first line, and every name holds only `a`-`z` and `_` |
| CsvImport.BuildRow | backend/src/routes/admin.js:353-354 | the loop over the headers builds the row that maps each header to the value at its position, or `""` past the end of the line |
| CsvImport.RowOfLookup | backend/src/routes/admin.js:354 | a header at position `j` not repeated later reads the value at `j`, or `""` past the end of a short line |
| CsvImport.RowOfKeys | backend/src/routes/admin.js:354 | the row's keys are exactly the header names |
| CsvImport.RejectedIff | backend/src/routes/admin.js:356-363 | a row is rejected iff both title columns are empty, or both artist columns, or the price reads as NaN or 0 |
| CsvImport.MissingPriceRejected | backend/src/routes/admin.js:358-360 | a row without a price reads price 0 and is rejected |
| CsvImport.NegativePriceAccepted | backend/src/routes/admin.js:358-360 | a negative price passes validation |
| CsvImport.FirstMatch | backend/src/routes/admin.js:374-378 | the category taken is the first whose lower-cased name or slug equals the lower-cased value, or there is none |
| CsvImport.ResolveCategoryCases | backend/src/routes/admin.js:367-380 | an empty reference gives none, a number is used as it is, and a name or slug gives the first match's id, or none when nothing matches |
| CsvImport.NumericCategoryUnchecked | backend/src/routes/admin.js:370-372 | a value with a numeric prefix such as `12abc` becomes id 12 with no check that the category exists |
| CsvImport.TextOrNull | backend/src/routes/admin.js:390-399 | `s \|\| null` is NULL exactly for the empty string |
| CsvImport.DraftDefaults | backend/src/routes/admin.js:395-398 | an empty stock reads 1 and an empty discount 0 |
| CsvImport.DraftFlags | backend/src/routes/admin.js:396-397 | a flag is set by `true` in any letter case and by nothing else, so `1` does not set it |
| CsvImport.RowStep | backend/src/routes/admin.js:339-405 | the loop body applied to line `i` gives that line's result |
| CsvImport.Results | backend/src/routes/admin.js:338 | there is one result per data line |
| CsvImport.TallySnoc | backend/src/routes/admin.js:361-404 | one more result adds one to the count if created, its message to the errors otherwise, and its draft to the stored rows if kept |
| CsvImport.ProcessLine | backend/src/routes/admin.js:339-405 | one pass splits, builds, validates, resolves and inserts as the per-row function `ProcessRow` describes, with `Fila {i+1}` in every error |
| CsvImport.ImportRows | backend/src/routes/admin.js:336-406 | the loop's count, error list and stored rows equal those of the row-by-row fold `Results` |
| CsvImport.ImportCsv | backend/src/routes/admin.js:320-417 | no file gives 400 "Archivo CSV requerido", fewer than two non-blank lines 400, both storing nothing; otherwise 200 with the count, the message and the errors |
| CsvImport.CreatedPlusErrors | backend/src/routes/admin.js:361-404 | every result is counted once, as created or as an error, and no more rows are stored than counted |
| CsvImport.ImportAccountsForEveryLine | backend/src/routes/admin.js:336-412 | `created` plus the number of errors is the number of non-blank lines minus the header |
| CsvImport.ProcessRowShape | backend/src/routes/admin.js:360-404 | an error of line `i` starts with `Fila {i+1}: `, and a created row passed validation |
| CsvImport.ProcessRowOutcome | backend/src/routes/admin.js:360-405 | a row failing validation gives exactly `Fila {i+1}: falta título, artista o precio`; a thrown insert gives `Fila {i+1}: ` plus its message; an insert that stores the row and one that hits a conflict both count as created, only the first being stored |
| CsvImport.ResultsAt | backend/src/routes/admin.js:338-339 | result `k` of the batch is the loop body applied to non-blank line `k + 1` |
| CsvImport.CreatedCountsConflicts | backend/src/routes/admin.js:382-402 | `created` is the number of rows stored plus the number of rows whose insert was a conflict no-op |
| CsvImport.ReimportCountsConflictsAsCreated | backend/src/routes/admin.js:338-405 | when every insert is a conflict no-op, nothing is stored, yet `created` equals the number of conflicting rows, and a line is an error exactly when it fails validation |
| CsvImport.ResultsShaped | backend/src/routes/admin.js:338-406 | a loop body whose results all have that shape gives a batch where every result has it |
| CsvImport.ResultsWellFormed | backend/src/routes/admin.js:338-406 | every result of an import has that shape |
| CsvImport.ErrorsInRowOrder | backend/src/routes/admin.js:361-404 | errors are listed by strictly increasing row number from 2 on, each prefixed with its row |
| CsvImport.StoredRowsAreValid | backend/src/routes/admin.js:360-402 | only rows with a title, an artist and a non-zero price reach the store |
| AuthMiddleware.SessionOf | backend/src/middleware/auth.js:25 | `req.user` carries exactly the selected columns of the user row |
| AuthMiddleware.Request.constructor | backend/src/middleware/auth.js:10-12 | a request starts with its Authorization header and no user attached |
| AuthMiddleware.Token | backend/src/middleware/auth.js:20 | `authHeader.split(" ")[1]` is the text after `Bearer ` up to the next space |
| AuthMiddleware.TokenOfBearer | backend/src/middleware/auth.js:14-20 | a header `Bearer <t>` passes the prefix test and carries exactly the token `t` |
| AuthMiddleware.FindUser | backend/src/middleware/auth.js:24-27 | the lookup by id finds a user with that id, or none exists |
| AuthMiddleware.NoBearerIsRejected | backend/src/middleware/auth.js:14-18 | a missing header or one without the `Bearer ` prefix is answered 401 "Token de autenticación requerido" |
| AuthMiddleware.AcceptIff | backend/src/middleware/auth.js:10-36 | the request goes through with user `u` iff the token verifies to the id of an existing active user and `u` is that user's row |
| AuthMiddleware.VerifyErrors | backend/src/middleware/auth.js:37-42 | `JsonWebTokenError` and `TokenExpiredError` give 401 "Token inválido o expirado"; any other error is handed to `next(err)` |
| AuthMiddleware.Authenticate | backend/src/middleware/auth.js:10-43 | the outcome is the bearer/verify/active-user decision (401 for each refusal, a forwarded error otherwise), and `req.user` is set only when the request goes through |
| AuthMiddleware.RequireAdmin | backend/src/middleware/auth.js:49-56 | the gate passes exactly for a user whose role is `admin`; every refusal is 403 "Acceso denegado: se requiere rol administrador" |
| AuthMiddleware.AdminGateAfterAuthenticate | backend/src/middleware/auth.js:49-56 | after `authenticate`, the gate passes exactly for an active admin, and refuses a request without a user |
| AuthMiddleware.OptionalAgreesWithAuthenticate | backend/src/middleware/auth.js:62-87 | `optionalAuth` attaches user `u` iff `authenticate` would accept the request with `u`, and attaches none without a bearer header |
| AuthMiddleware.OptionalAuth | backend/src/middleware/auth.js:62-87 | `optionalAuth` never refuses and always sets `req.user`, to the user `authenticate` would accept, or null |
| AuthRoutes.TokenClaims | backend/src/routes/auth.js:15-16 | a token is signed over the user id alone and expires in 30 days |
| AuthRoutes.NewUser | backend/src/routes/auth.js:33-42 | the inserted row has the lower-cased email, role `customer`, is active, and empty names and phone become NULL |
| AuthRoutes.Register | backend/src/routes/auth.js:18-62 | a missing password or email gives 500, a password under 6 UTF-16 code units 400, a taken lower-cased email 409, each without change; otherwise the user is appended and 201 carries a token for its id and its public fields |
| AuthRoutes.RegisterKeepsEmailsUnique | backend/src/routes/auth.js:25-31 | the email check before the insert keeps emails unique across users |
| AuthRoutes.StoredEmailIsLowerCase | backend/src/routes/auth.js:26 | the stored email is its own lower-case form, so lookups that lower-case their input find it |
| AuthRoutes.FindActive | backend/src/routes/auth.js:67-70 | `WHERE email = $1 AND is_active = TRUE` finds an active user with that email, or there is none |
| AuthRoutes.Login | backend/src/routes/auth.js:64-93 | a login succeeds with 200 only for an active user with the lower-cased email whose hash accepts the password; every 401 says "Email o contrasena incorrectos" |
| AuthRoutes.LoginHidesWhichFailed | backend/src/routes/auth.js:71-76 | an unknown or inactive email and a wrong password get the identical 401 reply |
| AuthRoutes.LoginTokenIsForUser | backend/src/routes/auth.js:77-88 | a successful login carries a 30-day token for the found user's id and that user's public fields |
| AuthRoutes.FindActiveAppended | backend/src/routes/auth.js:67-70 | a newly inserted active user with a fresh email is the one the login lookup finds |
| AuthRoutes.RegisteredUserCanLogIn | backend/src/routes/auth.js:18-93 | right after registering, logging in with the same password and the email in any letter case succeeds for the new user |
| AuthRoutes.WithProfile | backend/src/routes/auth.js:130-133 | the UPDATE sets names and phone, empty ones as NULL, on the user with that id and on no other row |
| AuthRoutes.FindById | backend/src/routes/auth.js:131 | `RETURNING` finds a user with that id, or none exists |
| AuthRoutes.UpdateProfile | backend/src/routes/auth.js:127-139 | PUT /me stores the new profile and answers 200 with the updated row when the user exists, and with no user otherwise |
| AuthRoutes.WithPassword | backend/src/routes/auth.js:151-154 | the UPDATE replaces the hash of the user with that id and of no other row |
| AuthRoutes.ChangePassword | backend/src/routes/auth.js:141-160 | a missing new password gives 500, one under 6 UTF-16 code units 400, both without change; otherwise the new hash is stored, and the current password is never checked |
| AuthRoutes.PasswordChangeTouchesOnlyHash | backend/src/routes/auth.js:151-154 | a password change alters no field but the hash, and only for the target user |
| AuthRoutes.ClearDefaults | backend/src/routes/auth.js:165-169 | the reset clears the default flag of the user's addresses and leaves other users' rows alone |
| AuthRoutes.NewAddress | backend/src/routes/auth.js:170-181 | the label defaults to "Casa", empty province and postal code become NULL, and the address is default only when asked |
| AuthRoutes.AddAddress | backend/src/routes/auth.js:162-187 | a default address first clears the user's defaults, then the new address is appended and returned with 201 |
| AuthRoutes.NewDefaultIsOnlyDefault | backend/src/routes/auth.js:165-181 | after adding a default address it is the user's only default |
| AuthRoutes.AddAddressKeepsOneDefault | backend/src/routes/auth.js:170-181 | appending an address keeps at most one default per user when the new one is not a competing default |
| AuthRoutes.AddAddressRuleKeepsOneDefault | backend/src/routes/auth.js:162-187 | the add route keeps at most one default address per user |
| ImportScript.ScriptHeaders | backend/scripts/importVinyls.js:19 | there is one header per comma-separated piece of the first line, only trimmed, so case and every character are kept |
| ImportScript.Cell | backend/scripts/importVinyls.js:26 | a missing or empty value is `null`, any other value is trimmed |
| ImportScript.BuildRow | backend/scripts/importVinyls.js:24-27 | the loop over the headers maps each header to the trimmed value at its position, null when missing or empty |
| ImportScript.RowOfLookup | backend/scripts/importVinyls.js:25-27 | a header not repeated later names the cell at its own position |
| ImportScript.Rows | backend/scripts/importVinyls.js:22-29 | there is one row per non-blank line after the header, read with the header line's names |
| ImportScript.ParseCsv | backend/scripts/importVinyls.js:16-32 | parsing fails exactly when the file has no non-blank line, and otherwise gives one row per remaining non-blank line |
| ImportScript.RowCount | backend/scripts/importVinyls.js:18-22 | the rows are the non-blank lines minus the header, so blank lines give no row |
| ImportScript.QuotedCommaSplits | backend/scripts/importVinyls.js:23 | a quoted comma still splits the field and the quotes stay in the values |
| ImportScript.IntOr | backend/scripts/importVinyls.js:63 | `parseInt(v) \|\| d` gives the parsed integer unless it is NaN or 0, and then `d` |
| ImportScript.FloatOrNull | backend/scripts/importVinyls.js:64 | `parseFloat(v) \|\| null` is the number when it is neither NaN nor 0, and `null` otherwise |
| ImportScript.OrNull | backend/scripts/importVinyls.js:66-71 | `v \|\| null` is `null` exactly for a missing or empty value |
| ImportScript.VinylDefaults | backend/scripts/importVinyls.js:59-76 | installments are never 0 (an explicit 0 becomes 3), stock and discount default to 0, and a missing installment price is `null` |
| ImportScript.IntNumber | backend/scripts/importVinyls.js:65 | `parseInt(v)` sent as is: NaN exactly when no integer can be read, otherwise that integer |
| ImportScript.CategoryIdIsNaNUnlessNumbered | backend/scripts/importVinyls.js:65 | a missing, empty or named category reaches the INSERT as NaN (there is no `\|\| null`), and a numbered one as its number |
| ImportScript.FlagsDifferFromAdminImport | backend/scripts/importVinyls.js:72-73 | the script's flags accept exactly `true` and `1`, while the admin import accepts any case of `true` and not `1` |
| ImportScript.ImportedPlusFailures | backend/scripts/importVinyls.js:79-83 | every row is counted once, as imported or as an error |
| ImportScript.ImportedAreRows | backend/scripts/importVinyls.js:78-79 | every stored vinyl is one of the parsed rows |
| ImportScript.InsertAll | backend/scripts/importVinyls.js:44-85 | the loop stores the rows whose insert succeeded, in order, and the two counters add up to the number of rows |
| ImportScript.Vinyls | backend/scripts/importVinyls.js:59-76 | one set of INSERT values per row, none with 0 installments |
| ImportScript.ImportVinyls | backend/scripts/importVinyls.js:35-97 | the run fails to read exactly when the file has no non-blank line; otherwise imported plus errors is the number of data lines |
| CreateAdmin.EnvOr | backend/scripts/createAdmin.js:8-11 | `process.env.X \|\| fallback`: a set, non-empty variable wins, an unset or empty one falls back |
| CreateAdmin.SettingsOf | backend/scripts/createAdmin.js:8-11 | with no variable set the settings are admin@bbdiscos.com, admin123, Admin, BB Discos |
| CreateAdmin.FindEmail | backend/scripts/createAdmin.js:18-21 | the lookup by exact email finds a user with it, or none is found iff no user has it |
| CreateAdmin.Promote | backend/scripts/createAdmin.js:28-30 | every user with the email becomes admin and no other row changes |
| CreateAdmin.NewAdmin | backend/scripts/createAdmin.js:36-43 | the inserted user has the email, role admin, the hashed password and is active |
| CreateAdmin.CreateAdminUser | backend/scripts/createAdmin.js:13-54 | the run reports an existing admin, a promotion or a creation exactly as the lookup found an admin, a non-admin or nobody, and the table becomes the old one with that single change |
| CreateAdmin.AdminUnchanged | backend/scripts/createAdmin.js:23-26 | an existing administrator is left as it is |
| CreateAdmin.PromotionChangesOnlyRole | backend/scripts/createAdmin.js:27-31 | a promotion alters no field but the role, and only for users with the email |
| CreateAdmin.RunMakesAdmin | backend/scripts/createAdmin.js:13-54 | after any run the user found by the email is an administrator |
| CreateAdmin.PromotedFirstIsAdmin | backend/scripts/createAdmin.js:28-30 | after the promotion the user found by the email is an administrator |
| CreateAdmin.FindEmailAppended | backend/scripts/createAdmin.js:38-43 | after the insert the lookup by the email finds the new administrator |
| CreateAdmin.Idempotent | backend/scripts/createAdmin.js:13-54 | running the script twice leaves the table as one run does |
| CreateAdmin.RunKeepsUnique | backend/scripts/createAdmin.js:13-54 | a run keeps emails unique |
| CreateAdmin.OnlyOneWithEmail | backend/scripts/createAdmin.js:18-21 | with unique emails no other user shares the email of a given one |
| CreateAdmin.ExactlyOneAdmin | backend/scripts/createAdmin.js:13-54 | with unique emails, after a run exactly one user has the email and it is an administrator |
| ApiClient.Lookup | frontend/src/services/api.ts:63 | the server reads the first parameter with the name, and there is none iff no parameter has it |
| ApiClient.RankOfNames | frontend/src/services/api.ts:65-85 | the five parameters are appended in the fixed order category, minPrice, maxPrice, featured, onSale |
| ApiClient.BuildParams | frontend/src/services/api.ts:63-85 | the parameters carry exactly the first category, the positive prices as `String(n)` and each flag as `true` when set, in append order, and are empty iff no filter is set |
| ApiClient.AllAppended | frontend/src/services/api.ts:65-85 | after the five guarded appends every filter is carried, and the list is empty iff none applied |
| ApiClient.NoneAppended | frontend/src/services/api.ts:65-85 | no parameter is appended iff no guard holds |
| ApiClient.AppendExpected | frontend/src/services/api.ts:65-69 | one guarded append adds the parameter exactly when its guard holds, keeping the earlier ones |
| ApiClient.AppendKeepsCarries | frontend/src/services/api.ts:68 | appending a parameter keeps every earlier lookup and the append order |
| ApiClient.SkipKeepsCarries | frontend/src/services/api.ts:71-77 | skipping an unset filter keeps what was carried |
| ApiClient.LookupAppend | frontend/src/services/api.ts:68-84 | after appending a new name, looking it up gives its value and earlier names still give theirs |
| ApiClient.QueryString | frontend/src/services/api.ts:87 | the query string is empty iff there is no parameter |
| ApiClient.ProductsUrl | frontend/src/services/api.ts:87 | the URL has a `?` and the query exactly when some parameter was appended |
| ApiClient.NumberToStringOfNat | frontend/src/services/api.ts:72 | `String(n)` of a whole number prints its decimal digits |
| ApiClient.NormalizeKeepsDigits | frontend/src/services/api.ts:72 | moving trailing zeros of a number into its exponent keeps the printed digits |
| ApiClient.FiltersReachServer | frontend/src/services/api.ts:63-87 | the products route receives the first category's slug, each flag as `true` exactly when set, and a whole positive minimum price read back as itself |
| ApiClient.Convert | frontend/src/services/api.ts:98-112 | the client product copies the id, names, stock, year, image and flags, takes genre from the slug and category from the name, parses the price, and carries the description only for a single product |
| ApiClient.ConvertAll | frontend/src/services/api.ts:97-113 | one converted row per row of the body, each with the same id, in order |
| ApiClient.RowSurvivesTransfer | frontend/src/services/api.ts:97-113 | a listed row keeps its id, title, artist and category across the wire |
| ApiClient.PriceSurvivesTransfer | frontend/src/services/api.ts:102 | a whole-number price is read back as itself, and a NULL price reads as NaN |
| ApiClient.GetProducts | frontend/src/services/api.ts:59-118 | the URL is built from the carried parameters, an ok JSON response with rows gives them converted, and any failure (no response, a non-ok status, a body that is not JSON or lacks the rows) gives `[]` |
| ApiClient.GetProductById | frontend/src/services/api.ts:125-156 | no response, a non-ok status, a body that is not JSON and a body without the product each throw, and the caller sees which; otherwise the product with its description is returned |
| ApiClient.GetCategories | frontend/src/services/api.ts:164-178 | a failed request, a non-ok status or a body that is not JSON gives `[]`, and an ok JSON response gives its `categories` field, possibly undefined |
| AuthContext.StoredToken | frontend/src/context/AuthContext.tsx:48-49 | the stored token is present exactly when storage holds the key `bb_discos_token`, and is its value |
| AuthContext.ErrorText | frontend/src/context/AuthContext.tsx:95 | `data.error \|\| fallback`: a non-empty server error wins, otherwise the fallback text |
| AuthContext.AuthProvider.constructor | frontend/src/context/AuthContext.tsx:47-51 | the provider mounts with no user, loading, and the token read from storage |
| AuthContext.AuthProvider.IsAuthenticated | frontend/src/context/AuthContext.tsx:129 | `!!user`: authenticated exactly when there is a user |
| AuthContext.AuthProvider.IsAdmin | frontend/src/context/AuthContext.tsx:130 | admin exactly when there is a user whose role is `admin`, and never without a user |
| AuthContext.AuthProvider.RefreshUser | frontend/src/context/AuthContext.tsx:54-81 | no or an empty stored token clears the user; an ok reply sets it; a refused token is removed from storage and state; a failed request clears only the user; loading ends on every path and state and storage stay in step |
| AuthContext.AuthProvider.SignIn | frontend/src/context/AuthContext.tsx:87-115 | on success the token is stored and kept and the user set; on failure nothing changes and the error is the server's text or the fallback |
| AuthContext.AuthProvider.Login | frontend/src/context/AuthContext.tsx:87-100 | a successful login stores the token under its key and changes no other storage key nor the loading flag, and sets the user; an unreachable server throws the network error and changes nothing; a refused one throws "Error al iniciar sesión" unless the server gave a text |
| AuthContext.AuthProvider.Register | frontend/src/context/AuthContext.tsx:102-115 | a successful registration stores the token under its key and changes no other storage key nor the loading flag, and sets the user; an unreachable server throws the network error and changes nothing; a refused one throws "Error al registrarse" unless the server gave a text |
| AuthContext.AuthProvider.Logout | frontend/src/context/AuthContext.tsx:117-121 | the token leaves storage and state and the user goes, so the session is neither authenticated nor admin |
| FiltersBar.Toggle | frontend/src/components/FiltersBar.tsx:34-40 | the toggled genre is in the result iff it was not selected, and every other genre keeps its membership |
| FiltersBar.FilterSnocDropped | frontend/src/components/FiltersBar.tsx:36-38 | filtering the genre out after appending it gives the original list filtered |
| FiltersBar.FilterKeepsAll | frontend/src/components/FiltersBar.tsx:36 | filtering out a genre that is not there changes nothing |
| FiltersBar.ToggleKeepsOthersInOrder | frontend/src/components/FiltersBar.tsx:34-40 | seen without the toggled genre, the selection is the same before and after |
| FiltersBar.FilterNoneLeft | frontend/src/components/FiltersBar.tsx:36 | removing the genre a second time changes nothing |
| FiltersBar.ToggleTwiceRestores | frontend/src/components/FiltersBar.tsx:34-40 | toggling an unselected genre twice gives back the selection |
| FiltersBar.ClearAll | frontend/src/components/FiltersBar.tsx:42-49 | clearing leaves no genre and both prices 0, so no filter is active |
| FiltersBar.PriceInput | frontend/src/components/FiltersBar.tsx:87 | `Number(text) \|\| 0` is never NaN, is 0 for text that is not a number, and is positive exactly when the typed number is |
| FiltersBar.PriceInputActivity | frontend/src/components/FiltersBar.tsx:48-49 | an empty price input is not an active filter, and a typed whole positive number is |
| Carousel.ItemsFor | frontend/src/components/OffersCarousel.tsx:18-28 | 1 album in view below 768 px, 2 below 992 px, 3 otherwise |
| Carousel.ItemsForMonotone | frontend/src/components/OffersCarousel.tsx:20-26 | a wider window never shows fewer albums |
| Carousel.MaxIndexFor | frontend/src/components/OffersCarousel.tsx:85 | the last index is never negative, is 0 iff every album fits, and otherwise shows the last album at the right edge |
| Carousel.PrevIndex | frontend/src/components/OffersCarousel.tsx:87-89 | the previous-arrow moves one step left and never below 0 |
| Carousel.NextIndex | frontend/src/components/OffersCarousel.tsx:91-93 | the next-arrow moves one step right and never past the last index |
| Carousel.Carousel.MaxIndex | frontend/src/components/OffersCarousel.tsx:85 | for the albums and the current view, the last index is never negative, is 0 iff every album fits, and otherwise leaves the last album at the right edge (the same rule is at FeaturedCarousel.tsx line 79) |
| Carousel.Carousel.constructor | frontend/src/components/OffersCarousel.tsx:14-33 | the carousel mounts at index 0 with the albums in view for the window width |
| Carousel.Carousel.Resize | frontend/src/components/OffersCarousel.tsx:19-28 | a resize sets the albums in view from the width and goes back to index 0, keeping the index in range |
| Carousel.Carousel.Prev | frontend/src/components/OffersCarousel.tsx:87-89 | the previous-arrow moves the index one step back, never below 0, and keeps it within 0 and the last index |
| Carousel.Carousel.Next | frontend/src/components/OffersCarousel.tsx:91-93 | the next-arrow moves the index one step forward, never past the last index, and keeps it within 0 and the last index |
| Carousel.PrevDisabledIffNoop | frontend/src/components/OffersCarousel.tsx:115 | `disabled={currentIndex === 0}` holds exactly when a click would change nothing |
| Carousel.NextDisabledIffNoop | frontend/src/components/OffersCarousel.tsx:165 | `disabled={currentIndex >= maxIndex}` holds exactly when a click would change nothing |
| Carousel.AdvanceReachesEnd | frontend/src/components/OffersCarousel.tsx:91-93 | from the start, `k` clicks on next reach index `min(k, maxIndex)` |
| Carousel.FiveAlbums | frontend/src/components/OffersCarousel.tsx:35-85 | five albums leave 2, 3 and 4 steps at three, two and one albums in view |
| AdminPanel.Take | frontend/src/components/AdminPanel.tsx:203 | `slice(0, n)` is a prefix of length `min(\|s\|, n)` |
| AdminPanel.AppendImages | frontend/src/components/AdminPanel.tsx:203 | the new list is the current images followed by the chosen ones, cut to the first 10 |
| AdminPanel.AppendImagesKeepsCurrent | frontend/src/components/AdminPanel.tsx:201-206 | a list within the limit keeps its images in place, followed by the new ones in order until 10 are reached |
| AdminPanel.FullListIsUnchanged | frontend/src/components/AdminPanel.tsx:203 | a list already at 10 images takes no more |
| AdminPanel.ImagesOnly | frontend/src/components/AdminPanel.tsx:739-741 | the drop zone keeps exactly the dropped files whose type starts with `image/` |
| AdminPanel.AllImagesKept | frontend/src/components/AdminPanel.tsx:739-741 | a drop made only of images keeps all of them, in order |
| AdminPanel.RemoveAt | frontend/src/components/AdminPanel.tsx:209 | removing index `idx` drops that file and shifts the later ones down; an index outside the list removes nothing |
| AdminPanel.RemoveAtRestores | frontend/src/components/AdminPanel.tsx:208-212 | putting the removed file back at its index gives the original list |
| AdminPanel.Previews | frontend/src/components/AdminPanel.tsx:205 | there is exactly one preview per file |
| AdminPanel.FieldText | frontend/src/components/AdminPanel.tsx:221-223 | `String(v)`: a checkbox sends `true` iff checked, a text field its text |
| AdminPanel.FormFields | frontend/src/components/AdminPanel.tsx:220-223 | every field of the form is sent, as text, and no other |
| AdminPanel.Panel.constructor | frontend/src/components/AdminPanel.tsx:137-155 | the panel opens with the empty form of frontend/src/components/AdminPanel.tsx lines 58-74, no images, no CSV file and no messages |
| AdminPanel.Panel.ChangeField | frontend/src/components/AdminPanel.tsx:187-199 | the named field takes the box's state or the input's text, and no other field changes |
| AdminPanel.Panel.SelectImages | frontend/src/components/AdminPanel.tsx:201-206 | the chosen files are appended up to 10 and every file has its preview |
| AdminPanel.Panel.DropImages | frontend/src/components/AdminPanel.tsx:737-745 | only image files are appended, up to 10, each with its preview |
| AdminPanel.Panel.RemoveImage | frontend/src/components/AdminPanel.tsx:208-212 | the file at the index goes and the previews follow the files |
| AdminPanel.Panel.ClearProduct | frontend/src/components/AdminPanel.tsx:815-820 | the clear button restores the empty form with no images and no message |
| AdminPanel.Panel.SubmitProduct | frontend/src/components/AdminPanel.tsx:214-250 | every form field is sent as text with the images in order; a created product resets the form and both image lists and shows its title and id; a failure keeps them and shows the server's text or "Error al crear vinilo"; loading ends on every path |
| AdminPanel.Panel.DropCsv | frontend/src/components/AdminPanel.tsx:892-902 | the first dropped file is taken only when it is named `*.csv` or typed `text/csv` |
| AdminPanel.Panel.ChooseCsv | frontend/src/components/AdminPanel.tsx:926-932 | the first chosen file is taken as it is, and clears the message |
| AdminPanel.Panel.CancelCsv | frontend/src/components/AdminPanel.tsx:947-950 | cancel forgets the file and the message |
| AdminPanel.Panel.SubmitCsv | frontend/src/components/AdminPanel.tsx:253-285 | without a file nothing happens; an import clears the file and shows the message with the row errors when there are any; a failure keeps the file and shows the server's text or "Error al importar CSV" |
| AdminPanel.CsvAcceptance | frontend/src/components/AdminPanel.tsx:895-898 | a file is accepted by its `.csv` name alone or by its `text/csv` type alone, and by nothing else |
| Store.Or | backend/src/routes/admin.js:356-357 | `a \|\| b` on strings: `a` unless it is empty, then `b` |
| Store.OrNull | backend/src/routes/auth.js:38-40 | `s \|\| null` is NULL exactly for a missing or empty field, and otherwise the field |
| Store.Filter | backend/src/routes/products.js:31-64 | a WHERE keeps exactly the rows that satisfy it |
| Store.FilterAppend | backend/src/routes/products.js:31-64 | a WHERE distributes over concatenation, so the selection keeps the table order and every duplicate row |
| Store.FilterDrops | backend/src/routes/admin.js:311 | a DELETE that matches some row makes the table shorter |
| Store.Database.FreshId | backend/src/routes/admin.js:169-175 | each insert takes the next serial id and advances the counter |
| Sorting.InsertBy | backend/src/routes/products.js:62 | inserting into a sorted list keeps it sorted, adds exactly that element and nothing else |
| Sorting.SortBy | backend/src/routes/products.js:62 | ORDER BY gives a sorted permutation of the rows |
| Sorting.StrLeIsTotalPreorder | backend/src/routes/categories.js:16 | ordering by name is a total preorder, so the sort is well defined |
| JsString.TrimmedEnds | backend/src/routes/admin.js:339 | `trim()` leaves no white space at either end and keeps the text between as it was |
| JsString.TrimIdempotent | backend/src/routes/admin.js:348-351 | trimming twice is trimming once |
| JsString.BlankIffAllSpace | backend/src/routes/admin.js:327 | a line is dropped as blank exactly when it is all white space |
| JsString.ToLower | backend/src/routes/auth.js:26 | `toLowerCase()` maps each character and keeps the length |
| JsString.ToLowerIdempotent | backend/src/routes/auth.js:26 | lower-casing leaves no upper-case letter, so doing it twice changes nothing more |
| JsString.Split | backend/src/routes/admin.js:327 | `split(sep)` gives one more piece than there are separators, none holding the separator |
| JsString.JoinSplit | backend/src/routes/admin.js:327 | joining the pieces of a split with the same separator gives the text back |
| JsString.NatToString | backend/src/routes/admin.js:361 | `${n}` of a whole number is a non-empty string of digits without a leading zero |
| JsString.Utf16Length | backend/src/routes/auth.js:21 | `length` counts UTF-16 code units: between one and two per character, and one per character exactly when none lies outside the Basic Multilingual Plane |
| JsString.Utf16LengthOfEmoji | backend/src/routes/auth.js:21 | three emoji are three characters but six UTF-16 code units, so they pass the password length check |
| JsNumber.PositiveIsTruthy | frontend/src/services/api.ts:71 | a number above 0 is truthy, and `> 0` on a finite number is its value being positive |
| JsNumber.LeadingDigits | backend/src/routes/admin.js:370 | `parseInt` reads exactly the run of digits at the start |
| JsNumber.DigitsOfNatToString | backend/src/routes/admin.js:361 | the digits of `${n}` read back as `n` |
| JsNumber.ParseIntOfNatToString | backend/src/routes/admin.js:395 | `parseInt` reads back what `String(n)` prints, stopping at the first non-digit |
| JsNumber.Mantissa | backend/src/routes/admin.js:358 | the mantissa read by `parseFloat` is made of digits and fits in the text |
| JsNumber.UnsignedDecimal | backend/src/routes/admin.js:358 | `parseFloat` gives NaN exactly when no character could be read |
| JsNumber.DecimalPrefix | backend/src/routes/admin.js:358 | a signed literal gives NaN exactly when no character could be read |
| JsNumber.ParseFloatOfNatToString | backend/src/routes/products.js:39-43 | `parseFloat` and `Number` read back what `String(n)` prints for a whole number |
| JsNumber.ParseIntPrefixExample | backend/src/routes/admin.js:370 | `parseInt("12abc")` is 12 |
| JsNumber.ParseIntHexExample | backend/src/routes/admin.js:370 | `parseInt("0x1A")` is 26, read as hexadecimal |
| JsNumber.ParseIntWordExample | backend/src/routes/admin.js:370-371 | `parseInt("Jazz")` is NaN, so a category name goes to the lookup |
| JsNumber.ParseFloatExamples | backend/src/routes/admin.js:358 | `parseFloat("-5")` is -5 and `parseFloat("abc")` is NaN |
| JsNumber.NullIsNaN | backend/scripts/importVinyls.js:62-65 | `parseInt(null)` and `parseFloat(null)` are NaN |

## Left out

- **Cloudinary** upload, destroy and the scripts' uploader are oracles. An upload is a supplied result, either a URL and public id or a failure. The `Date.now()` in the public id is not modelled.
- **bcrypt and jsonwebtoken** are uninterpreted parameters: a hash function, a compare function, a sign function and a verify outcome. The 30-day expiry appears only as a claim in the token payload.
- **Other SQL engine behaviour** is not modelled:
  - the dashboard stats aggregation, the users listing, the orders listing and GET /auth/me;
  - the schema itself, so whether `ON CONFLICT DO NOTHING` skips a row, foreign keys and the delete cascade of a product's images (assumed);
  - column defaults: `Products.CreatedRow` leaves the columns POST / does not write (installments, record label, country, both conditions) as NULL, where the table would fill in its declared defaults;
  - integer column ranges: `AdminProducts.Numeric` rejects only NaN, so a value beyond `int4`, such as `parseInt("99999999999")`, is stored where PostgreSQL would refuse the query with 500;
  - driver errors other than the supplied insert outcome;
  - the clock: `created_at` is a supplied `now` parameter and `updated_at` is not kept on products;
  - the category lookup query of the CSV import, which is modelled as never throwing.
  - whether the INSERT of the import script refuses a NaN `category_id`. The insert oracle decides, and `ImportScript.CategoryIdIsNaNUnlessNumbered` states when the NaN is sent.
- **String ordering and case.**
  - ORDER BY name compares code points, not a database collation.
  - Ties keep table order.
  - `toLowerCase` maps only ASCII letters.
  - Strings are sequences of Unicode scalar values. A lone UTF-16 surrogate cannot occur. `length` is computed by `JsString.Utf16Length`.
- **Floating point** is not modelled. Prices are exact decimals, and NaN and the infinities are explicit.
  - Rounding is not modelled, and neither is `Math.round` in the API client's mapping.
  - The division `price / 3` of the products route is the abstract function `third`. Only its NaN and `null` cases are stated.
  - JsNumber.NumberToString: it states only that the text is non-empty. Its exact digits are proved only for whole numbers (`ApiClient.NumberToStringOfNat`). Exponent forms such as `1e21` are not produced.
- **Request bodies** take two forms.
  - The JSON bodies of the product, gallery and account routes are typed. Each field is its expected JSON type or missing. A JSON value of another type in a field is not modelled, such as a string price or a numeric title.
  - The product price alone tells `null` from absent (`Products.PriceField`). For every other field the driver writes the two alike as NULL, and the model does not tell them apart.
  - The multipart forms of the admin routes are text fields. The one exception is a flag, which may arrive as a boolean (`AdminProducts.FlagField`).
  - Query-string arrays are not modelled.
- **URL encoding** in the API client is a parameter function.
- **Browser and React plumbing** is left out:
  - `URL.createObjectURL` is a parameter function of the admin panel;
  - the panel's stats and category fetches, its admin redirect and the "Error desconocido" path for non-Error throws;
  - the multer limit of 10 files per request;
  - re-rendering.
- **Row ids** come from one `nextId` counter shared by every table. PostgreSQL gives each `SERIAL` table its own sequence, so the ids differ numerically from the program's. Only their freshness is used.
- **Concurrency** is not modelled: `Promise.all` and races between requests. Each handler runs alone.
- **Presentation-only components** are left out: header, footer, hero, product card and detail, auth modal and the legacy tree. So are the interactive and connection scripts (`addProductImages.js`, `updateProductImage.js`, `copyFromSupabase.js`, `migrateProduction.js`, `testCloudinary.js`), `config/database.js` and `index.js`.
