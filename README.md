# Teslo shop products: slug normalisation and the products service

A Dafny model of the products core of a NestJS/TypeORM catalogue service.

- `wrappers.dfy`: `Option` for optional request fields and lookups, and `Result` for a call that returns (`Ok`) or throws (`Err`).
- `strings.dfy` (module `Strings`): the JavaScript string operations the core uses, with ASCII case mapping only:
  - `toLowerCase` and `toUpperCase`;
  - `replaceAll` with a one-character pattern, replacing it by one character (`ReplaceChar`) or by nothing (`RemoveChar`).
- `product_entity.dfy` (module `ProductEntity`):
  - `NormalizeSlug`, with the lemmas proved about it;
  - the persisted row `ProductRow`;
  - the entity class `Product`, whose two listeners `CheckSlugInsert` and `CheckSlugUpdate` assign `slug` in place.
- `products_service.dfy` (module `ProductsService`): the service over an in-memory catalogue, held as a class with two table fields:
  - `products`, a sequence of product rows;
  - `images`, a sequence of image rows, each carrying its URL and the id of the product that owns it.

  The service methods update these tables. The queries are functions that read them.

The class invariant `Valid()` (the predicate `ValidTables`) has four parts:
- `isUuid` ignores case, as `validate` from the `uuid` package does;
- product ids are unique UUIDs, stored in lower case as a Postgres `uuid` column returns them;
- every stored slug is normalised;
- every image row belongs to a stored product.

`Create`, `Update`, `Remove` and `DeleteAllProducts` preserve it.

The world outside the service is modelled as follows:
- `isUuid` is an uninterpreted predicate: a `string -> bool` constant of the service object.
- A store failure is an input `fault: Option<DbError>` of each write. `None` means the write succeeds. `Some(e)` means the store raises `e`, with its SQLSTATE `code` and `detail`.
- The id the database generates on insert is an input `newId`. It is required to be a lower-case UUID that is not already stored.
- A `uuid` column compares case-insensitively. So `findOneBy({ id })`, `preload` and the image delete in `update` find the stored row whose id is the lower-case form of the requested id. Other spellings that Postgres also parses (braces, missing hyphens) are not modelled; see `ProductsService.ProductsService.Update` under "## Left out".

Quirks of the code are modelled as written:
- `findOne` on a non-UUID search compares `LOWER(title)` with `search.toUpperCase()`. Such a title match only succeeds when neither string contains an ASCII letter (`Strings.LowerEqualsUpperOnlyWithoutLetters`). So a search containing any letter matches by slug alone (`ProductsService.NonUuidSearchWithLetterMatchesBySlugOnly`). The title clause evidently means a case-insensitive title match, but the code upper-cases the search and compares it with the lower-cased title. The model keeps the code's behaviour.
- `deleteAllProducts` deletes every image row and leaves the product table alone.
- A store error raised by `remove` is not passed through `handleDbExceptions`. It reaches the caller as `Unhandled`.
- `update` ends with `findOnePlain(id)`, which dispatches on `isUuid(id)` again. For every id that `validate` accepts, this lookup finds the updated row, because stored ids are UUIDs.

## Model

| member | source | states |
|---|---|---|
| `Strings.ToLower` | src/products/entities/product.entity.ts:63 | same length; each character is lower-cased in its own position |
| `Strings.ToUpper` | src/products/products.service.ts:64 | same length; each character is upper-cased in its own position |
| `Strings.ReplaceChar` | src/products/entities/product.entity.ts:64 | same length; each occurrence of the pattern character becomes the replacement and every other character stays put |
| `Strings.RemoveChar` | src/products/entities/product.entity.ts:65 | the deleted character no longer occurs; the length drops by exactly its number of occurrences; every remaining character comes from the input |
| `Strings.RemoveCharAppend` | src/products/entities/product.entity.ts:65 | deleting a character distributes over concatenation, so the kept characters keep their order |
| `Strings.LowerEqualsUpperOnlyWithoutLetters` | src/products/products.service.ts:63-65 | `LOWER(t) = UPPER(s)` forces both strings to be free of ASCII letters |
| `ProductEntity.NormalizeSlug` | src/products/entities/product.entity.ts:61-67 | the result has no space, no apostrophe and no upper-case ASCII letter; its length is the input length minus the number of apostrophes |
| `ProductEntity.NormalizeSlugMatchesByChar` | src/products/entities/product.entity.ts:62-65 | the lower-case / space-to-underscore / delete-apostrophe chain equals a one-pass per-character definition, so spaces map one-to-one to `_` and other characters are kept in order, lower-cased |
| `ProductEntity.NormalizeSlugFixpoint` | src/products/entities/product.entity.ts:61-67 | a string is its own normalisation if and only if it has no space, no apostrophe and no upper-case ASCII letter |
| `ProductEntity.NormalizeSlugIdempotent` | src/products/entities/product.entity.ts:62-65 | normalising twice gives the same as normalising once |
| `ProductEntity.Product.CheckSlugInsert` | src/products/entities/product.entity.ts:48-54 | an empty or absent slug becomes the normalised title; a non-empty slug becomes its own normalisation and the title is ignored; no other field changes |
| `ProductEntity.Product.CheckSlugUpdate` | src/products/entities/product.entity.ts:56-59 | the slug is always re-normalised, and a normalised slug comes out unchanged; no other field changes |
| `ProductsService.HandleDbExceptions` | src/products/products.service.ts:115-121 | the result is always an exception: BadRequest carrying the detail exactly when the code is `23505`, otherwise InternalServerError with the fixed message |
| `ProductsService.Page` | src/products/products.service.ts:40-43 | take/skip: at most `take` rows, namely the rows at positions `skip`, `skip + 1`, ...; none when `skip` is past the end |
| `ProductsService.ImageRows` | src/products/products.service.ts:28 | one image row per URL, all owned by the given product, whose URLs read back as the input list |
| `ProductsService.ImagesOf` | src/products/products.service.ts:44-46 | the joined images of a product: every row it returns is owned by the product and comes from the table, and every owned row is returned; the table order is fixed by `ImagesOfSingle` and `ImagesOfAppend` |
| `ProductsService.ImagesOfSingle` | src/products/products.service.ts:44-46 | one image row is kept exactly when the product owns it; with `ImagesOfAppend` this fixes the joined images row by row, in table order and without repeats |
| `ProductsService.ImagesOfAppend` | src/products/products.service.ts:44-46 | the join of a concatenated table is the join of the first part followed by the join of the second |
| `ProductsService.Urls` | src/products/products.service.ts:49-52 | the definition of the projection `images.map(img => img.url)`; it has no contract of its own, and its round trip is `ImageRows`' `Urls(r) == urls` |
| `ProductsService.WithoutOwner` | src/products/products.service.ts:92 | deleting a product's image rows keeps exactly the rows of other owners |
| `ProductsService.ImagesOfWithoutOwner` | src/products/products.service.ts:92 | after that delete, the product has no images and every other product has the same images |
| `ProductsService.ImagesAfterReplace` | src/products/products.service.ts:91-95 | delete, then append rows built from the URLs: the product's images become exactly those rows and other products keep theirs |
| `ProductsService.Matches` | src/products/products.service.ts:58-66 | the where-clause as written; its consequences: a UUID search matches only a row whose id is the search in lower case; a non-UUID search matches every row whose slug is the lower-cased search; and a non-UUID search containing an ASCII letter matches exactly those rows, because a title match is then impossible |
| `ProductsService.FirstMatch` | src/products/products.service.ts:58-68 | none exactly when no row matches; otherwise a matching position with no match before it |
| `ProductsService.IndexOfId` | src/products/products.service.ts:80 | preload's lookup, given the lower-case form of the requested id: none exactly when that id is not stored, otherwise the position of the row with that id |
| `ProductsService.UuidSearchFindsById` | src/products/products.service.ts:58-59 | with unique ids, a UUID search in any letter case picks the row whose id is its lower-case form, and no other |
| `ProductsService.NonUuidSearchWithLetterMatchesBySlugOnly` | src/products/products.service.ts:61-66 | a non-UUID search containing a letter matches a row exactly when the row's slug equals the lower-cased search |
| `ProductsService.Merge` | src/products/products.service.ts:78-80 | every supplied field overwrites the loaded row's value, every unsupplied field keeps it, and the id is kept |
| `ProductsService.SavedRow` | src/products/products.service.ts:80-97 | the saved row is the merge with its slug re-normalised; its slug is normalised; an unsupplied, already normalised slug is unchanged |
| `ProductsService.ReplacedImages` | src/products/products.service.ts:91-95 | with `images` supplied (even empty), the product's image URLs become exactly that list; when omitted, the table is unchanged; other products' images are unchanged either way |
| `ProductsService.AppendKeepsValid` | src/products/products.service.ts:26-30 | inserting a row with a fresh UUID and a normalised slug, together with image rows it owns, keeps the catalogue invariant |
| `ProductsService.ReplaceKeepsValid` | src/products/products.service.ts:90-99 | overwriting a row in place, keeping its id, with a normalised slug and image rows owned by stored products, keeps the invariant |
| `ProductsService.DeleteKeepsValid` | src/products/products.service.ts:110-113 | deleting a row along with its image rows keeps the invariant, and its id is no longer stored |
| `ProductsService.ProductsService.FindAll` | src/products/products.service.ts:39-53 | limit 10 and offset 0 by default; at most `limit` products, the rows starting at position `offset`, each with `images` equal to the URLs of its image rows and its other fields as stored |
| `ProductsService.ProductsService.FindOne` | src/products/products.service.ts:55-75 | NotFound with the `Producto with id ...` message exactly when no row matches; otherwise a stored, matching row with its image rows |
| `ProductsService.ProductsService.FindOnePlain` | src/products/products.service.ts:123-129 | as `FindOne`, with `images` projected to the ordered list of URLs and the fields as stored |
| `ProductsService.ProductsService.Create` | src/products/products.service.ts:23-36 | on a store error, the translated exception and no change; on success, one row with defaults applied and the slug from the insert listener, one image row per URL in order (none if omitted), and that URL list returned as `images` |
| `ProductsService.ProductsService.Update` | src/products/products.service.ts:77-108 | NotFound with no change when the id's lower-case form is not stored; on a failed transaction, the translated exception and both tables as before; on success, the row is replaced by the saved merge, the images are replaced only when supplied, other products' images are unchanged, and the result is the updated product with its URLs |
| `ProductsService.ProductsService.Remove` | src/products/products.service.ts:110-113 | `findOne`'s NotFound propagates with no change; a store error propagates untranslated with no change; otherwise exactly the found row and its image rows are deleted |
| `ProductsService.ProductsService.DeleteAllProducts` | src/products/products.service.ts:131-142 | on success, every image row is deleted, the product table is unchanged and the deleted-row count is returned; on a store error, the translated exception and no change |

## Left out

- NestJS plumbing is not modelled: decorators, dependency injection and the HTTP exception classes. The exceptions are `ServiceError` values, and `BadRequest`'s argument is the store's detail. The `Logger` call in `handleDbExceptions` is omitted: it is output only.
- TypeORM internals are not modelled: SQL generation, the query builder, relation loading and `preload`'s implementation. The repository calls are operations on the two tables.
- The transaction lifecycle is not modelled: creating the query runner, connecting, committing, rolling back and releasing. Only the all-or-nothing outcome is kept. Asynchronous scheduling and concurrent requests are left out too.
- The UUID validation algorithm is not modelled. `isUuid` is a parameter.
- The `price` column is left out, because it is a floating-point number.
- Unicode case mapping is left out. Only `A`..`Z` and `a`..`z` change case, in JavaScript and in SQL `LOWER`.
- Unique-constraint enforcement is not modelled. Whether a write fails, and with which code, is the `fault` input.
- Id generation is not modelled. The generated id is the input `newId`, required fresh and a lower-case UUID.
- Read failures are not modelled: `find`, `findOneBy`, `getOne` and `preload` always succeed. In the code an error there reaches the caller untranslated. The same holds for the SQL error that a non-UUID id would cause in `preload`.
- Several rows may match a non-UUID `findOne`. `getOne` has no ordering, and the model picks the first match in table order.
- `findAll`'s `find` with `take`/`skip` and the images join in `findAll` and `findOne` have no ORDER BY, so the store fixes neither the order of a page nor the order of a product's images. The model takes table order for both, with new image rows appended at the end.
- ProductsService.ProductsService.Update: matches a requested id only through its lower-case form. Postgres also parses other spellings of a UUID, such as one in braces or without hyphens, which `validate` rejects. For such an id the code finds the row in `preload` and in the image delete, commits the update, and then `findOnePlain(id)` takes the title/slug branch and throws NotFound after the change is committed. The model instead returns NotFound with both tables unchanged.
- The `Product` entity in src/products/entities/product.entity.ts declares no `images` relation. The service still relies on one: `relations: { images: true }`, the join on `prod.images` and the assignment to `product.images`. The ProductImage entity is not part of this model. The model assumes a one-to-many relation that behaves as follows:
  - new image rows are inserted by cascade when the product is saved, appended at the end of the image table;
  - deleting a product deletes its image rows;
  - the images are loaded in both branches of `findOne`. In the code, `findOneBy` asks for no relation, so the images would be loaded only if the relation were eager. Without that, `findOnePlain`'s `images = []` default would give an empty list.
- A request field sent as `null` is not modelled. In the model, `None` means the field was omitted. In the code a `null` behaves differently from an omitted field:
  - `update` with `slug: null`: `preload` merges the null, and the update listener's `normalizeSlug(null)` throws a TypeError at `toLowerCase`. The transaction rolls back and the caller gets InternalServerError. The model keeps the old slug and succeeds.
  - `update` with `title`, `stock`, `sizes` or `gender` set to `null`: the save violates a NOT NULL constraint (code 23502), which also ends in InternalServerError.
  - The two cases below are further instances.
- `create` with `images: null` is not modelled. `null` skips the destructuring default, so `images.map` throws inside the `try` and the caller gets InternalServerError. The model's `Option` has no null case, so `None` stands for an omitted list.
- `update` with `description: null` is not modelled. `preload` would merge the null and clear the nullable `description` column. In the model, `None` means the field was not supplied and keeps the old value.
- `ProductsService.ProductsService.FindAll`: requires a positive `limit` and a non-negative `offset`. The pagination DTO's validation guarantees both, and that DTO is not part of this model. TypeORM would treat a `take` of 0 as unlimited.
- The column defaults (`stock` 0, `tags` empty) are filled in when the row is inserted. The database's own default mechanism is not modelled.
- An undefined slug on the entity is held as `""`. `!this.slug` treats both alike. `checkSlugUpdate` would throw on an undefined slug, but every update path loads the slug from a stored row, so it is always defined there.
- `ProductEntity.Product.CheckSlugUpdate` is run on every successful update save. TypeORM may skip the listener when no column changed. Under `Valid()` that case changes nothing either way, because the stored slug is already normalised.
- `ProductsService.ProductsService.DeleteAllProducts`: returns only the number of deleted rows, not the rest of TypeORM's `DeleteResult`.
- `update`'s `images: null` is not distinguished from an omitted `images`; they are one case in the model and falsy in the code, so both leave the images alone.
