/** `ProductsService` over an in-memory catalogue: a table of product rows and
    a table of image rows, each image row carrying the id of the product that
    owns it (src/products/products.service.ts). A failing store call is an
    input `fault`; `isUuid` is an uninterpreted predicate. */
module ProductsService {
  import opened Wrappers
  import opened Strings
  import opened ProductEntity

  /** An image row: its URL and the id of the owning product. */
  datatype ImageRow = ImageRow(url: string, owner: string)

  /** An error the database raises: its SQLSTATE code and its detail text. */
  datatype DbError = DbError(code: string, detail: string)

  /** What a service call throws. `Unhandled` is a store error that reaches
      the caller without going through `handleDbExceptions`. */
  datatype ServiceError =
    | BadRequest(detail: string)
    | NotFound(message: string)
    | InternalServerError(message: string)
    | Unhandled(cause: DbError)

  const UNIQUE_VIOLATION := "23505"
  const UNEXPECTED_ERROR := "Unexpected error, check server logs"
  const DEFAULT_LIMIT := 10
  const DEFAULT_OFFSET := 0

  /** `limit` and `offset` as the query string gives them, after validation. */
  datatype PaginationDto = PaginationDto(limit: Option<int>, offset: Option<int>)

  /** The pagination DTO admits a positive limit and a non-negative offset. */
  predicate ValidPagination(dto: PaginationDto)
  {
    (dto.limit.Some? ==> dto.limit.value > 0) && (dto.offset.Some? ==> dto.offset.value >= 0)
  }

  datatype CreateProductDto = CreateProductDto(
    title: string,
    description: Option<string>,
    slug: Option<string>,
    stock: Option<int>,
    sizes: seq<string>,
    gender: string,
    tags: Option<seq<string>>,
    images: Option<seq<string>>)

  /** Every field optional; `None` means the request did not supply it. */
  datatype UpdateProductDto = UpdateProductDto(
    title: Option<string>,
    description: Option<string>,
    slug: Option<string>,
    stock: Option<int>,
    sizes: Option<seq<string>>,
    gender: Option<string>,
    tags: Option<seq<string>>,
    images: Option<seq<string>>)

  /** A product with its image rows joined in. */
  datatype LoadedProduct = LoadedProduct(product: ProductRow, images: seq<ImageRow>)

  /** A product whose images are projected to their URLs. */
  datatype PlainProduct = PlainProduct(product: ProductRow, images: seq<string>)

  /** `handleDbExceptions`: it never returns normally; the result is the
      exception it throws. A unique violation becomes BadRequest with the
      store's detail, anything else InternalServerError with a fixed text. */
  function HandleDbExceptions(error: DbError): (r: ServiceError)
    ensures r.BadRequest? <==> error.code == UNIQUE_VIOLATION
    ensures r.BadRequest? ==> r.detail == error.detail
    ensures !r.BadRequest? ==> r == InternalServerError(UNEXPECTED_ERROR)
  {
    if error.code == UNIQUE_VIOLATION then BadRequest(error.detail)
    else InternalServerError(UNEXPECTED_ERROR)
  }

  function Min(a: int, b: int): int { if a <= b then a else b }

  /** `take`/`skip`: at most `take` rows, starting at position `skip`. */
  function Page<T>(rows: seq<T>, take: nat, skip: nat): (r: seq<T>)
    ensures |r| == (if skip >= |rows| then 0 else Min(take, |rows| - skip))
    ensures forall k :: 0 <= k < |r| ==> r[k] == rows[skip + k]
  {
    if skip >= |rows| then []
    else if take >= |rows| - skip then rows[skip..]
    else rows[skip..skip + take]
  }

  /** `images.map(img => img.url)`. */
  function Urls(imgs: seq<ImageRow>): seq<string>
  {
    seq(|imgs|, k requires 0 <= k < |imgs| => imgs[k].url)
  }

  /** `images.map(image => productImageRepository.create({ url: image }))`
      for a product with id `owner`: one image row per URL, in order. */
  function ImageRows(urls: seq<string>, owner: string): (r: seq<ImageRow>)
    ensures Urls(r) == urls
    ensures forall k :: 0 <= k < |r| ==> r[k].owner == owner
  {
    seq(|urls|, k requires 0 <= k < |urls| => ImageRow(urls[k], owner))
  }

  /** The image rows of product `owner`, in table order. */
  function ImagesOf(imgs: seq<ImageRow>, owner: string): (r: seq<ImageRow>)
    ensures forall k :: 0 <= k < |r| ==> r[k].owner == owner && r[k] in imgs
    ensures forall k :: 0 <= k < |imgs| && imgs[k].owner == owner ==> imgs[k] in r
  {
    if imgs == [] then []
    else (if imgs[0].owner == owner then [imgs[0]] else []) + ImagesOf(imgs[1..], owner)
  }

  /** The image table after deleting every row of product `owner`. */
  function WithoutOwner(imgs: seq<ImageRow>, owner: string): (r: seq<ImageRow>)
    ensures forall k :: 0 <= k < |r| ==> r[k].owner != owner && r[k] in imgs
    ensures forall k :: 0 <= k < |imgs| && imgs[k].owner != owner ==> imgs[k] in r
  {
    if imgs == [] then []
    else (if imgs[0].owner == owner then [] else [imgs[0]]) + WithoutOwner(imgs[1..], owner)
  }

  /** A single image row is kept exactly when `owner` owns it; with
      `ImagesOfAppend` this fixes the result row by row, in table order. */
  lemma ImagesOfSingle(x: ImageRow, owner: string)
    ensures ImagesOf([x], owner) == if x.owner == owner then [x] else []
  {
  }

  lemma {:induction false} ImagesOfAppend(a: seq<ImageRow>, b: seq<ImageRow>, owner: string)
    ensures ImagesOf(a + b, owner) == ImagesOf(a, owner) + ImagesOf(b, owner)
  {
    if a == [] {
      assert a + b == b;
    } else {
      assert (a + b)[1..] == a[1..] + b;
      ImagesOfAppend(a[1..], b, owner);
    }
  }

  /** Rows all owned by `owner` are all of its rows; rows owned by others are none of them. */
  lemma {:induction false} ImagesOfUniformOwner(imgs: seq<ImageRow>, owner: string, o: string)
    requires forall k :: 0 <= k < |imgs| ==> imgs[k].owner == owner
    ensures ImagesOf(imgs, o) == if o == owner then imgs else []
  {
    if imgs != [] {
      ImagesOfUniformOwner(imgs[1..], owner, o);
      assert imgs == [imgs[0]] + imgs[1..];
    }
  }

  /** Deleting the rows of `owner` removes exactly its images and leaves the
      images of every other product as they were. */
  lemma {:induction false} ImagesOfWithoutOwner(imgs: seq<ImageRow>, owner: string, o: string)
    ensures ImagesOf(WithoutOwner(imgs, owner), o) == if o == owner then [] else ImagesOf(imgs, o)
  {
    if imgs != [] {
      ImagesOfWithoutOwner(imgs[1..], owner, o);
      var head := if imgs[0].owner == owner then [] else [imgs[0]];
      ImagesOfAppend(head, WithoutOwner(imgs[1..], owner), o);
    }
  }

  /** Replacing the rows of `owner` by rows built from `urls` gives `owner`
      exactly those URLs and leaves every other product's images alone. */
  lemma ImagesAfterReplace(imgs: seq<ImageRow>, owner: string, urls: seq<string>, o: string)
    ensures ImagesOf(WithoutOwner(imgs, owner) + ImageRows(urls, owner), o)
         == if o == owner then ImageRows(urls, owner) else ImagesOf(imgs, o)
  {
    ImagesOfAppend(WithoutOwner(imgs, owner), ImageRows(urls, owner), o);
    ImagesOfWithoutOwner(imgs, owner, o);
    ImagesOfUniformOwner(ImageRows(urls, owner), owner, o);
  }

  /** The primary keys, in table order. */
  function Ids(rows: seq<ProductRow>): (r: seq<string>)
    ensures |r| == |rows|
    ensures forall k :: 0 <= k < |rows| ==> r[k] == rows[k].id
  {
    seq(|rows|, k requires 0 <= k < |rows| => rows[k].id)
  }

  predicate DistinctIds(rows: seq<ProductRow>)
  {
    forall i, j :: 0 <= i < j < |rows| ==> rows[i].id != rows[j].id
  }

  /** The `findOne` filter, as written. On a UUID only the id is compared,
      and a `uuid` column compares case-insensitively, so against the
      lower-case form of the search. Otherwise the row matches when
      `LOWER(title)` equals `search.toUpperCase()` or the slug equals
      `search.toLowerCase()`. */
  function Matches(isUuid: string -> bool, search: string, row: ProductRow): (r: bool)
    ensures isUuid(search) && r ==> row.id == ToLower(search)
    ensures !isUuid(search) && row.slug == ToLower(search) ==> r
    ensures !isUuid(search) && (exists k :: 0 <= k < |search| && IsAsciiLetter(search[k])) ==>
              (r <==> row.slug == ToLower(search))
  {
    if isUuid(search) then row.id == ToLower(search)
    else ToLower(row.title) == ToUpper(search) || row.slug == ToLower(search)
  }

  /** The position of the first row that matches `search`, if any. */
  function FirstMatch(isUuid: string -> bool, search: string, rows: seq<ProductRow>): (r: Option<nat>)
    ensures r.None? <==> forall j :: 0 <= j < |rows| ==> !Matches(isUuid, search, rows[j])
    ensures r.Some? ==> r.value < |rows| && Matches(isUuid, search, rows[r.value])
    ensures r.Some? ==> forall j :: 0 <= j < r.value ==> !Matches(isUuid, search, rows[j])
  {
    if rows == [] then None
    else if Matches(isUuid, search, rows[0]) then Some(0)
    else match FirstMatch(isUuid, search, rows[1..])
      case None => None
      case Some(i) => Some(i + 1)
  }

  /** The position of the row whose primary key is `id`, if any. Callers
      pass the lower-case form of a requested id, since the `uuid` column
      compares case-insensitively and stored ids are lower-case. */
  function IndexOfId(rows: seq<ProductRow>, id: string): (r: Option<nat>)
    ensures r.None? <==> id !in Ids(rows)
    ensures r.Some? ==> r.value < |rows| && rows[r.value].id == id
  {
    if rows == [] then None
    else if rows[0].id == id then Some(0)
    else match IndexOfId(rows[1..], id)
      case None => (assert Ids(rows) == [rows[0].id] + Ids(rows[1..]); None)
      case Some(i) => Some(i + 1)
  }

  /** On a UUID search over a table with unique ids, `findOne` picks the row
      with that id and no other. */
  lemma UuidSearchFindsById(isUuid: string -> bool, rows: seq<ProductRow>, i: nat, search: string)
    requires DistinctIds(rows)
    requires i < |rows| && isUuid(search) && ToLower(search) == rows[i].id
    ensures FirstMatch(isUuid, search, rows) == Some(i)
  {
  }

  /** The title branch as written compares a lower-cased title with an
      upper-cased search, so a non-UUID search holding any ASCII letter
      matches by slug alone. */
  lemma NonUuidSearchWithLetterMatchesBySlugOnly(isUuid: string -> bool, search: string, row: ProductRow, k: nat)
    requires !isUuid(search)
    requires k < |search| && IsAsciiLetter(search[k])
    ensures Matches(isUuid, search, row) <==> row.slug == ToLower(search)
  {
  }

  /** `preload({ id, ...toUpdate })`: the loaded row with every supplied field
      overwritten and every other field kept. */
  function Merge(row: ProductRow, dto: UpdateProductDto): (r: ProductRow)
    ensures r.id == row.id
    ensures dto.title.Some? ==> r.title == dto.title.value
    ensures dto.title.None? ==> r.title == row.title
    ensures dto.description.Some? ==> r.description == dto.description
    ensures dto.description.None? ==> r.description == row.description
    ensures dto.slug.Some? ==> r.slug == dto.slug.value
    ensures dto.slug.None? ==> r.slug == row.slug
    ensures dto.stock.Some? ==> r.stock == dto.stock.value
    ensures dto.stock.None? ==> r.stock == row.stock
    ensures dto.sizes.Some? ==> r.sizes == dto.sizes.value
    ensures dto.sizes.None? ==> r.sizes == row.sizes
    ensures dto.gender.Some? ==> r.gender == dto.gender.value
    ensures dto.gender.None? ==> r.gender == row.gender
    ensures dto.tags.Some? ==> r.tags == dto.tags.value
    ensures dto.tags.None? ==> r.tags == row.tags
  {
    ProductRow(
      row.id,
      dto.title.GetOr(row.title),
      if dto.description.Some? then dto.description else row.description,
      dto.slug.GetOr(row.slug),
      dto.stock.GetOr(row.stock),
      dto.sizes.GetOr(row.sizes),
      dto.gender.GetOr(row.gender),
      dto.tags.GetOr(row.tags))
  }

  /** The row `update` saves: the preloaded merge, with the slug normalised
      by the update listener. */
  function SavedRow(row: ProductRow, dto: UpdateProductDto): (r: ProductRow)
    ensures r == Merge(row, dto).(slug := NormalizeSlug(Merge(row, dto).slug))
    ensures r.id == row.id && IsNormalizedSlug(r.slug)
    ensures dto.slug.None? && IsNormalizedSlug(row.slug) ==> r.slug == row.slug
  {
    var merged := Merge(row, dto);
    NormalizeSlugFixpoint(merged.slug);
    merged.(slug := NormalizeSlug(merged.slug))
  }

  /** The image table after `update`: with `images` supplied (even empty) the
      product's rows are replaced wholesale by the new URLs, appended at the
      end; without it the table is untouched. Other products keep their rows. */
  function ReplacedImages(imgs: seq<ImageRow>, id: string, urls: Option<seq<string>>): (r: seq<ImageRow>)
    ensures urls.Some? ==> Urls(ImagesOf(r, id)) == urls.value
    ensures urls.None? ==> r == imgs
    ensures forall o :: o != id ==> ImagesOf(r, o) == ImagesOf(imgs, o)
    ensures forall k :: 0 <= k < |r| ==> r[k] in imgs || r[k].owner == id
  {
    if urls.Some? then
      var r := WithoutOwner(imgs, id) + ImageRows(urls.value, id);
      ImagesAfterReplace(imgs, id, urls.value, id);
      assert forall o :: o != id ==> ImagesOf(r, o) == ImagesOf(imgs, o) by {
        forall o | o != id ensures ImagesOf(r, o) == ImagesOf(imgs, o) {
          ImagesAfterReplace(imgs, id, urls.value, o);
        }
      }
      r
    else imgs
  }

  /** `validate` from `uuid` ignores case. */
  ghost predicate IgnoresCase(isUuid: string -> bool)
  {
    forall s :: isUuid(s) == isUuid(ToLower(s))
  }

  /** An id as the `uuid` column stores it: a UUID in lower case. */
  predicate IsStoredId(isUuid: string -> bool, id: string)
  {
    isUuid(id) && ToLower(id) == id
  }

  /** The catalogue invariant: `isUuid` ignores case, ids are unique
      lower-case UUIDs, every stored slug is normalised and every image row
      belongs to a stored product. */
  ghost predicate ValidTables(isUuid: string -> bool, products: seq<ProductRow>, images: seq<ImageRow>)
  {
    IgnoresCase(isUuid) &&
    DistinctIds(products) &&
    (forall i :: 0 <= i < |products| ==> IsStoredId(isUuid, products[i].id) && IsNormalizedSlug(products[i].slug)) &&
    (forall k :: 0 <= k < |images| ==> images[k].owner in Ids(products))
  }

  /** Appending a row with a fresh UUID and a normalised slug, with image
      rows that it owns, keeps the invariant. */
  lemma AppendKeepsValid(isUuid: string -> bool, products: seq<ProductRow>, images: seq<ImageRow>,
                         row: ProductRow, newImages: seq<ImageRow>)
    requires ValidTables(isUuid, products, images)
    requires IsStoredId(isUuid, row.id) && row.id !in Ids(products) && IsNormalizedSlug(row.slug)
    requires forall k :: 0 <= k < |newImages| ==> newImages[k].owner == row.id
    ensures ValidTables(isUuid, products + [row], images + newImages)
  {
    assert Ids(products + [row]) == Ids(products) + [row.id];
  }

  /** Overwriting a row in place, keeping its id, with a normalised slug and
      image rows owned by stored products, keeps the invariant. */
  lemma ReplaceKeepsValid(isUuid: string -> bool, products: seq<ProductRow>, images: seq<ImageRow>,
                          i: nat, row: ProductRow, newImages: seq<ImageRow>)
    requires ValidTables(isUuid, products, images)
    requires i < |products| && row.id == products[i].id && IsNormalizedSlug(row.slug)
    requires forall k :: 0 <= k < |newImages| ==> newImages[k] in images || newImages[k].owner == row.id
    ensures ValidTables(isUuid, products[i := row], newImages)
  {
    assert Ids(products[i := row]) == Ids(products);
  }

  /** Deleting a row together with its image rows keeps the invariant. */
  lemma DeleteKeepsValid(isUuid: string -> bool, products: seq<ProductRow>, images: seq<ImageRow>, i: nat)
    requires ValidTables(isUuid, products, images) && i < |products|
    ensures ValidTables(isUuid, products[..i] + products[i + 1..], WithoutOwner(images, products[i].id))
    ensures products[i].id !in Ids(products[..i] + products[i + 1..])
  {
    var gone, rest := products[i].id, products[..i] + products[i + 1..];
    forall x | x in Ids(products) && x != gone
      ensures x in Ids(rest)
    {
      var j :| 0 <= j < |products| && products[j].id == x;
      if j < i {
        assert Ids(rest)[j] == x;
      } else {
        assert Ids(rest)[j - 1] == x;
      }
    }
    assert forall j :: 0 <= j < |rest| ==> rest[j].id != gone by {
      forall j | 0 <= j < |rest| ensures rest[j].id != gone {
        if j >= i {
          assert rest[j] == products[j + 1];
        }
      }
    }
  }

  class ProductsService {
    const isUuid: string -> bool
    var products: seq<ProductRow>
    var images: seq<ImageRow>

    ghost predicate Valid()
      reads this
    {
      ValidTables(isUuid, products, images)
    }

    constructor (isUuid: string -> bool)
      requires IgnoresCase(isUuid)
      ensures Valid()
      ensures this.isUuid == isUuid && products == [] && images == []
    {
      this.isUuid := isUuid;
      products, images := [], [];
    }

    /** `findAll`: limit 10 and offset 0 by default; the rows from position
        `offset` on, at most `limit` of them, each with its image URLs. */
    function FindAll(dto: PaginationDto): (r: seq<PlainProduct>)
      reads this
      requires ValidPagination(dto)
      ensures var limit := dto.limit.GetOr(DEFAULT_LIMIT);
              var offset := dto.offset.GetOr(DEFAULT_OFFSET);
              |r| <= limit &&
              |r| == (if offset >= |products| then 0 else Min(limit, |products| - offset)) &&
              forall k :: 0 <= k < |r| ==>
                r[k].product == products[offset + k] &&
                r[k].images == Urls(ImagesOf(images, products[offset + k].id))
    {
      var page := Page(products, dto.limit.GetOr(DEFAULT_LIMIT), dto.offset.GetOr(DEFAULT_OFFSET));
      var imgs := images;
      seq(|page|, k requires 0 <= k < |page| => PlainProduct(page[k], Urls(ImagesOf(imgs, page[k].id))))
    }

    /** `findOne`: NotFound exactly when no row matches; otherwise a matching
        row with its image rows. */
    function FindOne(search: string): (r: Result<LoadedProduct, ServiceError>)
      reads this
      ensures r.Err? <==> forall i :: 0 <= i < |products| ==> !Matches(isUuid, search, products[i])
      ensures r.Err? ==> r.error == NotFound("Producto with id " + search + " not found")
      ensures r.Ok? ==> r.value.product in products && Matches(isUuid, search, r.value.product)
      ensures r.Ok? ==> r.value.images == ImagesOf(images, r.value.product.id)
    {
      match FirstMatch(isUuid, search, products)
      case None => Err(NotFound("Producto with id " + search + " not found"))
      case Some(i) => Ok(LoadedProduct(products[i], ImagesOf(images, products[i].id)))
    }

    /** `findOnePlain`: `findOne` with the images projected to their URLs and
        every other field as stored. */
    function FindOnePlain(search: string): (r: Result<PlainProduct, ServiceError>)
      reads this
      ensures r.Err? <==> forall i :: 0 <= i < |products| ==> !Matches(isUuid, search, products[i])
      ensures r.Err? ==> r.error == NotFound("Producto with id " + search + " not found")
      ensures r.Ok? ==> r.value.product in products && Matches(isUuid, search, r.value.product)
      ensures r.Ok? ==> r.value.images == Urls(ImagesOf(images, r.value.product.id))
    {
      match FindOne(search)
      case Err(e) => Err(e)
      case Ok(found) => Ok(PlainProduct(found.product, Urls(found.images)))
    }

    /** `create`: builds the entity, runs the insert listener and saves the
        row with one image row per URL. `newId` is the UUID the store
        generates, in lower case. */
    method Create(dto: CreateProductDto, newId: string, fault: Option<DbError>)
      returns (r: Result<PlainProduct, ServiceError>)
      requires Valid()
      requires IsStoredId(isUuid, newId) && newId !in Ids(products)
      modifies this
      ensures Valid()
      ensures fault.Some? ==>
        r == Err(HandleDbExceptions(fault.value)) && products == old(products) && images == old(images)
      ensures fault.None? ==>
        var urls := dto.images.GetOr([]);
        var slug := dto.slug.GetOr("");
        r.Ok? &&
        r.value.images == urls &&
        r.value.product == ProductRow(newId, dto.title, dto.description,
          NormalizeSlug(if slug == "" then dto.title else slug),
          dto.stock.GetOr(0), dto.sizes, dto.gender, dto.tags.GetOr([])) &&
        products == old(products) + [r.value.product] &&
        images == old(images) + ImageRows(urls, newId)
    {
      var urls := dto.images.GetOr([]);
      var entity := new Product.FromRow(ProductRow(newId, dto.title, dto.description,
        dto.slug.GetOr(""), dto.stock.GetOr(0), dto.sizes, dto.gender, dto.tags.GetOr([])));
      var newImages := ImageRows(urls, newId);
      entity.CheckSlugInsert();
      if fault.Some? {
        return Err(HandleDbExceptions(fault.value));
      }
      var row := entity.Row();
      AppendKeepsValid(isUuid, products, images, row, newImages);
      products := products + [row];
      images := images + newImages;
      r := Ok(PlainProduct(row, urls));
    }

    /** `update`: NotFound before any change when the id is not stored;
        otherwise merge, optionally replace the product's images, run the
        update listener and save, all in one transaction, and return
        `findOnePlain(id)`. A failed transaction leaves both tables as they
        were. The `uuid` column matches `id` case-insensitively, so the
        stored row has key `ToLower(id)`. */
    method Update(id: string, dto: UpdateProductDto, fault: Option<DbError>)
      returns (r: Result<PlainProduct, ServiceError>)
      requires Valid()
      modifies this
      ensures Valid()
      ensures ToLower(id) !in old(Ids(products)) ==>
        r == Err(NotFound("Product with id: " + id + " not found")) &&
        products == old(products) && images == old(images)
      ensures ToLower(id) in old(Ids(products)) && fault.Some? ==>
        r == Err(HandleDbExceptions(fault.value)) && products == old(products) && images == old(images)
      ensures ToLower(id) in old(Ids(products)) && fault.None? ==>
        var i := old(IndexOfId(products, ToLower(id))).value;
        var saved := SavedRow(old(products)[i], dto);
        products == old(products)[i := saved] &&
        images == ReplacedImages(old(images), ToLower(id), dto.images) &&
        r == Ok(PlainProduct(saved, Urls(ImagesOf(images, ToLower(id)))))
      ensures ToLower(id) in old(Ids(products)) && fault.None? && dto.slug.None? ==>
        r.Ok? && r.value.product.slug == old(products)[old(IndexOfId(products, ToLower(id))).value].slug
      ensures ToLower(id) in old(Ids(products)) && fault.None? && dto.images.Some? ==>
        r.Ok? && r.value.images == dto.images.value
      ensures ToLower(id) in old(Ids(products)) && fault.None? && dto.images.None? ==>
        r.Ok? && r.value.images == Urls(ImagesOf(old(images), ToLower(id)))
      ensures forall o :: o != ToLower(id) ==> ImagesOf(images, o) == ImagesOf(old(images), o)
    {
      var key := ToLower(id);
      var found := IndexOfId(products, key);
      if found.None? {
        return Err(NotFound("Product with id: " + id + " not found"));
      }
      var i := found.value;
      var entity := new Product.FromRow(Merge(products[i], dto));
      // The transaction stages its writes; only the commit publishes them.
      var stagedImages := ReplacedImages(images, key, dto.images);
      entity.CheckSlugUpdate();
      var saved := entity.Row();
      if fault.Some? {
        return Err(HandleDbExceptions(fault.value));
      }
      ReplaceKeepsValid(isUuid, products, images, i, saved, stagedImages);
      products := products[i := saved];
      images := stagedImages;
      assert isUuid(key);
      UuidSearchFindsById(isUuid, products, i, id);
      r := FindOnePlain(id);
    }

    /** `remove`: `findOne(id)` first, whose NotFound propagates with no
        change; then the found row is deleted and its image rows go with it.
        A store error from the delete propagates untranslated. */
    method Remove(id: string, fault: Option<DbError>) returns (r: Result<(), ServiceError>)
      requires Valid()
      modifies this
      ensures Valid()
      ensures old(FindOne(id)).Err? ==>
        r == Err(old(FindOne(id)).error) && products == old(products) && images == old(images)
      ensures old(FindOne(id)).Ok? && fault.Some? ==>
        r == Err(Unhandled(fault.value)) && products == old(products) && images == old(images)
      ensures old(FindOne(id)).Ok? && fault.None? ==>
        var i := old(FirstMatch(isUuid, id, products)).value;
        r == Ok(()) &&
        products == old(products)[..i] + old(products)[i + 1..] &&
        images == WithoutOwner(old(images), old(products)[i].id) &&
        old(products)[i].id !in Ids(products)
    {
      var found := FindOne(id);
      if found.Err? {
        return Err(found.error);
      }
      if fault.Some? {
        return Err(Unhandled(fault.value));
      }
      var i := FirstMatch(isUuid, id, products).value;
      DeleteKeepsValid(isUuid, products, images, i);
      var gone := products[i].id;
      products := products[..i] + products[i + 1..];
      images := WithoutOwner(images, gone);
      r := Ok(());
    }

    /** `deleteAllProducts`: deletes every image row and no product row,
        returning how many rows went; a store error goes through
        `handleDbExceptions`. */
    method DeleteAllProducts(fault: Option<DbError>) returns (r: Result<nat, ServiceError>)
      requires Valid()
      modifies this`images
      ensures Valid()
      ensures products == old(products)
      ensures fault.Some? ==> r == Err(HandleDbExceptions(fault.value)) && images == old(images)
      ensures fault.None? ==> r == Ok(|old(images)|) && images == []
    {
      if fault.Some? {
        return Err(HandleDbExceptions(fault.value));
      }
      r := Ok(|images|);
      images := [];
    }
  }
}
