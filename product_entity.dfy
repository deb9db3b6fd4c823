/** The `Product` entity: its persisted columns, the slug normaliser and the
    two listeners that keep `slug` normalised before an insert and before an
    update (src/products/entities/product.entity.ts). */
module ProductEntity {
  import opened Wrappers
  import opened Strings

  /** A character that may appear in a normalised slug. */
  predicate IsSlugChar(c: char)
  {
    c != ' ' && c != '\'' && !IsAsciiUpper(c)
  }

  /** No space, no apostrophe and no upper-case ASCII letter. */
  predicate IsNormalizedSlug(s: string)
  {
    forall k :: 0 <= k < |s| ==> IsSlugChar(s[k])
  }

  /** `normalizeSlug`: lower-case, then every space to `_`, then every
      apostrophe deleted. */
  function NormalizeSlug(slug: string): (r: string)
    ensures IsNormalizedSlug(r)
    ensures |r| == |slug| - Count(slug, '\'')
  {
    var lowered := ToLower(slug);
    var underscored := ReplaceChar(lowered, ' ', '_');
    CountSamePositions(slug, lowered, '\'');
    CountSamePositions(lowered, underscored, '\'');
    var r := RemoveChar(underscored, '\'');
    assert forall k :: 0 <= k < |r| ==> IsSlugChar(r[k]) by {
      forall k | 0 <= k < |r| ensures IsSlugChar(r[k]) {
        var j :| 0 <= j < |underscored| && underscored[j] == r[k];
      }
    }
    r
  }

  /** What normalisation does to one character: an apostrophe disappears,
      a space becomes `_`, anything else is lower-cased. */
  function NormalizeChar(c: char): (r: string)
  {
    if c == '\'' then [] else if c == ' ' then ['_'] else [LowerChar(c)]
  }

  /** An independent, one-pass statement of normalisation. */
  function NormalizeSlugByChar(s: string): (r: string)
  {
    if s == [] then [] else NormalizeChar(s[0]) + NormalizeSlugByChar(s[1..])
  }

  /** The three-pass chain of `normalizeSlug` equals the one-pass reference:
      spaces map one-to-one to `_`, apostrophes vanish, and every other
      character is kept, lower-cased, in its original order. */
  lemma {:induction false} NormalizeSlugMatchesByChar(s: string)
    ensures NormalizeSlug(s) == NormalizeSlugByChar(s)
  {
    if s != [] {
      var c, rest := s[0], s[1..];
      assert s == [c] + rest;
      var lowered := ToLower(s);
      assert lowered == [LowerChar(c)] + ToLower(rest);
      var underscored := ReplaceChar(lowered, ' ', '_');
      var head := if LowerChar(c) == ' ' then '_' else LowerChar(c);
      assert underscored == [head] + ReplaceChar(ToLower(rest), ' ', '_');
      RemoveCharAppend([head], ReplaceChar(ToLower(rest), ' ', '_'), '\'');
      assert RemoveChar([head], '\'') == NormalizeChar(c);
      NormalizeSlugMatchesByChar(rest);
    }
  }

  /** A string is its own normalisation exactly when it is already normalised. */
  lemma NormalizeSlugFixpoint(s: string)
    ensures NormalizeSlug(s) == s <==> IsNormalizedSlug(s)
  {
    if IsNormalizedSlug(s) {
      var lowered := ToLower(s);
      assert lowered == s;
      var underscored := ReplaceChar(lowered, ' ', '_');
      assert underscored == s;
      RemoveCharAbsent(s, '\'');
    }
  }

  /** `normalizeSlug` is idempotent. */
  lemma NormalizeSlugIdempotent(s: string)
    ensures NormalizeSlug(NormalizeSlug(s)) == NormalizeSlug(s)
  {
    NormalizeSlugFixpoint(NormalizeSlug(s));
  }

  /** The row a product occupies in its table (`price` is not modelled). */
  datatype ProductRow = ProductRow(
    id: string,
    title: string,
    description: Option<string>,
    slug: string,
    stock: int,
    sizes: seq<string>,
    gender: string,
    tags: seq<string>)

  /** The entity object the repository builds, saves and hands to the
      listeners. An undefined slug is held as "", which `!this.slug` treats
      the same way. */
  class Product {
    var id: string
    var title: string
    var description: Option<string>
    var slug: string
    var stock: int
    var sizes: seq<string>
    var gender: string
    var tags: seq<string>

    constructor FromRow(row: ProductRow)
      ensures Row() == row
    {
      id, title, description, slug := row.id, row.title, row.description, row.slug;
      stock, sizes, gender, tags := row.stock, row.sizes, row.gender, row.tags;
    }

    /** The column values the entity currently holds. */
    function Row(): ProductRow
      reads this
    {
      ProductRow(id, title, description, slug, stock, sizes, gender, tags)
    }

    /** `checkSlugInsert`: a missing or empty slug is taken from the title,
        then the slug is normalised. Only `slug` changes. */
    method CheckSlugInsert()
      modifies this`slug
      ensures old(slug) == "" ==> slug == NormalizeSlug(title)
      ensures old(slug) != "" ==> slug == NormalizeSlug(old(slug))
      ensures IsNormalizedSlug(slug)
      ensures Row() == old(Row()).(slug := slug)
    {
      if slug == "" {
        slug := title;
      }
      slug := NormalizeSlug(slug);
    }

    /** `checkSlugUpdate`: the slug is normalised again on every update; a
        slug that is already normalised comes out unchanged. Only `slug`
        changes. */
    method CheckSlugUpdate()
      modifies this`slug
      ensures slug == NormalizeSlug(old(slug))
      ensures IsNormalizedSlug(old(slug)) ==> slug == old(slug)
      ensures Row() == old(Row()).(slug := slug)
    {
      NormalizeSlugFixpoint(slug);
      slug := NormalizeSlug(slug);
    }
  }
}
