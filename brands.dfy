/**
 * `POST /api/brands`: creates a brand from a JSON body holding a name and an
 * optional logo. A falsy name is refused with a 400; otherwise the brand is
 * stored with the slug of its name and its logo, an empty logo stored as null.
 */
module Brands {
  import opened Common
  import opened BrandSlug

  /** A row of the brand table. */
  datatype Brand = Brand(id: string, name: string, slug: string, logo: Option<string>)

  /** The route's answers: 400 with an error, 201 with the new brand, or 500 with an error. */
  datatype BrandResult =
    | BadRequest(error: string)
    | Created(brand: Brand)
    | ServerError(error: string)

  const NameRequired := "O nome da marca é obrigatório."
  /** What JavaScript throws when `toLowerCase` is called on a name that is not a string. */
  const NameNotText := "name.toLowerCase is not a function"

  /** The HTTP status of an answer. */
  function Status(r: BrandResult): (code: int)
    ensures code == 400 <==> r.BadRequest?
    ensures code == 201 <==> r.Created?
    ensures code == 500 <==> r.ServerError?
  {
    match r
    case BadRequest(_) => 400
    case Created(_) => 201
    case ServerError(_) => 500
  }

  /** `logo || null` */
  function StoredLogo(logo: Option<string>): (stored: Option<string>)
    ensures stored.None? <==> logo.None? || logo.value == ""
    ensures stored.Some? ==> stored == logo
  {
    if logo.Some? && logo.value != "" then logo else None
  }

  /**
   * What the handler answers for a name and a logo, when the database gives
   * the new row the id `newId`.
   */
  function PostOutcome(name: JsonField, logo: Option<string>, newId: string): (r: BrandResult)
    requires name.Text? ==> IsAscii(name.s)
    ensures r.BadRequest? <==> !Truthy(name)
    ensures r.BadRequest? ==> r.error == NameRequired
    ensures r.ServerError? <==> Truthy(name) && !name.Text?
    ensures r.Created? ==>
      && name.Text? && name.s != ""
      && r.brand.id == newId
      && r.brand.name == name.s
      && r.brand.slug == Slug(name.s)
      && AllSlugChars(r.brand.slug)
      && NoDoubleHyphen(r.brand.slug)
      && (r.brand.logo.None? <==> logo.None? || logo.value == "")
      && (r.brand.logo.Some? ==> r.brand.logo == logo)
  {
    if !Truthy(name) then BadRequest(NameRequired)
    else if !name.Text? then ServerError(NameNotText)
    else
      SlugCharacters(name.s);
      SlugNoDoubleHyphen(name.s);
      Created(Brand(newId, name.s, Slug(name.s), StoredLogo(logo)))
  }

  /** Every stored slug is made of `[a-z0-9_-]` without a double hyphen, and no stored logo is empty. */
  ghost predicate WellFormed(b: Brand)
  {
    AllSlugChars(b.slug) && NoDoubleHyphen(b.slug) && (b.logo.Some? ==> b.logo.value != "")
  }

  /** The brand table, in insertion order. */
  class BrandTable {
    var brands: seq<Brand>

    ghost predicate Valid()
      reads this
    {
      forall i :: 0 <= i < |brands| ==> WellFormed(brands[i])
    }

    constructor ()
      ensures Valid() && brands == []
    {
      brands := [];
    }

    /** `POST /api/brands`: appends the brand when the answer is a 201 and leaves the table alone otherwise. */
    method Post(name: JsonField, logo: Option<string>, newId: string) returns (r: BrandResult)
      requires Valid()
      requires name.Text? ==> IsAscii(name.s)
      modifies this
      ensures Valid()
      ensures r == PostOutcome(name, logo, newId)
      ensures r.Created? ==> brands == old(brands) + [r.brand]
      ensures !r.Created? ==> brands == old(brands)
    {
      r := PostOutcome(name, logo, newId);
      if r.Created? {
        brands := brands + [r.brand];
      }
    }
  }

  /** A non-empty name whose slug is empty is still stored. */
  lemma EmptySlugNameAccepted(name: string, newId: string)
    requires name != "" && IsAscii(name) && Slug(name) == ""
    ensures var r := PostOutcome(Text(name), None, newId);
      r.Created? && r.brand.name == name && r.brand.slug == "" && r.brand.logo.None?
  {
    assert PostOutcome(Text(name), None, newId) == Created(Brand(newId, name, Slug(name), StoredLogo(None)));
  }

  /** A non-empty name made only of punctuation passes the check and is stored with an empty slug. */
  lemma PunctuationOnlyNameAccepted(name: string, newId: string)
    requires name != "" && IsAscii(name)
    requires forall i :: 0 <= i < |name| ==> IsPunctuation(name[i])
    ensures var r := PostOutcome(Text(name), None, newId);
      r.Created? && r.brand.name == name && r.brand.slug == "" && r.brand.logo.None?
  {
    PunctuationOnlySlugIsEmpty(name);
    EmptySlugNameAccepted(name, newId);
  }
}
