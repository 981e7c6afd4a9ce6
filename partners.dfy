/**
 * Partner logos: `POST /api/partners` stores an uploaded image as a base64
 * data URL, and the partners carousel resolves each stored URL to an image
 * source and repeats the list five times.
 */
module Partners {
  import opened Common

  datatype Partner = Partner(id: string, name: string, imageUrl: string)

  /** An uploaded file: its declared MIME type (possibly empty) and its bytes. */
  datatype Upload = Upload(mimeType: string, bytes: seq<bv8>)

  /** The route's answers: 200 with the new partner, or 400. */
  datatype PartnerResult = Created(partner: Partner) | BadRequest(message: string)

  const DataScheme := "data:"
  const PartnersDir := "/partners/"
  const DefaultMime := "image/jpeg"
  const MissingFields := "Missing name or image"

  // ---- the carousel ---------------------------------------------------------

  /** `getImageSrc`: a data URL is used as is, anything else is a file under `/partners/`. */
  function ImageSrc(imageUrl: string): (src: string)
    ensures StartsWith(imageUrl, DataScheme) ==> src == imageUrl
    ensures !StartsWith(imageUrl, DataScheme) ==>
      StartsWith(src, PartnersDir) && src[|PartnersDir|..] == imageUrl
  {
    if StartsWith(imageUrl, DataScheme) then imageUrl
    else
      StartsWithConcat(PartnersDir, imageUrl);
      PartnersDir + imageUrl
  }

  /** `Array(k).fill(x)` */
  function Fill<T>(k: nat, x: T): (r: seq<T>)
    ensures |r| == k && forall i :: 0 <= i < k ==> r[i] == x
  {
    seq(k, _ => x)
  }

  /** `flat()` on an array of arrays */
  function Flatten<T>(xss: seq<seq<T>>): seq<T>
  {
    if xss == [] then [] else xss[0] + Flatten(xss[1..])
  }

  /** Division with remainder has one answer. */
  lemma ModUnique(x: int, n: int, q: int, r: int)
    requires n > 0 && 0 <= r < n && x == n * q + r
    ensures x % n == r
  {
    var q', r' := x / n, x % n;
    assert x == n * q' + r';
    var d := q - q';
    assert n * d == n * q - n * q';
    assert n * d == r' - r;
    if d >= 1 {
      MulAtLeast(n, d);
    } else if d <= -1 {
      MulAtLeast(n, -d);
    }
  }

  lemma MulAtLeast(n: int, d: int)
    requires n > 0 && d >= 1
    ensures n * d >= n
  {
    assert n * d == n * (d - 1) + n;
  }

  lemma ModShift(i: int, n: int)
    requires n > 0 && i >= n
    ensures (i - n) % n == i % n
  {
    var q, r := i / n, i % n;
    assert i - n == n * (q - 1) + r;
    ModUnique(i - n, n, q - 1, r);
  }

  /** `k` copies of `p` laid end to end are `p` followed by `k - 1` copies. */
  lemma FlattenFillStep<T>(k: nat, p: seq<T>)
    requires k > 0
    ensures Flatten(Fill(k, p)) == p + Flatten(Fill(k - 1, p))
  {
    assert Fill(k, p)[1..] == Fill(k - 1, p);
  }

  lemma {:induction false} FlattenFillLength<T>(k: nat, p: seq<T>)
    ensures |Flatten(Fill(k, p))| == k * |p|
  {
    if k > 0 {
      FlattenFillStep(k, p);
      FlattenFillLength(k - 1, p);
      assert k * |p| == (k - 1) * |p| + |p|;
    }
  }

  lemma {:induction false} FlattenFillAt<T>(k: nat, p: seq<T>, i: int)
    requires |p| > 0 && 0 <= i < k * |p|
    ensures |Flatten(Fill(k, p))| == k * |p|
    ensures Flatten(Fill(k, p))[i] == p[i % |p|]
  {
    var n := |p|;
    FlattenFillLength(k, p);
    if k > 0 {
      FlattenFillStep(k, p);
      assert k * n == (k - 1) * n + n;
      if i < n {
        ModUnique(i, n, 0, i);
      } else {
        FlattenFillAt(k - 1, p, i - n);
        ModShift(i, n);
      }
    }
  }

  /** `k` copies of `p` laid end to end: element `i` is `p[i mod |p|]`. */
  lemma FlattenFill<T>(k: nat, p: seq<T>)
    ensures |Flatten(Fill(k, p))| == k * |p|
    ensures |p| > 0 ==> forall i :: 0 <= i < k * |p| ==> Flatten(Fill(k, p))[i] == p[i % |p|]
  {
    FlattenFillLength(k, p);
    if |p| > 0 {
      forall i | 0 <= i < k * |p|
        ensures Flatten(Fill(k, p))[i] == p[i % |p|]
      {
        FlattenFillAt(k, p, i);
      }
    }
  }

  /** `extendedLogos`: the partners five times over, or nothing when there are none. */
  function ExtendedLogos(partners: seq<Partner>): (logos: seq<Partner>)
  {
    if |partners| > 0 then Flatten(Fill(5, partners)) else []
  }

  /** The carousel holds five rounds of the partner list, in order. */
  lemma ExtendedLogosRepeat(partners: seq<Partner>)
    ensures partners == [] ==> ExtendedLogos(partners) == []
    ensures |ExtendedLogos(partners)| == 5 * |partners|
    ensures forall i :: 0 <= i < |ExtendedLogos(partners)| ==>
      ExtendedLogos(partners)[i] == partners[i % |partners|]
  {
    FlattenFill(5, partners);
  }

  // ---- the upload route -----------------------------------------------------

  /** `image.type || "image/jpeg"` */
  function MimeType(upload: Upload): (mime: string)
    ensures mime != ""
    ensures upload.mimeType != "" ==> mime == upload.mimeType
    ensures upload.mimeType == "" ==> mime == DefaultMime
  {
    if upload.mimeType != "" then upload.mimeType else DefaultMime
  }

  /** `data:<mime>;base64,<payload>` */
  function DataUrl(mime: string, payload: string): (url: string)
    ensures StartsWith(url, DataScheme)
    ensures StartsWith(url, DataScheme + mime + ";base64,")
    ensures url[|DataScheme + mime + ";base64,"|..] == payload
  {
    var url := DataScheme + mime + ";base64," + payload;
    StartsWithConcat(DataScheme + mime + ";base64,", payload);
    assert url[..|DataScheme|] == DataScheme;
    url
  }

  /**
   * What the route answers for a form's name and image, given the base64
   * encoder and the id the database gives the new row.
   */
  function PostOutcome(name: Option<string>, image: Option<Upload>, encode: seq<bv8> -> string,
                       newId: string): (r: PartnerResult)
    ensures r.BadRequest? <==> name.None? || name.value == "" || image.None?
    ensures r.BadRequest? ==> r.message == MissingFields
    ensures r.Created? ==>
      && r.partner.id == newId
      && r.partner.name == name.value
      && StartsWith(r.partner.imageUrl, DataScheme + MimeType(image.value) + ";base64,")
      && r.partner.imageUrl[|DataScheme + MimeType(image.value) + ";base64,"|..] == encode(image.value.bytes)
  {
    if name.None? || name.value == "" || image.None? then BadRequest(MissingFields)
    else Created(Partner(newId, name.value, DataUrl(MimeType(image.value), encode(image.value.bytes))))
  }

  /** The partner table, in insertion order; every image it holds is a data URL. */
  class PartnerTable {
    var partners: seq<Partner>

    ghost predicate Valid()
      reads this
    {
      forall i :: 0 <= i < |partners| ==> StartsWith(partners[i].imageUrl, DataScheme)
    }

    constructor ()
      ensures Valid() && partners == []
    {
      partners := [];
    }

    /** `POST /api/partners` */
    method Post(name: Option<string>, image: Option<Upload>, encode: seq<bv8> -> string, newId: string)
      returns (r: PartnerResult)
      requires Valid()
      modifies this
      ensures Valid()
      ensures r == PostOutcome(name, image, encode, newId)
      ensures r.Created? ==> partners == old(partners) + [r.partner]
      ensures r.BadRequest? ==> partners == old(partners)
    {
      r := PostOutcome(name, image, encode, newId);
      if r.Created? {
        var mime := MimeType(image.value);
        assert r.partner.imageUrl == DataUrl(mime, encode(image.value.bytes));
        partners := partners + [r.partner];
      }
    }
  }

  /** Every stored image is shown as stored: the carousel never rewrites an uploaded data URL. */
  lemma StoredImagesShownAsIs(table: PartnerTable, i: int)
    requires table.Valid()
    requires 0 <= i < |table.partners|
    ensures ImageSrc(table.partners[i].imageUrl) == table.partners[i].imageUrl
  {
  }
}
