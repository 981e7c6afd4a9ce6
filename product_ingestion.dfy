/**
 * `POST /api/products/add`: adds a MercadoLibre item to the local product
 * table. The handler validates the product id, rejects an id whose API URL is
 * already stored as a permalink, fetches the item (refreshing the access token
 * once and retrying once on a 401 or 403), rejects an item whose id is already
 * stored, and creates the product with its ordered pictures.
 */
module ProductIngestion {
  import opened Common
  import opened Upstream
  import TokenRefresh

  /** A row of the product table, with its picture rows as the ordered list of their URLs. */
  datatype Product = Product(
    id: string,
    title: string,
    price: real,
    currencyId: string,
    thumbnail: string,
    condition: string,
    availableQuantity: int,
    sellerNickname: string,
    permalink: string,
    pictures: seq<string>,
    categoryId: Option<string>,
    brandId: Option<string>)

  /** The route's answers: 400, 409 with the existing product's id, 201 with the new id, or 500. */
  datatype AddResult =
    | BadRequest
    | Conflict(productId: string)
    | Created(productId: string)
    | ServerError(message: string)

  const AccessTokenKey := "MERCADOLIBRE_ACCESS_TOKEN"
  const SellerDefault := "Não informado"
  const TokenMissing := "Token de acesso do MercadoLivre não configurado."
  const FirstAttemptPrefix := "Erro na API do MercadoLivre: "
  const RetryPrefix := "Erro na API do MercadoLivre após renovação: "
  /**
   * Stands in for the driver's error message when a second row with the same
   * permalink is refused; the driver's full message also names the failed
   * `prisma.product.create()` invocation before this line.
   */
  const PermalinkTaken := "Unique constraint failed on the fields: (`permalink`)"

  /** The product table and the system settings table. */
  class Database {
    /** Product rows, keyed by their id. */
    var products: map<string, Product>
    /** System settings, keyed by name. */
    var settings: map<string, string>
    /** The permalinks stored in the product table, which the table keeps unique. */
    ghost var permalinks: set<string>

    ghost predicate Valid()
      reads this
    {
      && (forall k :: k in products ==> products[k].id == k)
      && permalinks == (set k | k in products :: products[k].permalink)
      && (forall k1, k2 ::
            k1 in products && k2 in products && products[k1].permalink == products[k2].permalink ==> k1 == k2)
    }

    constructor (settings: map<string, string>)
      ensures Valid()
      ensures products == map[] && this.settings == settings
    {
      products := map[];
      this.settings := settings;
      permalinks := {};
    }

    /** `prisma.product.findUnique({ where: { permalink } })` */
    method FindByPermalink(permalink: string) returns (found: Option<Product>)
      requires Valid()
      ensures found.Some? <==> permalink in permalinks
      ensures found.Some? ==>
        found.value.id in products && products[found.value.id] == found.value &&
        found.value.permalink == permalink
    {
      if exists k :: k in products && products[k].permalink == permalink {
        var k :| k in products && products[k].permalink == permalink;
        found := Some(products[k]);
      } else {
        found := None;
      }
    }

    /** `prisma.product.findUnique({ where: { id } })` */
    method FindById(id: string) returns (found: Option<Product>)
      requires Valid()
      ensures found.Some? <==> id in products
      ensures found.Some? ==> found.value == products[id] && found.value.id == id
    {
      found := if id in products then Some(products[id]) else None;
    }

    /** `prisma.systemSetting.findUnique({ where: { key } })?.value` */
    method Setting(key: string) returns (value: Option<string>)
      ensures value.Some? <==> key in settings
      ensures value.Some? ==> value.value == settings[key]
    {
      value := if key in settings then Some(settings[key]) else None;
    }

    /**
     * `prisma.product.create`: inserts the row unless its id or its permalink
     * is already stored, in which case the database refuses it.
     */
    method Create(p: Product) returns (ok: bool)
      requires Valid()
      modifies this`products, this`permalinks
      ensures Valid()
      ensures ok <==> p.id !in old(products) && p.permalink !in old(permalinks)
      ensures ok ==> products == old(products)[p.id := p] && permalinks == old(permalinks) + {p.permalink}
      ensures !ok ==> products == old(products) && permalinks == old(permalinks)
    {
      ok := !(p.id in products) && !(exists k :: k in products && products[k].permalink == p.permalink);
      if ok {
        ghost var before := products;
        products := products[p.id := p];
        permalinks := permalinks + {p.permalink};
        forall x | x in permalinks
          ensures exists k :: k in products && products[k].permalink == x
        {
          if x != p.permalink {
            var k :| k in before && before[k].permalink == x;
            assert k in products && products[k].permalink == x;
          } else {
            assert p.id in products && products[p.id].permalink == x;
          }
        }
      }
    }
  }

  /** The id check of the handler: a non-empty string. */
  predicate ValidProductId(f: JsonField)
  {
    f.Text? && f.s != ""
  }

  /** `setting?.value || process.env.MERCADOLIBRE_ACCESS_TOKEN`, absent when both are falsy. */
  function AccessToken(setting: Option<string>, env: Option<string>): (t: Option<string>)
    ensures t.Some? ==> t.value != ""
    ensures Present(setting) ==> t == setting
    ensures !Present(setting) ==> (t.Some? <==> Present(env))
    ensures !Present(setting) && t.Some? ==> t == env
  {
    if Present(setting) then setting
    else if Present(env) then env
    else None
  }

  /** `x || null` for an optional request field. */
  function NullIfFalsy(o: Option<string>): (r: Option<string>)
    ensures r.Some? <==> o.Some? && o.value != ""
    ensures r.Some? ==> r == o
  {
    if o.Some? && o.value != "" then o else None
  }

  /** `seller?.nickname || "Não informado"` */
  function SellerNickname(seller: Option<Seller>): (n: string)
    ensures n != ""
    ensures seller.Some? && seller.value.nickname != "" ==> n == seller.value.nickname
    ensures seller.None? || seller.value.nickname == "" ==> n == SellerDefault
  {
    if seller.Some? && seller.value.nickname != "" then seller.value.nickname else SellerDefault
  }

  /** The URLs of the item's pictures, in the item's order. */
  function PictureUrls(pictures: seq<ItemPicture>): (urls: seq<string>)
    ensures |urls| == |pictures|
    ensures forall i :: 0 <= i < |pictures| ==> urls[i] == pictures[i].url
  {
    if pictures == [] then [] else [pictures[0].url] + PictureUrls(pictures[1..])
  }

  /** The product row the handler creates from a fetched item. */
  function NewProduct(item: Item, categoryId: Option<string>, brandId: Option<string>): (p: Product)
    ensures p.id == item.id && p.title == item.title && p.price == item.price
    ensures p.currencyId == item.currencyId && p.thumbnail == item.thumbnail
    ensures p.condition == item.condition && p.availableQuantity == item.availableQuantity
    ensures p.permalink == item.permalink
    ensures |p.pictures| == |item.pictures|
    ensures forall i :: 0 <= i < |item.pictures| ==> p.pictures[i] == item.pictures[i].url
    ensures p.sellerNickname != ""
    ensures p.categoryId.Some? ==> p.categoryId.value != ""
    ensures p.brandId.Some? ==> p.brandId.value != ""
  {
    Product(item.id, item.title, item.price, item.currencyId, item.thumbnail, item.condition,
            item.availableQuantity, SellerNickname(item.seller), item.permalink,
            PictureUrls(item.pictures), NullIfFalsy(categoryId), NullIfFalsy(brandId))
  }

  /**
   * What `fetchProductDetailsFromMercadoLivre` does, given the access token it
   * resolved: no request without a token; otherwise one GET, and on a 401 or
   * 403 one refresh and, if that succeeded, one retry carrying the refreshed
   * access token.
   */
  function FetchPlan(token: Option<string>, itemId: string,
                     respond: (string, string) -> ItemReply, refresh: RefreshReply): (x: Exchange)
    ensures token.None? ==> x == Exchange([], 0, Failure(TokenMissing))
    ensures token.Some? ==> 1 <= |x.requests| <= 2 && x.requests[0] == Request(ItemUrl(itemId), token.value)
    ensures forall i :: 0 <= i < |x.requests| ==> x.requests[i].url == ItemUrl(itemId)
    // exactly one refresh after an authorization failure, none otherwise
    ensures x.refreshes == if token.Some? && AuthRejected(respond(ItemUrl(itemId), token.value)) then 1 else 0
    // a retry happens exactly when the refresh succeeded, and it carries the refreshed access token
    ensures |x.requests| == 2 <==> x.refreshes == 1 && RefreshOutcome(refresh).Success?
    ensures |x.requests| == 2 ==> x.requests[1].bearer == RefreshOutcome(refresh).value.accessToken
    // a successful fetch returns the body of the last answer, which had an ok status
    ensures x.outcome.Success? ==>
      var last := respond(x.requests[|x.requests| - 1].url, x.requests[|x.requests| - 1].bearer);
      last.ItemAnswer? && TokenRefresh.IsOk(last.status) && x.outcome.value == last.body
    // a failed refresh is reported as the handler's error
    ensures x.refreshes == 1 && RefreshOutcome(refresh).Failure? ==> x.outcome == Failure(RefreshOutcome(refresh).error)
    // otherwise the last answer decides: its item on an ok status, an error naming the status
    // (with the retry's own prefix after a refresh) or the thrown message otherwise
    ensures token.Some? && !(x.refreshes == 1 && RefreshOutcome(refresh).Failure?) ==>
      x.outcome == Settle(respond(x.requests[|x.requests| - 1].url, x.requests[|x.requests| - 1].bearer),
                          if |x.requests| == 2 then RetryPrefix else FirstAttemptPrefix)
  {
    if token.None? then Exchange([], 0, Failure(TokenMissing))
    else
      var url := ItemUrl(itemId);
      var first := respond(url, token.value);
      if AuthRejected(first) then
        var tokens := RefreshOutcome(refresh);
        if tokens.Failure? then Exchange([Request(url, token.value)], 1, Failure(tokens.error))
        else
          var retry := respond(url, tokens.value.accessToken);
          Exchange([Request(url, token.value), Request(url, tokens.value.accessToken)], 1,
                   Settle(retry, RetryPrefix))
      else Exchange([Request(url, token.value)], 0, Settle(first, FirstAttemptPrefix))
  }

  /** `refreshMercadoLivreToken`: one POST to the refresh route; the new tokens are returned, never stored. */
  method RefreshMercadoLivreToken(mkt: Marketplace) returns (r: Outcome<TokenPair>)
    modifies mkt`refreshPosts
    ensures r == RefreshOutcome(mkt.refreshReply)
    ensures mkt.refreshPosts == old(mkt.refreshPosts) + 1
  {
    var reply := mkt.PostRefresh();
    r := RefreshOutcome(reply);
  }

  /** `fetchProductDetailsFromMercadoLivre` */
  method FetchProductDetails(db: Database, mkt: Marketplace, env: TokenRefresh.Env, itemId: string)
    returns (r: Outcome<Item>)
    modifies mkt
    ensures var x := FetchPlan(AccessToken(SettingValue(db.settings), env.accessToken), itemId,
                               mkt.respond, mkt.refreshReply);
      && r == x.outcome
      && mkt.requests == old(mkt.requests) + x.requests
      && mkt.refreshPosts == old(mkt.refreshPosts) + x.refreshes
  {
    var setting := db.Setting(AccessTokenKey);
    var token := AccessToken(setting, env.accessToken);
    if token.None? {
      return Failure(TokenMissing);
    }
    var url := ItemUrl(itemId);
    var response := mkt.GetItem(url, token.value);
    if AuthRejected(response) {
      var tokens := RefreshMercadoLivreToken(mkt);
      if tokens.Failure? {
        return Failure(tokens.error);
      }
      var retryResponse := mkt.GetItem(url, tokens.value.accessToken);
      return Settle(retryResponse, RetryPrefix);
    }
    return Settle(response, FirstAttemptPrefix);
  }

  /** The stored access-token setting. */
  function SettingValue(settings: map<string, string>): (v: Option<string>)
    ensures v.Some? <==> AccessTokenKey in settings
    ensures v.Some? ==> v.value == settings[AccessTokenKey]
  {
    if AccessTokenKey in settings then Some(settings[AccessTokenKey]) else None
  }

  /** `POST /api/products/add` with body `{ productId, categoryId, brandId }` */
  method Post(db: Database, mkt: Marketplace, env: TokenRefresh.Env,
              productId: JsonField, categoryId: Option<string>, brandId: Option<string>)
    returns (r: AddResult)
    requires db.Valid()
    modifies db`products, db`permalinks, mkt
    ensures db.Valid()
    // the settings table, where the access token is stored, is never written
    ensures db.settings == old(db.settings)
    // an invalid id: 400, nothing sent, nothing written
    ensures !ValidProductId(productId) ==>
      && r == BadRequest && db.products == old(db.products)
      && mkt.requests == old(mkt.requests) && mkt.refreshPosts == old(mkt.refreshPosts)
    // the first guard: a stored permalink equal to the id's API URL gives 409 before any request
    ensures ValidProductId(productId) && ItemUrl(productId.s) in old(db.permalinks) ==>
      && r.Conflict? && r.productId in old(db.products)
      && old(db.products)[r.productId].permalink == ItemUrl(productId.s)
      && db.products == old(db.products)
      && mkt.requests == old(mkt.requests) && mkt.refreshPosts == old(mkt.refreshPosts)
    // past the first guard, the fetch behaves as FetchPlan says
    ensures ValidProductId(productId) && ItemUrl(productId.s) !in old(db.permalinks) ==>
      var x := FetchPlan(AccessToken(SettingValue(db.settings), env.accessToken), productId.s,
                         mkt.respond, mkt.refreshReply);
      && mkt.requests == old(mkt.requests) + x.requests
      && mkt.refreshPosts == old(mkt.refreshPosts) + x.refreshes
      // a failed fetch: 500 with its message, nothing written
      && (x.outcome.Failure? ==> r == ServerError(x.outcome.error) && db.products == old(db.products))
      // the second guard: the fetched id is already stored
      && (x.outcome.Success? && x.outcome.value.id in old(db.products) ==>
            r == Conflict(x.outcome.value.id) && db.products == old(db.products))
      // the fetched permalink is stored under another id: the database refuses the row
      && (x.outcome.Success? && x.outcome.value.id !in old(db.products) &&
          x.outcome.value.permalink in old(db.permalinks) ==>
            r == ServerError(PermalinkTaken) && db.products == old(db.products))
      // otherwise exactly the new product is created
      && (x.outcome.Success? && x.outcome.value.id !in old(db.products) &&
          x.outcome.value.permalink !in old(db.permalinks) ==>
            && r == Created(x.outcome.value.id)
            && db.products == old(db.products)[x.outcome.value.id := NewProduct(x.outcome.value, categoryId, brandId)])
    // a creation adds exactly one row, under a fresh id
    ensures r.Created? ==> r.productId !in old(db.products) && db.products.Keys == old(db.products).Keys + {r.productId}
    ensures !r.Created? ==> db.products == old(db.products)
  {
    if !ValidProductId(productId) {
      return BadRequest;
    }
    var id := productId.s;
    var existing := db.FindByPermalink(ItemUrl(id));
    if existing.Some? {
      return Conflict(existing.value.id);
    }
    var fetched := FetchProductDetails(db, mkt, env, id);
    if fetched.Failure? {
      return ServerError(fetched.error);
    }
    var item := fetched.value;
    var existingById := db.FindById(item.id);
    if existingById.Some? {
      return Conflict(existingById.value.id);
    }
    var created := db.Create(NewProduct(item, categoryId, brandId));
    if !created {
      return ServerError(PermalinkTaken);
    }
    return Created(item.id);
  }
}
