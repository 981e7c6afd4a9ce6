/**
 * The MercadoLibre item endpoint and the application's own token refresh
 * route, as the two marketplace routes see them. The endpoint is scripted:
 * its answer is a fixed function of the requested URL and the bearer token
 * sent, and the refresh route always gives the same scripted answer. Ghost
 * logs record every item request and count every refresh request.
 */
module Upstream {
  import opened Common
  import TokenRefresh

  datatype ItemPicture = ItemPicture(id: string, url: string, secureUrl: string)

  datatype Seller = Seller(nickname: string)

  /** The item JSON the marketplace returns (the fields the routes use). */
  datatype Item = Item(
    id: string,
    title: string,
    price: real,
    currencyId: string,
    thumbnail: string,
    condition: string,
    availableQuantity: int,
    permalink: string,
    pictures: seq<ItemPicture>,
    seller: Option<Seller>)

  /**
   * What the item endpoint does with one GET: it answers with a status, the
   * parsed body and the body text, or `fetch` (or the body parsing) throws.
   */
  datatype ItemReply = ItemAnswer(status: int, body: Item, text: string) | ItemThrow(message: string)

  /** What a POST to the application's refresh route does: its JSON answer, or a throw. */
  datatype RefreshReply = RefreshAnswer(response: TokenRefresh.RefreshResponse) | RefreshThrow(message: string)

  /** One GET sent to the item endpoint: its URL and the token in its `Authorization: Bearer` header. */
  datatype Request = Request(url: string, bearer: string)

  /** What one item fetch does: the item requests it sends, the refresh requests it sends, and its outcome. */
  datatype Exchange = Exchange(requests: seq<Request>, refreshes: nat, outcome: Outcome<Item>)

  datatype TokenPair = TokenPair(accessToken: string, refreshToken: string)

  const ItemsBase := "https://api.mercadolibre.com/items/"
  const RefreshFailedPrefix := "Falha ao renovar o token: "
  const UnknownError := "Erro desconhecido"

  /** `https://api.mercadolibre.com/items/<id>` */
  function ItemUrl(id: string): (url: string)
    ensures StartsWith(url, ItemsBase)
    ensures url[|ItemsBase|..] == id
  {
    StartsWithConcat(ItemsBase, id);
    ItemsBase + id
  }

  lemma ItemUrlInjective(a: string, b: string)
    requires ItemUrl(a) == ItemUrl(b)
    ensures a == b
  {
    assert a == ItemUrl(a)[|ItemsBase|..];
  }

  /** The first answer is an authorization failure (401 or 403), the trigger for the one refresh. */
  predicate AuthRejected(reply: ItemReply)
  {
    reply.ItemAnswer? && (reply.status == 401 || reply.status == 403)
  }

  /** `Erro na API do MercadoLivre...: <status> - <text>` */
  function ApiError(prefix: string, status: int, text: string): (msg: string)
    ensures StartsWith(msg, prefix + IntToString(status) + " - ")
  {
    StartsWithConcat(prefix + IntToString(status) + " - ", text);
    prefix + IntToString(status) + " - " + text
  }

  /**
   * The outcome of a final item answer: the parsed item on an ok status,
   * otherwise an error that names the status (with the given prefix), or the
   * message of what was thrown.
   */
  function Settle(reply: ItemReply, prefix: string): (r: Outcome<Item>)
    ensures r.Success? <==> reply.ItemAnswer? && TokenRefresh.IsOk(reply.status)
    ensures r.Success? ==> r.value == reply.body
    ensures reply.ItemAnswer? && !TokenRefresh.IsOk(reply.status) ==>
      r.error == ApiError(prefix, reply.status, reply.text)
    ensures reply.ItemThrow? ==> r.error == reply.message
  {
    match reply
    case ItemThrow(m) => Failure(m)
    case ItemAnswer(status, body, text) =>
      if TokenRefresh.IsOk(status) then Success(body) else Failure(ApiError(prefix, status, text))
  }

  /**
   * How a route reads the refresh route's answer: the new token pair when
   * `success` is true, otherwise `Falha ao renovar o token: <error>` with
   * "Erro desconhecido" standing in for an empty error.
   */
  function RefreshOutcome(reply: RefreshReply): (r: Outcome<TokenPair>)
    ensures r.Success? <==> reply.RefreshAnswer? && reply.response.RefreshOk?
    ensures r.Success? ==>
      r.value == TokenPair(reply.response.accessToken, reply.response.refreshToken)
    ensures reply.RefreshAnswer? && reply.response.RefreshError? ==>
      r.error == RefreshFailedPrefix +
                 (if reply.response.error != "" then reply.response.error else UnknownError)
    ensures reply.RefreshThrow? ==> r.error == reply.message
  {
    match reply
    case RefreshThrow(m) => Failure(m)
    case RefreshAnswer(resp) =>
      match resp
      case RefreshOk(access, refresh, _, _) => Success(TokenPair(access, refresh))
      case RefreshError(_, e) => Failure(RefreshFailedPrefix + (if e != "" then e else UnknownError))
  }

  /** The marketplace as one request handler sees it. */
  class Marketplace {
    /** The item endpoint's answer to a GET of a URL with a bearer token. */
    const respond: (string, string) -> ItemReply
    /** The refresh route's answer to a POST. */
    const refreshReply: RefreshReply
    /** Every item GET sent so far, in order. */
    ghost var requests: seq<Request>
    /** The number of refresh POSTs sent so far. */
    ghost var refreshPosts: nat

    constructor (respond: (string, string) -> ItemReply, refreshReply: RefreshReply)
      ensures this.respond == respond && this.refreshReply == refreshReply
      ensures requests == [] && refreshPosts == 0
    {
      this.respond := respond;
      this.refreshReply := refreshReply;
      requests := [];
      refreshPosts := 0;
    }

    /** `fetch(url, { headers: { Authorization: "Bearer " + token } })` */
    method GetItem(url: string, token: string) returns (reply: ItemReply)
      modifies this`requests
      ensures reply == respond(url, token)
      ensures requests == old(requests) + [Request(url, token)]
    {
      reply := respond(url, token);
      requests := requests + [Request(url, token)];
    }

    /** `fetch(baseUrl + "/api/refreshToken", { method: "POST" })` and its `json()` */
    method PostRefresh() returns (reply: RefreshReply)
      modifies this`refreshPosts
      ensures reply == refreshReply
      ensures refreshPosts == old(refreshPosts) + 1
    {
      reply := refreshReply;
      refreshPosts := refreshPosts + 1;
    }
  }
}
