/**
 * `GET /api/getProducts?item_id=...`: fetches one MercadoLibre item with the
 * access token from the process environment; on a 401 or 403 it asks the
 * refresh route once and fetches once more.
 *
 * As written, the second fetch passes the environment token again, which
 * the refresh route never changes, so the refreshed token is never used. The
 * module models that route as written (`GetPlan`, `Get`) and the evidently
 * intended one that retries with the refreshed token (`GetPlanRefreshed`,
 * `GetWithRefreshedToken`).
 */
module ItemFetch {
  import opened Common
  import opened Upstream
  import TokenRefresh

  const DefaultItemId := "MLB3312824304"
  const TokenMissing := "Token de acesso do MercadoLivre não configurado."
  const ApiErrorPrefix := "Erro na API do MercadoLivre: "

  /** `searchParams.get("item_id") || "MLB3312824304"` */
  function ItemIdParam(query: Option<string>): (id: string)
    ensures id != ""
    ensures Present(query) ==> id == query.value
    ensures !Present(query) ==> id == DefaultItemId
  {
    if Present(query) then query.value else DefaultItemId
  }

  /** The last item answer of an exchange. */
  function LastAnswer(x: Exchange, respond: (string, string) -> ItemReply): ItemReply
    requires x.requests != []
  {
    respond(x.requests[|x.requests| - 1].url, x.requests[|x.requests| - 1].bearer)
  }

  /** What the route does as written, given the environment token. */
  function GetPlan(envToken: Option<string>, itemId: string,
                   respond: (string, string) -> ItemReply, refresh: RefreshReply): (x: Exchange)
    ensures !Present(envToken) ==> x == Exchange([], 0, Failure(TokenMissing))
    ensures Present(envToken) ==>
      1 <= |x.requests| <= 2 && x.requests[0] == Request(ItemUrl(itemId), envToken.value)
    ensures x.refreshes ==
      if Present(envToken) && AuthRejected(respond(ItemUrl(itemId), envToken.value)) then 1 else 0
    ensures |x.requests| == 2 <==> x.refreshes == 1 && RefreshOutcome(refresh).Success?
    // the retry is the very same request as the first attempt
    ensures |x.requests| == 2 ==> x.requests[1] == x.requests[0]
    ensures x.refreshes == 1 && RefreshOutcome(refresh).Failure? ==>
      x.outcome == Failure(RefreshOutcome(refresh).error)
    ensures x.outcome.Success? ==>
      x.requests != [] && LastAnswer(x, respond).ItemAnswer? &&
      TokenRefresh.IsOk(LastAnswer(x, respond).status) && x.outcome.value == LastAnswer(x, respond).body
    // otherwise the last answer decides: its item on an ok status, a 500 naming the status, or the thrown message
    ensures Present(envToken) && !(x.refreshes == 1 && RefreshOutcome(refresh).Failure?) ==>
      x.outcome == Settle(LastAnswer(x, respond), ApiErrorPrefix)
  {
    if !Present(envToken) then Exchange([], 0, Failure(TokenMissing))
    else
      var first := Request(ItemUrl(itemId), envToken.value);
      var response := respond(first.url, first.bearer);
      if AuthRejected(response) then
        var tokens := RefreshOutcome(refresh);
        if tokens.Failure? then Exchange([first], 1, Failure(tokens.error))
        else Exchange([first, first], 1, Settle(respond(first.url, first.bearer), ApiErrorPrefix))
      else Exchange([first], 0, Settle(response, ApiErrorPrefix))
  }

  /** The intended route: the retry carries the access token the refresh route returned. */
  function GetPlanRefreshed(envToken: Option<string>, itemId: string,
                            respond: (string, string) -> ItemReply, refresh: RefreshReply): (x: Exchange)
    ensures !Present(envToken) ==> x == Exchange([], 0, Failure(TokenMissing))
    ensures Present(envToken) ==>
      1 <= |x.requests| <= 2 && x.requests[0] == Request(ItemUrl(itemId), envToken.value)
    ensures x.refreshes ==
      if Present(envToken) && AuthRejected(respond(ItemUrl(itemId), envToken.value)) then 1 else 0
    ensures |x.requests| == 2 <==>
      x.refreshes == 1 && RefreshOutcome(refresh).Success? && RefreshOutcome(refresh).value.accessToken != ""
    // the retry carries the refreshed access token
    ensures |x.requests| == 2 ==>
      x.requests[1] == Request(ItemUrl(itemId), RefreshOutcome(refresh).value.accessToken)
    ensures x.refreshes == 1 && RefreshOutcome(refresh).Failure? ==>
      x.outcome == Failure(RefreshOutcome(refresh).error)
    ensures x.outcome.Success? ==>
      x.requests != [] && LastAnswer(x, respond).ItemAnswer? &&
      TokenRefresh.IsOk(LastAnswer(x, respond).status) && x.outcome.value == LastAnswer(x, respond).body
    // a refresh that yields an empty access token: the token-missing error, and no retry
    ensures x.refreshes == 1 && RefreshOutcome(refresh).Success? && RefreshOutcome(refresh).value.accessToken == "" ==>
      x.outcome == Failure(TokenMissing)
    // otherwise the last answer decides: its item on an ok status, a 500 naming the status, or the thrown message
    ensures Present(envToken) && !(x.refreshes == 1 && RefreshOutcome(refresh).Failure?) &&
            !(x.refreshes == 1 && RefreshOutcome(refresh).Success? && RefreshOutcome(refresh).value.accessToken == "") ==>
      x.outcome == Settle(LastAnswer(x, respond), ApiErrorPrefix)
  {
    if !Present(envToken) then Exchange([], 0, Failure(TokenMissing))
    else
      var first := Request(ItemUrl(itemId), envToken.value);
      var response := respond(first.url, first.bearer);
      if AuthRejected(response) then
        var tokens := RefreshOutcome(refresh);
        if tokens.Failure? then Exchange([first], 1, Failure(tokens.error))
        else if tokens.value.accessToken == "" then Exchange([first], 1, Failure(TokenMissing))
        else
          var retry := Request(first.url, tokens.value.accessToken);
          Exchange([first, retry], 1, Settle(respond(retry.url, retry.bearer), ApiErrorPrefix))
      else Exchange([first], 0, Settle(response, ApiErrorPrefix))
  }

  /**
   * As written, a retry can never succeed: it repeats the request the
   * endpoint has just refused, so every refresh ends in a failure.
   */
  lemma RetryRepeatsRefusal(envToken: Option<string>, itemId: string,
                            respond: (string, string) -> ItemReply, refresh: RefreshReply)
    ensures var x := GetPlan(envToken, itemId, respond, refresh);
      x.refreshes == 1 ==> x.outcome.Failure?
  {
    var x := GetPlan(envToken, itemId, respond, refresh);
    if x.refreshes == 1 && RefreshOutcome(refresh).Success? {
      var first := respond(ItemUrl(itemId), envToken.value);
      assert AuthRejected(first);
      assert x.outcome == Settle(first, ApiErrorPrefix);
    }
  }

  /** An endpoint that refuses the stale token and accepts the fresh one. */
  function RotatingEndpoint(item: Item): (string, string) -> ItemReply
  {
    (url: string, token: string) =>
      if token == "fresh" then ItemAnswer(200, item, "") else ItemAnswer(401, item, "invalid access token")
  }

  /**
   * The input that shows the discrepancy: the environment holds a stale token,
   * the endpoint answers 401 to it, and the refresh yields a token the
   * endpoint accepts. As written the route fails after the refresh; with the
   * refreshed token it returns the item.
   */
  lemma StaleRetryCounterexample(item: Item)
    ensures var respond := RotatingEndpoint(item);
      var refresh := RefreshAnswer(TokenRefresh.RefreshOk("fresh", "next-refresh", 21600, "Bearer"));
      && GetPlan(Some("stale"), "MLB1", respond, refresh).outcome
           == Failure(ApiError(ApiErrorPrefix, 401, "invalid access token"))
      && GetPlanRefreshed(Some("stale"), "MLB1", respond, refresh).outcome == Success(item)
  {
    var respond := RotatingEndpoint(item);
    var refresh := RefreshAnswer(TokenRefresh.RefreshOk("fresh", "next-refresh", 21600, "Bearer"));
    assert "stale" != "fresh";
    assert respond(ItemUrl("MLB1"), "stale") == ItemAnswer(401, item, "invalid access token");
    assert respond(ItemUrl("MLB1"), "fresh") == ItemAnswer(200, item, "");
  }

  /** `fetchProductFromMercadoLibre`: no request without a token, otherwise one GET. */
  method FetchProductFromMercadoLibre(mkt: Marketplace, itemId: string, token: Option<string>)
    returns (reply: Option<ItemReply>)
    modifies mkt`requests
    ensures reply.None? <==> !Present(token)
    ensures reply.None? ==> mkt.requests == old(mkt.requests)
    ensures reply.Some? ==>
      && reply.value == mkt.respond(ItemUrl(itemId), token.value)
      && mkt.requests == old(mkt.requests) + [Request(ItemUrl(itemId), token.value)]
  {
    if !Present(token) {
      return None;
    }
    var r := mkt.GetItem(ItemUrl(itemId), token.value);
    return Some(r);
  }

  /** `GET /api/getProducts` as written: answers `{ success: true, data }` or a 500 with the error. */
  method Get(mkt: Marketplace, env: TokenRefresh.Env, query: Option<string>) returns (r: Outcome<Item>)
    modifies mkt
    ensures var x := GetPlan(env.accessToken, ItemIdParam(query), mkt.respond, mkt.refreshReply);
      && r == x.outcome
      && mkt.requests == old(mkt.requests) + x.requests
      && mkt.refreshPosts == old(mkt.refreshPosts) + x.refreshes
  {
    var itemId := ItemIdParam(query);
    var response := FetchProductFromMercadoLibre(mkt, itemId, env.accessToken);
    if response.None? {
      return Failure(TokenMissing);
    }
    if AuthRejected(response.value) {
      var refreshReply := mkt.PostRefresh();
      var tokens := RefreshOutcome(refreshReply);
      if tokens.Failure? {
        return Failure(tokens.error);
      }
      response := FetchProductFromMercadoLibre(mkt, itemId, env.accessToken);
    }
    return Settle(response.value, ApiErrorPrefix);
  }

  /** `GET /api/getProducts` with the retry carrying the refreshed access token. */
  method GetWithRefreshedToken(mkt: Marketplace, env: TokenRefresh.Env, query: Option<string>)
    returns (r: Outcome<Item>)
    modifies mkt
    ensures var x := GetPlanRefreshed(env.accessToken, ItemIdParam(query), mkt.respond, mkt.refreshReply);
      && r == x.outcome
      && mkt.requests == old(mkt.requests) + x.requests
      && mkt.refreshPosts == old(mkt.refreshPosts) + x.refreshes
  {
    var itemId := ItemIdParam(query);
    var response := FetchProductFromMercadoLibre(mkt, itemId, env.accessToken);
    if response.None? {
      return Failure(TokenMissing);
    }
    if AuthRejected(response.value) {
      var refreshReply := mkt.PostRefresh();
      var tokens := RefreshOutcome(refreshReply);
      if tokens.Failure? {
        return Failure(tokens.error);
      }
      response := FetchProductFromMercadoLibre(mkt, itemId, Some(tokens.value.accessToken));
      if response.None? {
        return Failure(TokenMissing);
      }
    }
    return Settle(response.value, ApiErrorPrefix);
  }
}
