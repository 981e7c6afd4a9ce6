/**
 * The `POST /api/refreshToken` route: an OAuth 2.0 refresh-token grant
 * (section 6 of RFC 6749) against the MercadoLibre token endpoint, with the
 * client credentials sent in the request body (section 2.3.1 of RFC 6749).
 * The route reads its three credentials from the process environment, sends
 * at most one request, and maps the upstream answer to its own JSON answer.
 * It persists nothing.
 */
module TokenRefresh {
  import opened Common

  /** The process environment variables the marketplace routes read. */
  datatype Env = Env(
    clientId: Option<string>,
    clientSecret: Option<string>,
    refreshToken: Option<string>,
    accessToken: Option<string>)

  /** The parsed JSON body of the token endpoint's answer. */
  datatype TokenBody = TokenBody(
    message: Option<string>,
    accessToken: string,
    refreshToken: string,
    expiresIn: int,
    tokenType: string)

  /**
   * What the token endpoint does with the request: it answers (with an
   * HTTP status and a JSON body), or the request or the body parsing throws
   * an error with the given message.
   */
  datatype TokenReply = TokenAnswer(status: int, body: TokenBody) | TokenThrow(message: string)

  /** The route's own JSON answer: status 200 with the new tokens, or status 500 with an error. */
  datatype RefreshResponse =
    | RefreshOk(accessToken: string, refreshToken: string, expiresIn: int, tokenType: string)
    | RefreshError(status: int, error: string)

  /** The single request the route sends to the token endpoint. */
  datatype GrantRequest = GrantRequest(url: string, contentType: string, form: seq<(string, string)>)

  /** What one call of the route does: the request it sent, if any, and what it answered. */
  datatype Exchange = Exchange(sent: Option<GrantRequest>, response: RefreshResponse)

  const TokenUrl := "https://api.mercadolibre.com/oauth/token"
  const FormContentType := "application/x-www-form-urlencoded"
  const MissingCredentials := "Credenciais do MercadoLivre não configuradas."
  const RefreshFailedDefault := "Erro ao renovar o token."

  /** `response.ok`: a status in the range 200-299. */
  predicate IsOk(status: int)
  {
    200 <= status <= 299
  }

  /** All three credentials the grant needs are configured. */
  predicate Configured(env: Env)
  {
    Present(env.clientId) && Present(env.clientSecret) && Present(env.refreshToken)
  }

  /** The value of `key` in a list of form fields (the first one, as `URLSearchParams.get` answers). */
  function FormValue(form: seq<(string, string)>, key: string): (v: Option<string>)
    ensures v.Some? <==> exists i :: 0 <= i < |form| && form[i].0 == key
    ensures v.Some? ==> exists i :: 0 <= i < |form| && form[i] == (key, v.value)
  {
    if form == [] then None
    else if form[0].0 == key then Some(form[0].1)
    else FormValue(form[1..], key)
  }

  /** A field whose name no earlier field carries is the one `FormValue` finds. */
  lemma {:induction false} FormValueFirst(form: seq<(string, string)>, i: int)
    requires 0 <= i < |form|
    requires forall j :: 0 <= j < i ==> form[j].0 != form[i].0
    ensures FormValue(form, form[i].0) == Some(form[i].1)
  {
    if i > 0 {
      FormValueFirst(form[1..], i - 1);
    }
  }

  /** The names of the form fields, in order. */
  function FormKeys(form: seq<(string, string)>): (keys: seq<string>)
    ensures |keys| == |form|
    ensures forall i :: 0 <= i < |form| ==> keys[i] == form[i].0
  {
    if form == [] then [] else [form[0].0] + FormKeys(form[1..])
  }

  lemma GrantFormFields(form: seq<(string, string)>)
    requires |form| == 4
    requires form[0].0 == "grant_type" && form[1].0 == "client_id"
    requires form[2].0 == "client_secret" && form[3].0 == "refresh_token"
    ensures FormValue(form, "grant_type") == Some(form[0].1)
    ensures FormValue(form, "client_id") == Some(form[1].1)
    ensures FormValue(form, "client_secret") == Some(form[2].1)
    ensures FormValue(form, "refresh_token") == Some(form[3].1)
  {
    assert "grant_type"[0] != "client_id"[0] && "grant_type"[0] != "refresh_token"[0];
    assert "client_id"[7] != "client_secret"[7] && "client_id"[0] != "refresh_token"[0];
    assert "client_secret"[0] != "refresh_token"[0];
    FormValueFirst(form, 0);
    FormValueFirst(form, 1);
    FormValueFirst(form, 2);
    FormValueFirst(form, 3);
  }

  /** The refresh-token grant request, form-encoded. */
  function Grant(clientId: string, clientSecret: string, refreshToken: string): (g: GrantRequest)
    ensures g.url == TokenUrl && g.contentType == FormContentType
    ensures FormKeys(g.form) == ["grant_type", "client_id", "client_secret", "refresh_token"]
    ensures FormValue(g.form, "grant_type") == Some("refresh_token")
    ensures FormValue(g.form, "client_id") == Some(clientId)
    ensures FormValue(g.form, "client_secret") == Some(clientSecret)
    ensures FormValue(g.form, "refresh_token") == Some(refreshToken)
  {
    var form := [("grant_type", "refresh_token"), ("client_id", clientId),
                 ("client_secret", clientSecret), ("refresh_token", refreshToken)];
    assert FormKeys(form) == ["grant_type", "client_id", "client_secret", "refresh_token"];
    GrantFormFields(form);
    GrantRequest(TokenUrl, FormContentType, form)
  }

  /** `data.message || "Erro ao renovar o token."` */
  function UpstreamError(body: TokenBody): (e: string)
    ensures e != ""
    ensures Present(body.message) ==> e == body.message.value
    ensures !Present(body.message) ==> e == RefreshFailedDefault
  {
    if Present(body.message) then body.message.value else RefreshFailedDefault
  }

  /** One call of the route, given the environment and what the token endpoint does. */
  function Post(env: Env, reply: TokenReply): (x: Exchange)
    // missing configuration: no request, answer 500
    ensures !Configured(env) ==> x.sent == None && x.response == RefreshError(500, MissingCredentials)
    // configured: exactly the grant built from the three configured values is sent
    ensures Configured(env) ==>
      x.sent == Some(Grant(env.clientId.value, env.clientSecret.value, env.refreshToken.value))
    // the refresh token sent is always the configured one: the route never rotates it
    ensures x.sent.Some? ==> FormValue(x.sent.value.form, "refresh_token") == env.refreshToken
    // success exactly when configured and the endpoint answered with an ok status
    ensures x.response.RefreshOk? <==> Configured(env) && reply.TokenAnswer? && IsOk(reply.status)
    ensures x.response.RefreshOk? ==>
      x.response == RefreshOk(reply.body.accessToken, reply.body.refreshToken,
                              reply.body.expiresIn, reply.body.tokenType)
    ensures x.response.RefreshError? ==> x.response.status == 500
    ensures Configured(env) && reply.TokenAnswer? && !IsOk(reply.status) ==>
      x.response.error == UpstreamError(reply.body)
    ensures Configured(env) && reply.TokenThrow? ==> x.response.error == reply.message
  {
    if !Configured(env) then
      Exchange(None, RefreshError(500, MissingCredentials))
    else
      var sent := Some(Grant(env.clientId.value, env.clientSecret.value, env.refreshToken.value));
      match reply
      case TokenThrow(m) =>
        Exchange(sent, RefreshError(500, m))
      case TokenAnswer(status, body) =>
        if !IsOk(status) then Exchange(sent, RefreshError(500, UpstreamError(body)))
        else Exchange(sent, RefreshOk(body.accessToken, body.refreshToken, body.expiresIn, body.tokenType))
  }
}
