/** `get_oauth_token`: the Access Token Request and Response of the OAuth 2.0
    authorization code grant (sections 4.1.3 and 5.1 of RFC 6749) against a
    farm's token endpoint. The POST itself is foreign; its response and the
    current time (whole seconds) are inputs. */
module OAuth {
  import opened Common
  import opened Dict
  import Numerals

  /** The authorization parameters the caller received on the redirect. */
  datatype AuthParams = AuthParams(
    code: string,
    state: string,
    grantType: string,
    clientId: string,
    clientSecret: Option<string>,
    redirectUri: Option<string>
  )

  /** A JSON value of the token response. Arrays and objects are `JComposite`. */
  datatype Json = JNull | JBool(b: bool) | JInt(i: int) | JStr(s: string) | JComposite

  /** The token endpoint's answer; `body` is `None` when it is not a JSON
      object. */
  datatype HttpResponse = HttpResponse(status: int, body: Option<Dict<Json>>)

  /** The POST: target URL and form data. */
  datatype TokenRequest = TokenRequest(url: string, data: Dict<string>)

  /** How the exchange can fail. Only `ExchangeFailed` is raised deliberately
      (HTTP 400); the others are Python errors from reading the body. */
  datatype ExchangeError = ExchangeFailed | BodyNotJson | MissingExpiresIn | BadExpiresIn

  datatype TokenResult = Token(body: Dict<Json>) | Failed(error: ExchangeError)

  function StatusCode(e: ExchangeError): (code: int)
    ensures code == 400 <==> e == ExchangeFailed
  {
    if e == ExchangeFailed then 400 else 500
  }

  /** Python's `int(v)` on a decoded JSON value; `None` is the TypeError or
      ValueError case. */
  function ToInt(v: Json): (r: Option<int>)
    ensures v.JInt? ==> r == Some(v.i)
    ensures v.JBool? ==> r == Some(if v.b then 1 else 0)
    ensures v.JNull? || v.JComposite? ==> r.None?
    ensures v.JStr? ==> r == Numerals.ParseInt(v.s)
  {
    match v
    case JNull => None
    case JBool(b) => Some(if b then 1 else 0)
    case JInt(i) => Some(i)
    case JStr(s) => Numerals.ParseInt(s)
    case JComposite => None
  }

  /** The token request (lines 234-247): posted to the farm's token
      endpoint, with the form fields in this order: the four grant fields,
      the redirect URI (the caller's when given, else the farm's
      `/api/authorized`), then the client secret when there is one. */
  ghost predicate IsTokenRequest(farmUrl: string, params: AuthParams, request: TokenRequest) {
    && request.url == farmUrl + "/oauth2/token"
    && request.data ==
         [("code", params.code), ("state", params.state), ("grant_type", params.grantType),
          ("client_id", params.clientId),
          ("redirect_uri", if params.redirectUri.Some? then params.redirectUri.value
                           else farmUrl + "/api/authorized")]
         + (if params.clientSecret.Some? then [("client_secret", params.clientSecret.value)] else [])
  }

  /** The outcome of reading the token response (lines 251-262): any status
      but 200 is the 400 error; otherwise the body is the token, kept as it
      is when it has `expires_at`, else with `expires_at = now +
      int(expires_in)` appended as its last key. */
  ghost predicate IsTokenOutcome(response: HttpResponse, now: int, r: TokenResult) {
    && (response.status != 200 <==> r == Failed(ExchangeFailed))
    && (response.status == 200 && response.body.None? ==> r == Failed(BodyNotJson))
    && (response.status == 200 && response.body.Some? && HasKey(response.body.value, "expires_at") ==>
          r == Token(response.body.value))
    && (response.status == 200 && response.body.Some? && !HasKey(response.body.value, "expires_at") ==>
          var expiresIn := Get(response.body.value, "expires_in");
          if expiresIn.None? then r == Failed(MissingExpiresIn)
          else if ToInt(expiresIn.value).None? then r == Failed(BadExpiresIn)
          else r == Token(response.body.value + [("expires_at", JInt(now + ToInt(expiresIn.value).value))]))
  }

  /** Lines 234-247: the form data, built field by field. */
  method BuildTokenRequest(farmUrl: string, params: AuthParams) returns (request: TokenRequest)
    ensures IsTokenRequest(farmUrl, params, request)
  {
    var data: Dict<string> := [];
    PutNew(data, "code", params.code);
    data := Put(data, "code", params.code);
    PutNew(data, "state", params.state);
    data := Put(data, "state", params.state);
    PutNew(data, "grant_type", params.grantType);
    data := Put(data, "grant_type", params.grantType);
    PutNew(data, "client_id", params.clientId);
    data := Put(data, "client_id", params.clientId);
    PutNew(data, "redirect_uri", farmUrl + "/api/authorized");
    data := Put(data, "redirect_uri", farmUrl + "/api/authorized");
    ghost var base := [("code", params.code), ("state", params.state), ("grant_type", params.grantType),
                       ("client_id", params.clientId), ("redirect_uri", farmUrl + "/api/authorized")];
    assert data == base;
    if params.clientSecret.Some? {
      PutNew(data, "client_secret", params.clientSecret.value);
      data := Put(data, "client_secret", params.clientSecret.value);
      assert data == base + [("client_secret", params.clientSecret.value)];
    }
    if params.redirectUri.Some? {
      assert forall j :: 0 <= j < 4 ==> data[j].0 != "redirect_uri";
      PutExisting(data, 4, "redirect_uri", params.redirectUri.value);
      data := Put(data, "redirect_uri", params.redirectUri.value);
    }
    request := TokenRequest(farmUrl + "/oauth2/token", data);
  }

  /** Lines 251-262: reading the token endpoint's answer. */
  method ReadTokenResponse(response: HttpResponse, now: int) returns (r: TokenResult)
    ensures IsTokenOutcome(response, now, r)
  {
    if response.status == 200 {
      if response.body.None? {
        r := Failed(BodyNotJson);
      } else {
        var token := response.body.value;
        if !HasKey(token, "expires_at") {
          var expiresIn := Get(token, "expires_in");
          if expiresIn.None? {
            r := Failed(MissingExpiresIn);
          } else if ToInt(expiresIn.value).None? {
            r := Failed(BadExpiresIn);
          } else {
            token := Put(token, "expires_at", JInt(now + ToInt(expiresIn.value).value));
            r := Token(token);
          }
        } else {
          r := Token(token);
        }
      }
    } else {
      r := Failed(ExchangeFailed);
    }
  }

  /** `get_oauth_token`: the request it posts and what it makes of the
      answer. */
  method GetOAuthToken(farmUrl: string, params: AuthParams, response: HttpResponse, now: int)
    returns (request: TokenRequest, r: TokenResult)
    ensures IsTokenRequest(farmUrl, params, request)
    ensures IsTokenOutcome(response, now, r)
  {
    request := BuildTokenRequest(farmUrl, params);
    r := ReadTokenResponse(response, now);
  }

  /** A token handed back always carries an expiry, and every field of the
      response other than `expires_at` reaches it unchanged. */
  lemma TokenHasExpiry(response: HttpResponse, now: int, r: TokenResult)
    requires IsTokenOutcome(response, now, r)
    requires r.Token?
    ensures HasKey(r.body, "expires_at")
    ensures forall k :: k != "expires_at" ==> Get(r.body, k) == Get(response.body.value, k)
  {
    var body := response.body.value;
    if !HasKey(body, "expires_at") {
      var at := r.body[|body|].1;
      PutNew(body, "expires_at", at);
      GetPut(body, "expires_at", at);
    }
  }
}
