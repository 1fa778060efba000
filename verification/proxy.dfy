/** The API proxy in front of the product CRUD API: answers CORS preflights,
    exchanges an OAuth authorization code for tokens, refuses the product
    listing to non-admins, and forwards everything else to the CRUD API with
    its API key and the caller's Authorization header. */
module Proxy {
  import opened Wrappers
  import opened Json
  import Python
  import Text

  /** The configured endpoints and credentials; `clientCredentials` stands
      for `base64("{client id}:{client secret}")`. */
  datatype Config = Config(crudApiUrl: string, crudApiKey: string, cognitoDomain: string,
                           redirectUri: string, clientCredentials: string)

  /** The configuration as published: every endpoint and credential empty. */
  const Published := Config("", "", "", "", "Og==")

  /** `cors_headers()` */
  const CorsHeaders: Fields := [
    ("Access-Control-Allow-Origin", Str("*")),
    ("Access-Control-Allow-Headers", Str("Content-Type,Authorization")),
    ("Access-Control-Allow-Methods", Str("POST,GET,OPTIONS,PUT,DELETE")),
    ("Content-Type", Str("application/json"))]

  /** A response body: JSON the proxy serialises, text it passes through, or
      `{"error": prefix + str(e)}` for a caught exception. */
  datatype Body = Json(v: Value) | Raw(text: string) | Failure(prefix: string)

  datatype Response = Response(statusCode: int, headers: Fields, body: Body)

  /** The request forwarded to the CRUD API. */
  datatype Forward = Forward(url: string, data: Option<string>, verb: string, apiKey: string,
                             authorization: Option<Value>)

  /** The token request sent to the identity provider. */
  datatype TokenRequest = TokenRequest(url: string, grantType: string, code: Value, redirectUri: string,
                                       authorization: string)

  datatype Outbound = ToCrud(forward: Forward) | ToCognito(token: TokenRequest)

  /** How `urlopen` ends: a response, an `HTTPError` with its code and body, or
      any other exception. */
  datatype Fetched = Ok(status: int, text: string) | HttpError(code: int, text: string) | Failed

  /** The configuration, the network, and `json.loads` (None for a decode
      error). */
  datatype Env = Env(config: Config, crud: Forward -> Fetched, cognito: TokenRequest -> Fetched,
                     loads: string -> Option<Value>)

  /** The request sent out (if any) and the answer; `Crash` for an exception
      outside the handler's `try` blocks. */
  datatype Outcome = Responded(response: Response) | Crash

  function Reply(status: int, body: Body): (r: Response)
    ensures r.headers == CorsHeaders
  {
    Response(status, CorsHeaders, body)
  }

  /** `urllib.request.Request` accepts a URL only when it starts with a
      scheme: one or more characters other than '/' and ':', then ':'. It
      raises ValueError ("unknown url type") otherwise. */
  predicate HasScheme(url: string) {
    exists i :: 0 < i < |url| && url[i] == ':' && NoSeparatorBefore(url, i)
  }

  predicate NoSeparatorBefore(url: string, i: nat)
    requires i <= |url|
  {
    forall j :: 0 <= j < i ==> url[j] != '/' && url[j] != ':'
  }

  /** A URL that starts with '/' has no scheme. */
  lemma SlashHasNoScheme(url: string)
    requires 0 < |url| && url[0] == '/'
    ensures !HasScheme(url)
  {
  }

  /** The method `urllib` sends: the one given, or, when it is empty, POST for
      a request with data and GET for one without. */
  function Method(verb: string, data: Option<string>): (m: string)
    ensures m != ""
    ensures verb != "" ==> m == verb
  {
    if verb != "" then verb else if data.Some? then "POST" else "GET"
  }

  /** Python's type name, as it appears in an AttributeError message. */
  function TypeName(v: Value): string {
    match v
    case Null => "NoneType"
    case Bool(_) => "bool"
    case Int(_) => "int"
    case Float(_) => "float"
    case Str(_) => "str"
    case Arr(_) => "list"
    case Obj(_) => "dict"
  }

  /** `f"{v}"` for the values a path can be; floats, lists and dicts are
      rendered as a placeholder. */
  function Display(v: Value): string {
    match v
    case Null => "None"
    case Bool(b) => if b then "True" else "False"
    case Int(i) => if i < 0 then "-" + Text.NatToString(-i) else Text.NatToString(i)
    case Str(s) => s
    case _ => "<" + TypeName(v) + ">"
  }

  /** `handle_auth_exchange(body)`: the token request sent (if any) and the
      response. */
  function Exchange(body: Value, env: Env): (r: (Option<Outbound>, Response))
    ensures r.1.headers == CorsHeaders
    ensures r.0.Some? ==> r.0.value.ToCognito? && HasScheme(r.0.value.token.url)
    ensures r.0.Some? ==> r.0.value.token.url == env.config.cognitoDomain + "/oauth2/token"
  {
    var failed := (None, Reply(500, Failure("Failed to exchange code: ")));
    if !body.Str? then failed
    else match env.loads(body.s)
      case None => failed
      case Some(data) =>
        if !data.Obj? then failed
        else
          var code := Find(data.fields, "code").GetOr(Null);
          if !Python.Truthy(code) then
            (None, Reply(400, Json(Obj([("error", Str("Authorization code is required"))]))))
          else
            var url := env.config.cognitoDomain + "/oauth2/token";
            var request := TokenRequest(url, "authorization_code", code,
                                        env.config.redirectUri, "Basic " + env.config.clientCredentials);
            var sent := Some(ToCognito(request));
            if !HasScheme(url) then failed
            else match env.cognito(request)
            case HttpError(c, text) => (sent, Reply(c, Json(Obj([("error", Str(text))]))))
            case Failed => (sent, failed.1)
            case Ok(_, text) =>
              match env.loads(text)
              case None => (sent, failed.1)
              case Some(tokens) =>
                if !tokens.Obj? then (sent, failed.1)
                else
                  (sent, Reply(200, Json(Obj([
                    ("id_token", Find(tokens.fields, "id_token").GetOr(Null)),
                    ("access_token", Find(tokens.fields, "access_token").GetOr(Null)),
                    ("refresh_token", Find(tokens.fields, "refresh_token").GetOr(Null))]))))
  }

  /** The caller's claims: `requestContext.authorizer.jwt.claims`, each step
      defaulting to `{}`; None when a step is present but not a dict. */
  function Claims(event: Value): Option<Value> {
    var context :- Python.Get(event, "requestContext", Obj([]));
    var authorizer :- Python.Get(context, "authorizer", Obj([]));
    var jwt :- Python.Get(authorizer, "jwt", Obj([]));
    Python.Get(jwt, "claims", Obj([]))
  }

  /** The caller's role and subject, defaulting to "user" and "unknown". */
  function Caller(claims: Value): (r: Option<(Value, Value)>)
    ensures r.Some? <==> claims.Obj?
    ensures claims.Obj? && !HasKey(claims.fields, "custom:role") ==> r.value.0 == Str("user")
    ensures claims.Obj? && !HasKey(claims.fields, "sub") ==> r.value.1 == Str("unknown")
  {
    if !claims.Obj? then None
    else Some((Find(claims.fields, "custom:role").GetOr(Str("user")), Find(claims.fields, "sub").GetOr(Str("unknown"))))
  }

  /** The request to the CRUD API, or the text of the exception building it
      raises (`body.encode` on a non-str, `headers.get` on a non-dict). */
  function BuildForward(event: Value, path: Value, verb: string, body: Value, config: Config): (r: Option<Forward>)
    requires event.Obj?
    ensures r.Some? ==> && r.value.url == config.crudApiUrl + Display(path)
                        && HasScheme(r.value.url)
                        && r.value.verb == Method(verb, r.value.data)
                        && r.value.apiKey == config.crudApiKey
    ensures !HasScheme(config.crudApiUrl + Display(path)) ==> r.None?
  {
    if Python.Truthy(body) && !body.Str? then None
    else
      var data := if Python.Truthy(body) then Some(body.s) else None;
      var url := config.crudApiUrl + Display(path);
      if !HasScheme(url) then None
      else
      var headers := Find(event.fields, "headers").GetOr(Null);
      var headers' := if Python.Truthy(headers) then headers else Obj([]);
      if !headers'.Obj? then None
      else
        var upper := Find(headers'.fields, "Authorization").GetOr(Null);
        var lower := Find(headers'.fields, "authorization").GetOr(Null);
        var auth := if Python.Truthy(upper) then upper else lower;
        Some(Forward(url, data, Method(verb, data), config.crudApiKey,
                     if Python.Truthy(auth) then Some(auth) else None))
  }

  /** The forwarded request carries the body text when there is one, and the
      caller's `Authorization` header (or, failing that, `authorization`)
      exactly when one of them is truthy. */
  lemma ForwardCarriesBodyAndAuthorization(event: Value, path: Value, verb: string, body: Value, headers: Fields,
                                           config: Config)
    requires event.Obj? && Find(event.fields, "headers") == Some(Obj(headers)) && headers != []
    requires body.Str? || !Python.Truthy(body)
    requires HasScheme(config.crudApiUrl + Display(path))
    ensures var r := BuildForward(event, path, verb, body, config);
      var upper := Find(headers, "Authorization").GetOr(Null);
      var lower := Find(headers, "authorization").GetOr(Null);
      && r.Some?
      && r.value.apiKey == config.crudApiKey
      && (r.value.data.Some? <==> Python.Truthy(body))
      && (r.value.data.Some? ==> r.value.data.value == body.s)
      && (r.value.authorization.Some? <==> Python.Truthy(upper) || Python.Truthy(lower))
      && (Python.Truthy(upper) ==> r.value.authorization == Some(upper))
      && (!Python.Truthy(upper) && Python.Truthy(lower) ==> r.value.authorization == Some(lower))
  {
  }

  /** `event.get("rawPath") or event.get("path")` */
  function PathOf(event: Value): Value
    requires event.Obj?
  {
    var raw := Find(event.fields, "rawPath").GetOr(Null);
    if Python.Truthy(raw) then raw else Find(event.fields, "path").GetOr(Null)
  }

  /** `event.get("httpMethod", "")` */
  function VerbOf(event: Value): Value
    requires event.Obj?
  {
    Find(event.fields, "httpMethod").GetOr(Str(""))
  }

  /** `event.get("body", None)` */
  function BodyOf(event: Value): Value
    requires event.Obj?
  {
    Find(event.fields, "body").GetOr(Null)
  }

  /** The request is a preflight: its method upper-cases to "OPTIONS". */
  predicate IsPreflight(event: Value)
    requires event.Obj?
  {
    VerbOf(event).Str? && Text.Upper(VerbOf(event).s) == "OPTIONS"
  }

  /** The request is the code exchange: POST (any case) on "/auth/exchange". */
  predicate IsExchange(event: Value)
    requires event.Obj?
  {
    VerbOf(event).Str? && PathOf(event) == Str("/auth/exchange") && Text.Upper(VerbOf(event).s) == "POST"
  }

  /** `lambda_handler`: the request sent out (if any) and the outcome. */
  function Handle(event: Value, env: Env): (r: (Option<Outbound>, Outcome))
    ensures r.1.Responded? ==> r.1.response.headers == CorsHeaders
    ensures r.1.Crash? ==> r.0.None?
  {
    if !event.Obj? then (None, Crash)
    else
      var path := PathOf(event);
      var verb := VerbOf(event);
      var body := BodyOf(event);
      if !verb.Str? then (None, Crash)
      else if IsPreflight(event) then
        (None, Responded(Reply(200, Json(Obj([("message", Str("CORS preflight OK"))])))))
      else if IsExchange(event) then
        var (sent, response) := Exchange(body, env);
        (sent, Responded(response))
      else
        match Claims(event)
        case None => (None, Crash)
        case Some(claims) =>
          match Caller(claims)
          case None => (None, Crash)
          case Some((role, _)) =>
            Authorized(event, path, verb.s, body, role, env)
  }

  /** The request of a caller with `role`: the product listing is refused to
      anyone but an admin; everything else is forwarded to the CRUD API. */
  function Authorized(event: Value, path: Value, verb: string, body: Value, role: Value, env: Env): (r: (Option<Outbound>, Outcome))
    requires event.Obj?
    ensures r.1.Responded? && r.1.response.headers == CorsHeaders
    ensures r.0.Some? ==> r.0.value.ToCrud?
  {
    if Text.Upper(verb) == "GET" && path == Str("/products") && role != Str("admin") then
      (None, Responded(Reply(403, Json(Obj([("error", Str("You are not authorized to view all products"))])))))
    else
      match BuildForward(event, path, verb, body, env.config)
      case None => (None, Responded(Reply(500, Failure("Error forwarding request: "))))
      case Some(forward) =>
        var sent := Some(ToCrud(forward));
        match env.crud(forward)
        case Ok(status, text) => (sent, Responded(Reply(status, Raw(text))))
        case HttpError(c, text) => (sent, Responded(Reply(c, Json(Obj([("error", Str(text))])))))
        case Failed => (sent, Responded(Reply(500, Failure("Error forwarding request: "))))
  }

  /** A preflight is answered 200 before the path or the caller's role are
      looked at, and nothing is sent. */
  lemma PreflightFirst(event: Value, env: Env)
    requires event.Obj? && IsPreflight(event)
    ensures Handle(event, env) ==
      (None, Responded(Reply(200, Json(Obj([("message", Str("CORS preflight OK"))])))))
  {
  }

  /** The code exchange is dispatched before the caller's claims are read:
      whatever the request context holds, the answer is the exchange's, and
      only the identity provider is called. */
  lemma ExchangeBeforeAuthorization(event: Value, env: Env, context: Value)
    requires event.Obj? && IsExchange(event)
    ensures var r := Handle(event, env);
      && r == Handle(Obj(Put(event.fields, "requestContext", context)), env)
      && r.1.Responded?
      && (r.0.Some? ==> r.0.value.ToCognito?)
  {
    var event' := Obj(Put(event.fields, "requestContext", context));
    assert PathOf(event') == PathOf(event);
    assert VerbOf(event') == VerbOf(event);
    assert BodyOf(event') == BodyOf(event);
    assert !IsPreflight(event) ==> !IsPreflight(event');
  }

  /** An exchange body without a (truthy) code is answered 400 and no token
      request is made. */
  lemma MissingCodeIs400(text: string, data: Fields, env: Env)
    requires env.loads(text) == Some(Obj(data))
    requires !Python.Truthy(Find(data, "code").GetOr(Null))
    ensures Exchange(Str(text), env) ==
      (None, Reply(400, Json(Obj([("error", Str("Authorization code is required"))]))))
  {
  }

  /** With a code, exactly one token request is made, for that code, and the
      three tokens of a dict answer are passed back. */
  lemma ExchangeRequestsTokens(text: string, data: Fields, env: Env)
    requires env.loads(text) == Some(Obj(data))
    requires Python.Truthy(Find(data, "code").GetOr(Null))
    requires HasScheme(env.config.cognitoDomain + "/oauth2/token")
    ensures var (sent, response) := Exchange(Str(text), env);
      && sent.Some? && sent.value.ToCognito?
      && sent.value.token.code == Find(data, "code").value
      && sent.value.token.grantType == "authorization_code"
      && (env.cognito(sent.value.token).Ok? && env.loads(env.cognito(sent.value.token).text).Some? &&
          env.loads(env.cognito(sent.value.token).text).value.Obj? ==>
            response.statusCode == 200)
  {
  }

  /** Apart from preflights and the exchange, exactly the listing of all
      products by a non-admin is refused with 403 without being sent on. */
  lemma OnlyListingIsRefused(event: Value, env: Env)
    requires event.Obj? && VerbOf(event).Str? && !IsPreflight(event) && !IsExchange(event)
    requires Claims(event).Some? && Claims(event).value.Obj?
    ensures var r := Handle(event, env);
      var role := Caller(Claims(event).value).value.0;
      && r.1.Responded?
      && (r.0.None? && r.1.response.statusCode == 403 <==>
            Text.Upper(VerbOf(event).s) == "GET" && PathOf(event) == Str("/products") && role != Str("admin"))
  {
    HandleAuthorized(event, env);
    AuthorizedRefusesOnlyListing(event, PathOf(event), VerbOf(event).s, BodyOf(event),
                                 Caller(Claims(event).value).value.0, env);
  }

  /** Only the listing, asked for by a non-admin, is refused without sending. */
  lemma AuthorizedRefusesOnlyListing(event: Value, path: Value, verb: string, body: Value, role: Value, env: Env)
    requires event.Obj?
    ensures var r := Authorized(event, path, verb, body, role, env);
      r.0.None? && r.1.response.statusCode == 403 <==>
        Text.Upper(verb) == "GET" && path == Str("/products") && role != Str("admin")
  {
    if !(Text.Upper(verb) == "GET" && path == Str("/products") && role != Str("admin")) {
      var r := Authorized(event, path, verb, body, role, env);
      if BuildForward(event, path, verb, body, env.config).None? {
        assert r.1.response.statusCode == 500;
      } else {
        assert r.0.Some?;
      }
    }
  }

  /** Past the preflight and the exchange, a request whose claims are a dict
      is answered as its caller's role allows. */
  lemma HandleAuthorized(event: Value, env: Env)
    requires event.Obj? && VerbOf(event).Str? && !IsPreflight(event) && !IsExchange(event)
    requires Claims(event).Some? && Claims(event).value.Obj?
    ensures Caller(Claims(event).value).Some?
    ensures Handle(event, env) ==
      Authorized(event, PathOf(event), VerbOf(event).s, BodyOf(event), Caller(Claims(event).value).value.0, env)
  {
  }

  /** Everything else that can be built is forwarded: to the CRUD API URL
      followed by the path, with the same method and the API key; the CRUD
      API's status and body come back unchanged. */
  lemma ForwardsToCrudApi(event: Value, env: Env)
    requires event.Obj? && VerbOf(event).Str? && !IsPreflight(event) && !IsExchange(event)
    requires Claims(event).Some? && Claims(event).value.Obj?
    requires !(Text.Upper(VerbOf(event).s) == "GET" && PathOf(event) == Str("/products") &&
               Caller(Claims(event).value).value.0 != Str("admin"))
    requires BuildForward(event, PathOf(event), VerbOf(event).s, BodyOf(event), env.config).Some?
    ensures var r := Handle(event, env);
      && r.0.Some? && r.0.value.ToCrud?
      && r.0.value.forward.url == env.config.crudApiUrl + Display(PathOf(event))
      && r.0.value.forward.verb == Method(VerbOf(event).s, r.0.value.forward.data)
      && r.0.value.forward.apiKey == env.config.crudApiKey
      && (env.crud(r.0.value.forward).Ok? ==>
            r.1 == Responded(Reply(env.crud(r.0.value.forward).status, Raw(env.crud(r.0.value.forward).text))))
  {
    HandleAuthorized(event, env);
    var role := Caller(Claims(event).value).value.0;
    var forward := BuildForward(event, PathOf(event), VerbOf(event).s, BodyOf(event), env.config).value;
    assert Authorized(event, PathOf(event), VerbOf(event).s, BodyOf(event), role, env).0 == Some(ToCrud(forward));
  }

  /** With the published configuration the token URL is "/oauth2/token",
      which has no scheme: no token request is sent and no exchange is
      answered 200. */
  lemma PublishedExchangeSendsNothing(body: Value, env: Env)
    requires env.config == Published
    ensures Exchange(body, env).0.None?
    ensures Exchange(body, env).1.statusCode != 200
  {
    SlashHasNoScheme("/oauth2/token");
  }

  /** With the published configuration a forward URL is the path itself: for
      a path starting with '/' nothing is sent and the answer is 403 or 500. */
  lemma PublishedForwardSendsNothing(event: Value, path: Value, verb: string, body: Value, role: Value, env: Env)
    requires env.config == Published
    requires event.Obj? && path.Str? && 0 < |path.s| && path.s[0] == '/'
    ensures Authorized(event, path, verb, body, role, env).0.None?
    ensures Authorized(event, path, verb, body, role, env).1.response.statusCode in {403, 500}
  {
    assert Published.crudApiUrl + Display(path) == path.s;
    SlashHasNoScheme(path.s);
  }

  /** With the published configuration nothing ever leaves the proxy for a
      path that starts with '/': the token URL and every forward URL have no
      scheme, so building the request raises and is answered 500. Only a
      preflight is answered 200. */
  lemma PublishedConfigSendsNothing(event: Value, env: Env)
    requires env.config == Published
    requires event.Obj? && PathOf(event).Str? && 0 < |PathOf(event).s| && PathOf(event).s[0] == '/'
    ensures Handle(event, env).0.None?
    ensures Handle(event, env).1.Responded? && Handle(event, env).1.response.statusCode == 200 ==>
              IsPreflight(event)
  {
    if VerbOf(event).Str? && !IsPreflight(event) {
      if IsExchange(event) {
        PublishedExchangeSendsNothing(BodyOf(event), env);
      } else if Claims(event).Some? && Claims(event).value.Obj? {
        HandleAuthorized(event, env);
        PublishedForwardSendsNothing(event, PathOf(event), VerbOf(event).s, BodyOf(event),
                                     Caller(Claims(event).value).value.0, env);
      }
    }
  }

  /** An HTTP API (payload version 2.0) event carries its method under
      `requestContext.http.method` and no `httpMethod`, so the method reads as
      "": the product listing asked for by a caller without the admin role is
      not refused but forwarded, and `urllib` sends it as a GET. */
  lemma VersionTwoListingIsForwarded(env: Env)
    requires HasScheme(env.config.crudApiUrl + "/products")
    ensures var event := Obj([("rawPath", Str("/products")),
                              ("requestContext", Obj([("http", Obj([("method", Str("GET"))]))]))]);
      var r := Handle(event, env);
      && Caller(Claims(event).value).value.0 == Str("user")
      && r.0.Some? && r.0.value.ToCrud?
      && r.0.value.forward.url == env.config.crudApiUrl + "/products"
      && r.0.value.forward.verb == "GET"
  {
    var event := Obj([("rawPath", Str("/products")),
                      ("requestContext", Obj([("http", Obj([("method", Str("GET"))]))]))]);
    assert PathOf(event) == Str("/products");
    assert VerbOf(event) == Str("");
    assert Claims(event) == Some(Obj([]));
    ForwardsToCrudApi(event, env);
  }
}
