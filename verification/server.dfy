/**
 * The Koa gateway (src/server/index.ts): the middleware chain a request
 * runs through and the decision logic of its routes.
 *
 * A request first meets the body parser, then the middleware that sets the
 * Content-Security-Policy header, the one that sets the ngrok bypass
 * header, the proxies to the UI process, and finally the router. The Koa
 * context is a class whose fields the middlewares and handlers update in
 * place. The Shopify SDK, the GraphQL `fetch` and the database's
 * availability are inputs: each is the outcome the outside world gives
 * this request.
 */
module Server {
  import opened Wrappers
  import opened Strings
  import opened JsonValues
  import opened Config
  import Csp
  import opened Routing
  import opened Db
  import UriComponent

  // ---------------------------------------------------------------------
  // Requests and the outside world
  // ---------------------------------------------------------------------

  /** A query parameter as Koa's `ctx.query` gives it: one string, or an array when repeated. */
  datatype QueryValue = Single(value: string) | Repeated(values: seq<string>)

  type Query = map<string, QueryValue>

  /**
   * An error thrown out of a middleware or route: its `status` (a plain
   * `TypeError` has none), whether it is `expose`d, and its message.
   */
  datatype Thrown = Thrown(status: Option<int>, expose: bool, message: string)

  /** What the body parser made of the request body; `Malformed` is the error it threw. */
  datatype RequestBody = Absent | Parsed(value: Json) | Malformed(error: Thrown)

  datatype Request = Request(verb: string, path: string, query: Query, body: RequestBody)

  /** `shopify.auth.begin`: it answers the request itself with a redirect, or throws. */
  datatype BeginOutcome = BeginRedirected | BeginThrew

  /** The arguments the gateway passes to `shopify.auth.begin`. */
  datatype BeginRequest = BeginRequest(shop: string, callbackPath: string, isOnline: bool)

  /** The session `shopify.auth.callback` returns; `None` is a field it left undefined. */
  datatype OAuthSession = OAuthSession(shop: string, accessToken: Option<string>, scope: Option<string>, isOnline: bool)

  datatype CallbackOutcome = Authorized(session: OAuthSession) | CallbackThrew

  /** The GraphQL call: the parsed JSON of the response, or a failure to fetch or to parse. */
  datatype FetchOutcome = Responded(json: Json) | FetchThrew

  /** The request the products route sends to Shopify. */
  datatype FetchRequest = FetchRequest(url: string, accessToken: string)

  /** The outcomes the outside world gives one request. */
  datatype Externals = Externals(
    begin: BeginOutcome,
    callback: CallbackOutcome,
    fetch: FetchOutcome,
    dbAvailable: bool)

  // ---------------------------------------------------------------------
  // Responses
  // ---------------------------------------------------------------------

  datatype Body = NoBody | Text(text: string) | JsonBody(value: Json) | RedirectNotice(location: string)

  datatype Reply = Reply(status: int, body: Body)

  const CspHeader: string := "Content-Security-Policy"
  const NgrokHeader: string := "ngrok-skip-browser-warning"
  const LocationHeader: string := "Location"

  const MissingShopParam: string := "Missing shop param"
  const CallbackPath: string := "/api/auth/callback"
  const OAuthError: string := "OAuth error"
  const MissingShop: string := "Missing shop"
  const NoSession: string := "No session for this shop — reinstall app"
  const InternalError: string := "Internal error"
  const MissingLogFields: string := "shop, productId y action son requeridos"
  const InternalServerError: string := "Internal Server Error"

  /**
   * The reason phrases of the `statuses` table for the codes an uncaught
   * error of this gateway can carry: the body parser's 400, 413 and 415,
   * and 500.
   */
  const StatusMessages: map<int, string> :=
    map[400 := "Bad Request", 413 := "Payload Too Large", 415 := "Unsupported Media Type", 500 := InternalServerError]

  /** The status `ctx.onerror` writes: the error's own when it is a known code, 500 otherwise. */
  function ErrorStatus(e: Thrown): (code: int)
    ensures code in StatusMessages
    ensures e.status.Some? && e.status.value in StatusMessages ==> code == e.status.value
    ensures e.status.None? ==> code == 500
  {
    if e.status.Some? && e.status.value in StatusMessages then e.status.value else 500
  }

  /** The text `ctx.onerror` writes: the error's message only when it is exposed. */
  function ErrorText(e: Thrown): string {
    if e.expose then e.message else StatusMessages[ErrorStatus(e)]
  }

  /** The status codes Koa's `redirect` keeps instead of replacing them with 302. */
  const RedirectStatuses: set<int> := {300, 301, 302, 303, 305, 307, 308}

  /** `{ error: message }`. */
  function ErrorBody(message: string): Body {
    JsonBody(Object1("error", JString(message)))
  }

  /**
   * The headers the first two middlewares set: the Content-Security-Policy
   * of the environment's mode always, and `ngrok-skip-browser-warning: true`
   * exactly when the public host is an ngrok tunnel.
   */
  predicate CarriesSecurityHeaders(headers: map<string, string>, env: Env) {
    && CspHeader in headers && headers[CspHeader] == Csp.HeaderValue(env)
    && (NgrokHeader in headers <==> HostIsNgrok(env))
    && (NgrokHeader in headers ==> headers[NgrokHeader] == "true")
  }

  /** The Koa context of one request: its response as the middlewares build it. */
  class Ctx {
    var status: int
    /** Whether a status was assigned (Koa's `_explicitStatus`). */
    var explicitStatus: bool
    var body: Body
    var headers: map<string, string>
    /** Whether Koa writes the response (`ctx.respond`). */
    var respond: bool

    /** A new context: 404, no body, no headers. */
    constructor ()
      ensures Untouched() && headers == map[]
    {
      status := 404;
      explicitStatus := false;
      body := NoBody;
      headers := map[];
      respond := true;
    }

    /** Nothing but headers has been set yet. */
    ghost predicate Untouched()
      reads this
    {
      status == 404 && !explicitStatus && body == NoBody && respond
    }

    /** `ctx.set(name, value)`. */
    method Set(name: string, value: string)
      modifies this
      ensures headers == old(headers)[name := value]
      ensures status == old(status) && explicitStatus == old(explicitStatus)
      ensures body == old(body) && respond == old(respond)
    {
      headers := headers[name := value];
    }

    /** `ctx.status = code`. */
    method SetStatus(code: int)
      modifies this
      ensures status == code && explicitStatus
      ensures body == old(body) && headers == old(headers) && respond == old(respond)
    {
      status := code;
      explicitStatus := true;
    }

    /** `ctx.body = b`: a body set before any status makes the status 200. */
    method SetBody(b: Body)
      modifies this
      ensures body == b && explicitStatus
      ensures status == if old(explicitStatus) then old(status) else 200
      ensures headers == old(headers) && respond == old(respond)
    {
      body := b;
      if !explicitStatus {
        SetStatus(200);
      }
    }

    /** `ctx.redirect(url)`: a Location header, status 302 unless already a redirect, and a notice body. */
    method Redirect(url: string)
      modifies this
      ensures headers == old(headers)[LocationHeader := url]
      ensures status == if old(status) !in RedirectStatuses then 302
                        else if old(explicitStatus) then old(status) else 200
      ensures body == RedirectNotice(url) && explicitStatus && respond == old(respond)
    {
      Set(LocationHeader, url);
      if status !in RedirectStatuses {
        SetStatus(302);
      }
      SetBody(RedirectNotice(url));
    }

    /**
     * Koa's `ctx.onerror` for an error no middleware caught: every header
     * set so far is removed and the status and message are written.
     */
    method OnError(code: int, message: string)
      modifies this
      ensures headers == map[] && status == code && explicitStatus && body == Text(message)
      ensures respond == old(respond)
    {
      headers := map[];
      status := code;
      explicitStatus := true;
      body := Text(message);
    }
  }

  // ---------------------------------------------------------------------
  // Decisions of the routes, as functions of their inputs
  // ---------------------------------------------------------------------

  /** What `(ctx.query.shop as string)?.trim()` gives `/api/auth`. */
  datatype AuthShop = Blank | Shop(name: string) | NotAString

  function AuthShopArg(query: Query): (r: AuthShop)
    ensures r.Shop? ==> "shop" in query && query["shop"].Single? && r.name == JsTrim(query["shop"].value)
    ensures r.Shop? ==> r.name != [] && !IsJsWhitespace(r.name[0]) && !IsJsWhitespace(r.name[|r.name| - 1])
    ensures r.Blank? <==> "shop" !in query
                          || (query["shop"].Single? && forall k :: 0 <= k < |query["shop"].value| ==> IsJsWhitespace(query["shop"].value[k]))
    ensures r.NotAString? <==> "shop" in query && query["shop"].Repeated?
  {
    if "shop" !in query then Blank
    else
      match query["shop"]
      case Single(s) => if JsTrim(s) == [] then Blank else Shop(JsTrim(s))
      case Repeated(_) => NotAString
  }

  /** `String(sess.scope || process.env.SCOPES || "")`. */
  function ScopeFallback(sessionScope: Option<string>, envScopes: Option<string>): (scope: string)
    ensures sessionScope.Some? && sessionScope.value != "" ==> scope == sessionScope.value
    ensures (sessionScope.None? || sessionScope.value == "") && envScopes.Some? ==> scope == envScopes.value
    ensures scope == "" <==> (sessionScope.None? || sessionScope.value == "") && (envScopes.None? || envScopes.value == "")
  {
    if sessionScope.Some? && sessionScope.value != "" then sessionScope.value
    else if envScopes.Some? && envScopes.value != "" then envScopes.value
    else ""
  }

  /** The row the callback saves for an authorised session. */
  function SessionRow(session: OAuthSession, envScopes: Option<string>): ShopSession
    requires session.accessToken.Some?
  {
    ShopSession(session.shop, session.accessToken.value, ScopeFallback(session.scope, envScopes), session.isOnline)
  }

  /**
   * The callback saves the session exactly when the SDK authorised it with
   * an access token and the database accepts the row.
   */
  predicate CallbackSaves(callback: CallbackOutcome, dbAvailable: bool) {
    callback.Authorized? && callback.session.accessToken.Some? && dbAvailable
  }

  /** Where the callback sends the merchant: the embedded dashboard, for the shop just installed. */
  function CallbackRedirect(shop: string): string {
    "/admin?shop=" + UriComponent.Encode(shop)
  }

  /** What `String(ctx.query.shop ?? "")` gives `/api/products`: a repeated parameter is joined with commas. */
  function ProductsShopArg(query: Query): (shop: string)
    ensures "shop" !in query ==> shop == ""
    ensures "shop" in query && query["shop"].Single? ==> shop == query["shop"].value
  {
    if "shop" !in query then ""
    else
      match query["shop"]
      case Single(s) => s
      case Repeated(values) => Join(values, ",")
  }

  /** `if (!token)`: a token is usable when it is stored and not empty. */
  predicate UsableToken(token: Option<string>) {
    token.Some? && token.value != ""
  }

  /**
   * The GraphQL request the products route sends: to the endpoint of the
   * shop it was asked about, carrying that shop's stored token, and only
   * when the shop is given, the database answers and the token is usable.
   */
  function ProductsFetch(rows: SessionRows, query: Query, dbAvailable: bool): Option<FetchRequest> {
    var shop := ProductsShopArg(query);
    if shop != "" && dbAvailable && UsableToken(TokenOf(rows, shop)) then
      Some(FetchRequest(AdminGraphqlEndpoint(shop), TokenOf(rows, shop).value))
    else
      None
  }

  /**
   * `edges.map((e) => e.node)`: `None` when an edge is `null` (reading its
   * `node` throws); a missing `node` becomes `null` in the response body.
   */
  function EdgeNodes(edges: seq<Json>): (nodes: Option<seq<Json>>)
    ensures nodes.Some? <==> forall k :: 0 <= k < |edges| ==> edges[k] != JNull
    ensures nodes.Some? ==>
              && |nodes.value| == |edges|
              && forall k :: 0 <= k < |edges| ==> nodes.value[k] == Field(edges[k], "node").GetOr(JNull)
    decreases |edges|
  {
    if edges == [] then Some([])
    else if edges[0] == JNull then None
    else
      match EdgeNodes(edges[1..])
      case None => None
      case Some(rest) => Some([Field(edges[0], "node").GetOr(JNull)] + rest)
  }

  /** `json.data.products.edges.map((e) => e.node)`; `None` when that expression throws. */
  function ProductNodes(json: Json): Option<seq<Json>> {
    match Get(Some(json), "data")
    case Threw => None
    case Value(data) =>
      match Get(data, "products")
      case Threw => None
      case Value(products) =>
        match Get(products, "edges")
        case Threw => None
        case Value(edges) =>
          if edges.Some? && edges.value.JArray? then EdgeNodes(edges.value.items) else None
  }

  /** The reply of the products route once the GraphQL call was made. */
  function ProductsReply(fetch: FetchOutcome): Reply {
    match fetch
    case FetchThrew => Reply(500, ErrorBody(InternalError))
    case Responded(json) =>
      match Get(Some(json), "errors")
      case Threw => Reply(500, ErrorBody(InternalError))
      case Value(errors) =>
        if Truthy(errors) then Reply(500, JsonBody(Object1("errors", errors.value)))
        else
          match ProductNodes(json)
          case None => Reply(500, ErrorBody(InternalError))
          case Some(nodes) => Reply(200, JsonBody(JArray(nodes)))
  }

  /** `ctx.request.body ?? {}`. */
  function LogBody(body: RequestBody): Json {
    if body.Parsed? && body.value != JNull then body.value else JObject(map[])
  }

  /** `!shop || !productId || !action` is false. */
  predicate HasRequiredFields(b: Json) {
    Truthy(Field(b, "shop")) && Truthy(Field(b, "productId")) && Truthy(Field(b, "action"))
  }

  /** The `data` the log route passes to `tryOnLog.create`. */
  function LogDataOf(b: Json): LogData
    requires HasRequiredFields(b)
  {
    LogData(
      Field(b, "shop").value,
      Field(b, "productId").value,
      Field(b, "externalId"),
      Field(b, "variantId"),
      Field(b, "customerId"),
      Field(b, "action").value,
      Field(b, "metadata"))
  }

  /** `{ ok: true, id: log.id }`. */
  function LogCreatedBody(id: nat): Body {
    JsonBody(JObject(map["ok" := JBool(true), "id" := JNumber(id)]))
  }

  // ---------------------------------------------------------------------
  // The replies of the routes
  // ---------------------------------------------------------------------

  /** The reply of `/api/auth/callback`. */
  function CallbackResponse(callback: CallbackOutcome, dbAvailable: bool): Reply {
    if CallbackSaves(callback, dbAvailable) then Reply(302, RedirectNotice(CallbackRedirect(callback.session.shop)))
    else Reply(500, Text(OAuthError))
  }

  /** The reply of `/api/products`, from the shop asked about to the GraphQL answer. */
  function ProductsResponse(rows: SessionRows, query: Query, dbAvailable: bool, fetch: FetchOutcome): Reply {
    var shop := ProductsShopArg(query);
    if shop == "" then Reply(400, ErrorBody(MissingShop))
    else if !dbAvailable then Reply(500, ErrorBody(InternalError))
    else if !UsableToken(TokenOf(rows, shop)) then Reply(401, ErrorBody(NoSession))
    else ProductsReply(fetch)
  }

  /** The reply of `/api/tryon/log` when the row it creates gets `id`. */
  function LogResponse(body: RequestBody, dbAvailable: bool, id: nat): Reply {
    if !HasRequiredFields(LogBody(body)) then Reply(400, ErrorBody(MissingLogFields))
    else if !dbAvailable then Reply(500, ErrorBody(InternalError))
    else Reply(200, LogCreatedBody(id))
  }

  /** What one request did besides building its response. */
  datatype Effects = Effects(
    /** An error reached Koa's error handler. */
    failed: bool,
    /** A proxy forwarded the request to the UI process. */
    forwarded: bool,
    route: Route,
    began: Option<BeginRequest>,
    fetched: Option<FetchRequest>,
    logged: Option<nat>)

  // ---------------------------------------------------------------------
  // The gateway
  // ---------------------------------------------------------------------

  class Gateway {
    const env: Env
    const sessions: ShopSessionTable
    const logs: TryOnLogTable

    ghost predicate Valid()
      reads this, sessions, logs
    {
      sessions.Valid() && logs.Valid()
    }

    constructor (env: Env, sessions: ShopSessionTable, logs: TryOnLogTable)
      requires sessions.Valid() && logs.Valid()
      ensures this.env == env && this.sessions == sessions && this.logs == logs
      ensures Valid()
    {
      this.env := env;
      this.sessions := sessions;
      this.logs := logs;
    }

    /** `GET /health`. */
    method HandleHealth(ctx: Ctx)
      requires ctx.Untouched()
      modifies ctx
      ensures ctx.status == 200 && ctx.body == Text("ok")
      ensures ctx.headers == old(ctx.headers) && ctx.respond
    {
      ctx.SetBody(Text("ok"));
    }

    /** `GET /`: a redirect to the dashboard. */
    method HandleRoot(ctx: Ctx)
      requires ctx.Untouched()
      modifies ctx
      ensures ctx.status == 302 && ctx.body == RedirectNotice("/admin")
      ensures ctx.headers == old(ctx.headers)[LocationHeader := "/admin"] && ctx.respond
    {
      ctx.Redirect("/admin");
    }

    /**
     * `GET /api/auth`: a blank shop is refused with 400; a shop given as
     * text is trimmed and handed to the SDK, which answers the request
     * itself; a repeated parameter makes `trim` throw.
     */
    method HandleAuth(ctx: Ctx, query: Query, begin: BeginOutcome) returns (began: Option<BeginRequest>, threw: bool)
      requires ctx.Untouched()
      modifies ctx
      ensures began == if AuthShopArg(query).Shop? then Some(BeginRequest(AuthShopArg(query).name, CallbackPath, false)) else None
      ensures threw <==> AuthShopArg(query).NotAString? || (began.Some? && begin == BeginThrew)
      ensures AuthShopArg(query).Blank? ==> ctx.status == 400 && ctx.body == Text(MissingShopParam) && ctx.respond
      ensures began.Some? && begin == BeginRedirected ==> ctx.status == 404 && ctx.body == NoBody && !ctx.respond
      ensures threw ==> ctx.Untouched()
      ensures ctx.headers == old(ctx.headers)
    {
      began, threw := None, false;
      var arg := AuthShopArg(query);
      if arg.NotAString? {
        threw := true;
        return;
      }
      if arg.Blank? {
        ctx.SetStatus(400);
        ctx.SetBody(Text(MissingShopParam));
        return;
      }
      began := Some(BeginRequest(arg.name, CallbackPath, false));
      if begin == BeginThrew {
        threw := true;
        return;
      }
      ctx.respond := false;
    }

    /**
     * `GET /api/auth/callback`: an authorised session is saved and the
     * merchant redirected to the dashboard for that shop; a failure of the
     * SDK or of the save gives 500 "OAuth error" and saves nothing.
     */
    method HandleAuthCallback(ctx: Ctx, callback: CallbackOutcome, dbAvailable: bool)
      requires ctx.Untouched() && Valid()
      modifies ctx, sessions
      ensures Valid() && ctx.respond
      ensures CallbackSaves(callback, dbAvailable) ==>
                && sessions.rows == old(sessions.rows)[callback.session.shop := SessionRow(callback.session, env.scopes)]
                && ctx.headers == old(ctx.headers)[LocationHeader := CallbackRedirect(callback.session.shop)]
                && ctx.status == 302
                && ctx.body == RedirectNotice(CallbackRedirect(callback.session.shop))
      ensures !CallbackSaves(callback, dbAvailable) ==>
                && sessions.rows == old(sessions.rows)
                && ctx.headers == old(ctx.headers)
                && ctx.status == 500
                && ctx.body == Text(OAuthError)
      ensures Reply(ctx.status, ctx.body) == CallbackResponse(callback, dbAvailable)
    {
      if !CallbackSaves(callback, dbAvailable) {
        ctx.SetStatus(500);
        ctx.SetBody(Text(OAuthError));
        return;
      }
      var session := callback.session;
      var scope := ScopeFallback(session.scope, env.scopes);
      sessions.SaveShopSession(session.shop, session.accessToken.value, scope, Some(session.isOnline));
      ctx.Redirect(CallbackRedirect(session.shop));
    }

    /**
     * `GET /api/products`: 400 without a shop, 401 without a usable token,
     * otherwise the GraphQL call and its reply; any exception gives 500.
     */
    method HandleProducts(ctx: Ctx, query: Query, dbAvailable: bool, fetch: FetchOutcome) returns (fetched: Option<FetchRequest>)
      requires ctx.Untouched() && Valid()
      modifies ctx
      ensures ctx.headers == old(ctx.headers) && ctx.respond
      ensures fetched == ProductsFetch(sessions.rows, query, dbAvailable)
      ensures fetched.Some? ==> ctx.status == ProductsReply(fetch).status && ctx.body == ProductsReply(fetch).body
      ensures ProductsShopArg(query) == "" ==> ctx.status == 400 && ctx.body == ErrorBody(MissingShop)
      ensures ProductsShopArg(query) != "" && !dbAvailable ==> ctx.status == 500 && ctx.body == ErrorBody(InternalError)
      ensures ProductsShopArg(query) != "" && dbAvailable && !UsableToken(TokenOf(sessions.rows, ProductsShopArg(query))) ==>
                ctx.status == 401 && ctx.body == ErrorBody(NoSession)
      ensures Reply(ctx.status, ctx.body) == ProductsResponse(sessions.rows, query, dbAvailable, fetch)
    {
      fetched := None;
      var shop := ProductsShopArg(query);
      if shop == "" {
        ctx.SetStatus(400);
        ctx.SetBody(ErrorBody(MissingShop));
        return;
      }
      if !dbAvailable {
        ctx.SetStatus(500);
        ctx.SetBody(ErrorBody(InternalError));
        return;
      }
      var token := sessions.GetShopToken(shop);
      if !UsableToken(token) {
        ctx.SetStatus(401);
        ctx.SetBody(ErrorBody(NoSession));
        return;
      }
      fetched := Some(FetchRequest(AdminGraphqlEndpoint(shop), token.value));
      if fetch.FetchThrew? {
        ctx.SetStatus(500);
        ctx.SetBody(ErrorBody(InternalError));
        return;
      }
      var json := fetch.json;
      var errors := Get(Some(json), "errors");
      if errors.Threw? {
        ctx.SetStatus(500);
        ctx.SetBody(ErrorBody(InternalError));
        return;
      }
      if Truthy(errors.v) {
        ctx.SetStatus(500);
        ctx.SetBody(JsonBody(Object1("errors", errors.v.value)));
        return;
      }
      var nodes := ProductNodes(json);
      if nodes.None? {
        ctx.SetStatus(500);
        ctx.SetBody(ErrorBody(InternalError));
        return;
      }
      ctx.SetBody(JsonBody(JArray(nodes.value)));
    }

    /**
     * `POST /api/tryon/log`: without a truthy shop, productId and action
     * it answers 400 and writes nothing; otherwise it appends exactly one
     * row and answers with its id; a database failure gives 500.
     */
    method HandleTryOnLog(ctx: Ctx, body: RequestBody, dbAvailable: bool) returns (logged: Option<nat>)
      requires ctx.Untouched() && Valid()
      modifies ctx, logs
      ensures Valid()
      ensures ctx.headers == old(ctx.headers) && ctx.respond
      ensures logged.Some? <==> HasRequiredFields(LogBody(body)) && dbAvailable
      ensures logged.None? ==> logs.rows == old(logs.rows)
      ensures !HasRequiredFields(LogBody(body)) ==> ctx.status == 400 && ctx.body == ErrorBody(MissingLogFields)
      ensures HasRequiredFields(LogBody(body)) && !dbAvailable ==> ctx.status == 500 && ctx.body == ErrorBody(InternalError)
      ensures logged.Some? ==>
                && logs.rows == old(logs.rows) + [LogRow(logged.value, LogDataOf(LogBody(body)))]
                && (forall k :: 0 <= k < |old(logs.rows)| ==> old(logs.rows)[k].id != logged.value)
                && ctx.status == 200
                && ctx.body == LogCreatedBody(logged.value)
      ensures Reply(ctx.status, ctx.body) == LogResponse(body, dbAvailable, logged.GetOr(0))
    {
      logged := None;
      var b := LogBody(body);
      if !HasRequiredFields(b) {
        ctx.SetStatus(400);
        ctx.SetBody(ErrorBody(MissingLogFields));
        return;
      }
      if !dbAvailable {
        ctx.SetStatus(500);
        ctx.SetBody(ErrorBody(InternalError));
        return;
      }
      var id := logs.Create(LogDataOf(b));
      logged := Some(id);
      ctx.SetBody(LogCreatedBody(id));
    }

    /** The CSP middleware, then the ngrok middleware, on a fresh context. */
    method SetSecurityHeaders(ctx: Ctx)
      requires ctx.Untouched() && ctx.headers == map[]
      modifies ctx
      ensures ctx.Untouched() && CarriesSecurityHeaders(ctx.headers, env)
      ensures ctx.headers.Keys == {CspHeader} + if HostIsNgrok(env) then {NgrokHeader} else {}
    {
      ctx.Set(CspHeader, Csp.HeaderValue(env));
      if HostIsNgrok(env) {
        ctx.Set(NgrokHeader, "true");
      }
    }

    /**
     * What `/api/auth` leaves behind: 400 for a blank shop, the SDK's own
     * answer (`respond` off) when `begin` redirects, and an uncaught error
     * for a repeated shop or a failing `begin`.
     */
    ghost predicate AuthReplied(ctx: Ctx, fx: Effects, query: Query, begin: BeginOutcome)
      reads ctx
    {
      && (AuthShopArg(query).Blank? ==> ctx.status == 400 && ctx.body == Text(MissingShopParam) && ctx.respond)
      && (AuthShopArg(query).Shop? && begin == BeginRedirected ==> !ctx.respond)
      && (fx.failed <==> AuthShopArg(query).NotAString? || (AuthShopArg(query).Shop? && begin == BeginThrew))
    }

    /** The route handler for `route`, run on a context that only carries headers. */
    method Dispatch(ctx: Ctx, route: Route, req: Request, ext: Externals) returns (fx: Effects)
      requires ctx.Untouched() && Valid()
      modifies ctx, sessions, logs
      ensures Valid()
      ensures fx.route == route && !fx.forwarded
      ensures fx.failed ==> route == Auth && ctx.Untouched() && ctx.headers == old(ctx.headers)
      ensures route != AuthCallback ==> sessions.rows == old(sessions.rows)
      ensures route != TryOnLog ==> logs.rows == old(logs.rows)
      ensures fx.began.Some? ==> route == Auth
      ensures fx.fetched == if route == Products then ProductsFetch(old(sessions.rows), req.query, ext.dbAvailable) else None
      ensures fx.logged.Some? ==> route == TryOnLog
      ensures route == Unrouted ==> ctx.Untouched() && ctx.headers == old(ctx.headers)
      ensures route == Health ==> ctx.status == 200 && ctx.body == Text("ok") && ctx.headers == old(ctx.headers)
      ensures route == Root ==> ctx.status == 302 && ctx.body == RedirectNotice("/admin") && ctx.headers == old(ctx.headers)[LocationHeader := "/admin"]
      ensures route in {Auth, Products, TryOnLog} ==> ctx.headers == old(ctx.headers)
      ensures route == AuthCallback ==>
                ctx.headers.Keys == old(ctx.headers).Keys + (if CallbackSaves(ext.callback, ext.dbAvailable) then {LocationHeader} else {})
                && forall h :: h in old(ctx.headers) && h != LocationHeader ==> ctx.headers[h] == old(ctx.headers)[h]
      ensures CarriesSecurityHeaders(old(ctx.headers), env) ==> CarriesSecurityHeaders(ctx.headers, env)
      ensures route == Auth ==> AuthReplied(ctx, fx, req.query, ext.begin)
      ensures route == AuthCallback ==> Reply(ctx.status, ctx.body) == CallbackResponse(ext.callback, ext.dbAvailable)
      ensures route == Products ==>
                Reply(ctx.status, ctx.body) == ProductsResponse(old(sessions.rows), req.query, ext.dbAvailable, ext.fetch)
      ensures route == TryOnLog ==> Reply(ctx.status, ctx.body) == LogResponse(req.body, ext.dbAvailable, fx.logged.GetOr(0))
      ensures route == AuthCallback ==>
                sessions.rows == if CallbackSaves(ext.callback, ext.dbAvailable)
                                 then old(sessions.rows)[ext.callback.session.shop := SessionRow(ext.callback.session, env.scopes)]
                                 else old(sessions.rows)
      ensures route == TryOnLog ==> (fx.logged.Some? <==> HasRequiredFields(LogBody(req.body)) && ext.dbAvailable)
      ensures route == TryOnLog && fx.logged.None? ==> logs.rows == old(logs.rows)
      ensures route == TryOnLog && fx.logged.Some? ==>
                && HasRequiredFields(LogBody(req.body))
                && logs.rows == old(logs.rows) + [LogRow(fx.logged.value, LogDataOf(LogBody(req.body)))]
      ensures route == Auth ==>
                fx.began == if AuthShopArg(req.query).Shop? then Some(BeginRequest(AuthShopArg(req.query).name, CallbackPath, false)) else None
    {
      fx := Effects(false, false, route, None, None, None);
      match route {
        case Health =>
          HandleHealth(ctx);
        case Root =>
          HandleRoot(ctx);
        case Auth =>
          var began, threw := HandleAuth(ctx, req.query, ext.begin);
          fx := fx.(began := began, failed := threw);
        case AuthCallback =>
          HandleAuthCallback(ctx, ext.callback, ext.dbAvailable);
        case Products =>
          var fetched := HandleProducts(ctx, req.query, ext.dbAvailable, ext.fetch);
          fx := fx.(fetched := fetched);
        case TryOnLog =>
          var logged := HandleTryOnLog(ctx, req.body, ext.dbAvailable);
          fx := fx.(logged := logged);
        case Unrouted =>
      }
    }

    /**
     * One request through the whole chain. A body the parser rejects ends
     * it before any header is set. Otherwise the security headers are set
     * first, so they reach every response, forwarded or not, except one
     * that ends in an uncaught error, whose headers Koa removes. A request a
     * proxy takes never reaches a route, and only the callback and the log
     * route write to the database.
     */
    method HandleRequest(req: Request, ext: Externals) returns (ctx: Ctx, fx: Effects)
      requires Valid()
      modifies sessions, logs
      ensures Valid() && fresh(ctx)
      ensures req.body.Malformed? ==>
                && fx.failed && !fx.forwarded && fx.route == Unrouted && ctx.headers == map[]
                && ctx.status == ErrorStatus(req.body.error) && ctx.body == Text(ErrorText(req.body.error))
      ensures !req.body.Malformed? ==> (fx.forwarded <==> IsProxied(req.path))
      ensures !req.body.Malformed? && !fx.forwarded ==> fx.route == RouteFor(req.verb, req.path)
      ensures fx.forwarded ==> fx.route == Unrouted && !fx.failed && ctx.Untouched()
      ensures !fx.failed ==> CarriesSecurityHeaders(ctx.headers, env)
      ensures fx.failed && !req.body.Malformed? ==>
                && fx.route == Auth
                && ctx.status == 500 && ctx.body == Text(InternalServerError) && ctx.headers == map[]
      ensures fx.route == Unrouted && !fx.failed && !fx.forwarded ==> ctx.status == 404 && ctx.body == NoBody
      ensures fx.route == Health ==> ctx.status == 200 && ctx.body == Text("ok")
      ensures fx.route == Root ==> ctx.status == 302 && ctx.body == RedirectNotice("/admin") && LocationHeader in ctx.headers && ctx.headers[LocationHeader] == "/admin"
      ensures fx.route != AuthCallback ==> sessions.rows == old(sessions.rows)
      ensures fx.route != TryOnLog ==> logs.rows == old(logs.rows)
      ensures fx.began.Some? ==> fx.route == Auth
      ensures fx.fetched == if fx.route == Products then ProductsFetch(old(sessions.rows), req.query, ext.dbAvailable) else None
      ensures fx.logged.Some? ==> fx.route == TryOnLog
      ensures fx.route == Auth && !fx.failed ==> AuthReplied(ctx, fx, req.query, ext.begin)
      ensures fx.route == Auth ==>
                (fx.failed <==> AuthShopArg(req.query).NotAString? || (AuthShopArg(req.query).Shop? && ext.begin == BeginThrew))
      ensures fx.route == AuthCallback ==> Reply(ctx.status, ctx.body) == CallbackResponse(ext.callback, ext.dbAvailable)
      ensures fx.route == Products ==>
                Reply(ctx.status, ctx.body) == ProductsResponse(old(sessions.rows), req.query, ext.dbAvailable, ext.fetch)
      ensures fx.route == TryOnLog ==> Reply(ctx.status, ctx.body) == LogResponse(req.body, ext.dbAvailable, fx.logged.GetOr(0))
      ensures fx.route == AuthCallback ==>
                sessions.rows == if CallbackSaves(ext.callback, ext.dbAvailable)
                                 then old(sessions.rows)[ext.callback.session.shop := SessionRow(ext.callback.session, env.scopes)]
                                 else old(sessions.rows)
      ensures fx.route == TryOnLog ==> (fx.logged.Some? <==> HasRequiredFields(LogBody(req.body)) && ext.dbAvailable)
      ensures fx.route == TryOnLog && fx.logged.None? ==> logs.rows == old(logs.rows)
      ensures fx.route == TryOnLog && fx.logged.Some? ==>
                && HasRequiredFields(LogBody(req.body))
                && logs.rows == old(logs.rows) + [LogRow(fx.logged.value, LogDataOf(LogBody(req.body)))]
      ensures fx.route == Auth ==>
                fx.began == if AuthShopArg(req.query).Shop? then Some(BeginRequest(AuthShopArg(req.query).name, CallbackPath, false)) else None
    {
      ctx := new Ctx();
      if req.body.Malformed? {
        ctx.OnError(ErrorStatus(req.body.error), ErrorText(req.body.error));
        fx := Effects(true, false, Unrouted, None, None, None);
        return;
      }
      SetSecurityHeaders(ctx);
      if IsProxied(req.path) {
        fx := Effects(false, true, Unrouted, None, None, None);
        return;
      }
      fx := Dispatch(ctx, RouteFor(req.verb, req.path), req, ext);
      if fx.failed {
        ctx.OnError(500, InternalServerError);
      }
    }
  }

  // ---------------------------------------------------------------------
  // Properties of the routes' decisions
  // ---------------------------------------------------------------------

  /**
   * The products route sends a shop's token only to that shop's own Admin
   * GraphQL endpoint: the shop read back out of the URL is one whose
   * stored token is the token sent, and that token is not empty.
   */
  lemma TokenOnlyToItsShop(rows: SessionRows, query: Query, dbAvailable: bool)
    requires ProductsFetch(rows, query, dbAvailable).Some?
    ensures var f := ProductsFetch(rows, query, dbAvailable).value;
            && ShopOfEndpoint(f.url) == Some(ProductsShopArg(query))
            && TokenOf(rows, ProductsShopArg(query)) == Some(f.accessToken)
            && f.accessToken != ""
  {
    EndpointRoundTrip(ProductsShopArg(query), "");
  }

  /** Without a stored, non-empty token for the shop asked about, nothing is sent to Shopify. */
  lemma NoTokenNoFetch(rows: SessionRows, query: Query, dbAvailable: bool)
    requires !UsableToken(TokenOf(rows, ProductsShopArg(query)))
    ensures ProductsFetch(rows, query, dbAvailable).None?
  {
  }

  /**
   * The products reply is 200 exactly when the response parsed, its
   * `errors` is falsy and `data.products.edges` is an array without `null`
   * edges; the body is then the edges' nodes in their order.
   */
  lemma ProductsReplyOk(fetch: FetchOutcome)
    ensures ProductsReply(fetch).status in {200, 500}
    ensures ProductsReply(fetch).status == 200 <==>
              && fetch.Responded?
              && fetch.json != JNull
              && !Truthy(Field(fetch.json, "errors"))
              && ProductNodes(fetch.json).Some?
    ensures ProductsReply(fetch).status == 200 ==>
              ProductsReply(fetch).body == JsonBody(JArray(ProductNodes(fetch.json).value))
    ensures ProductsReply(fetch).status == 500
            && !(fetch.Responded? && fetch.json != JNull && Truthy(Field(fetch.json, "errors"))) ==>
              ProductsReply(fetch).body == ErrorBody(InternalError)
  {
  }

  /**
   * The products route answers 200, 400, 401 or 500: 400 exactly without a
   * shop, 401 exactly for a shop without a usable token while the database
   * answers, and 200 only after the GraphQL request went out.
   */
  lemma ProductsResponseCases(rows: SessionRows, query: Query, dbAvailable: bool, fetch: FetchOutcome)
    ensures var r := ProductsResponse(rows, query, dbAvailable, fetch);
            && r.status in {200, 400, 401, 500}
            && (r.status == 400 <==> ProductsShopArg(query) == "")
            && (r.status == 401 <==> ProductsShopArg(query) != "" && dbAvailable && !UsableToken(TokenOf(rows, ProductsShopArg(query))))
            && (r.status == 200 ==> ProductsFetch(rows, query, dbAvailable).Some?)
            && (ProductsFetch(rows, query, dbAvailable).Some? ==> r == ProductsReply(fetch))
  {
    ProductsReplyOk(fetch);
  }

  /**
   * The log route answers 200 exactly when the body has its three required
   * fields and the database answers, 400 exactly when a field is missing,
   * and 500 otherwise.
   */
  lemma LogResponseCases(body: RequestBody, dbAvailable: bool, id: nat)
    ensures var r := LogResponse(body, dbAvailable, id);
            && r.status in {200, 400, 500}
            && (r.status == 200 <==> HasRequiredFields(LogBody(body)) && dbAvailable)
            && (r.status == 400 <==> !HasRequiredFields(LogBody(body)))
  {
  }

  /** A JSON syntax error reaches the client as 400 "Bad Request", whatever the parser's message. */
  lemma SyntaxErrorIsBadRequest(message: string)
    ensures ErrorStatus(Thrown(Some(400), false, message)) == 400
    ensures ErrorText(Thrown(Some(400), false, message)) == "Bad Request"
  {
  }

  /** An error without a status, such as a `TypeError`, gives 500 "Internal Server Error". */
  lemma StatuslessErrorIsInternal(message: string)
    ensures ErrorStatus(Thrown(None, false, message)) == 500
    ensures ErrorText(Thrown(None, false, message)) == InternalServerError
  {
  }

  /** The message of an error that is not exposed never reaches the client: only a reason phrase does. */
  lemma UnexposedMessageHidden(e: Thrown)
    requires !e.expose
    ensures ErrorText(e) in {"Bad Request", "Payload Too Large", "Unsupported Media Type", InternalServerError}
  {
  }

  /** Truthy GraphQL errors are passed through unchanged with status 500. */
  lemma GraphqlErrorsPassedThrough(json: Json)
    requires json != JNull && Truthy(Field(json, "errors"))
    ensures ProductsReply(Responded(json)) == Reply(500, JsonBody(Object1("errors", Field(json, "errors").value)))
  {
  }

  /**
   * A well-formed GraphQL response yields its products' nodes in the order
   * of the edges, one per edge.
   */
  lemma NodesInOrder(edges: seq<Json>, nodes: seq<Json>)
    requires |edges| == |nodes|
    requires forall k :: 0 <= k < |edges| ==> edges[k] == Object1("node", nodes[k])
    ensures ProductNodes(Object1("data", Object1("products", Object1("edges", JArray(edges))))) == Some(nodes)
  {
    var edgesObj := Object1("edges", JArray(edges));
    var products := Object1("products", edgesObj);
    var json := Object1("data", products);
    assert Get(Some(json), "data") == Value(Some(products));
    assert Get(Some(products), "products") == Value(Some(edgesObj));
    assert Get(Some(edgesObj), "edges") == Value(Some(JArray(edges)));
    var r := EdgeNodes(edges);
    assert r.Some?;
    forall k | 0 <= k < |edges| ensures r.value[k] == nodes[k] {
      assert Field(edges[k], "node") == Some(nodes[k]);
    }
    assert r.value == nodes;
  }

  /**
   * The callback's redirect lands on the dashboard, which a proxy
   * forwards to the UI process, with one query parameter `shop` whose
   * value decodes to the shop just installed; the encoded value holds no
   * `&`, `=`, `#` or `?` that could split or end the query.
   */
  lemma CallbackRedirectLandsOnDashboard(shop: string)
    ensures var url := CallbackRedirect(shop);
            var value := UriComponent.Encode(shop);
            && url == "/admin" + "?" + "shop=" + value
            && IsProxied("/admin")
            && (forall k :: 0 <= k < |value| ==> value[k] !in "&=#?")
            && UriComponent.Decode(value) == Some(shop)
  {
    var value := UriComponent.Encode(shop);
    UriComponent.DecodeEncode(shop);
    EncodingHasNoDelimiters(shop);
    assert PatternMatches(ProxyTable[0], "/admin");
    assert "/admin?shop=" == "/admin" + "?" + "shop=";
  }

  lemma EncodingHasNoDelimiters(s: string)
    ensures forall k :: 0 <= k < |UriComponent.Encode(s)| ==> UriComponent.Encode(s)[k] !in "&=#?"
  {
    var value := UriComponent.Encode(s);
    UriComponent.EncodeAlphabet(s);
    forall k | 0 <= k < |value| ensures value[k] !in "&=#?" {
      var ch := value[k];
      assert UriComponent.IsUnescaped(ch) || ch == '%' || UriComponent.IsUpperHexDigit(ch);
      assert "&=#?" == ['&', '=', '#', '?'];
    }
  }

  /**
   * `/api/auth` and `/api/products` read the same parameter differently:
   * only the first trims it, so a blank but non-empty shop is refused by
   * one and looked up, untrimmed, by the other.
   */
  lemma ShopParametersDiffer(s: string)
    requires s != [] && forall k :: 0 <= k < |s| ==> IsJsWhitespace(s[k])
    ensures AuthShopArg(map["shop" := Single(s)]) == Blank
    ensures ProductsShopArg(map["shop" := Single(s)]) == s
  {
  }
}
