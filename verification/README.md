# Virtual try-on Shopify app: gateway, session store and dashboard table

This project models the core of a Shopify embedded app whose Koa gateway
(`src/server/index.ts`) sits in front of a Next.js UI. For every request the
gateway:

- parses a JSON body;
- sets a Content-Security-Policy header, which is looser in development
  (an ngrok host or `NODE_ENV=development`) than in production;
- sets the `ngrok-skip-browser-warning` header behind an ngrok tunnel;
- forwards `/admin`, `/widget`, `/_next`, `/__nextjs_font` and
  `/favicon.ico` to the UI process;
- otherwise serves its own routes:
  - `/health` and `/`;
  - the OAuth pair `/api/auth` and `/api/auth/callback`;
  - `/api/products`, which calls the shop's Admin GraphQL API with the
    shop's stored offline token;
  - `/api/tryon/log`, which appends a row to the try-on log.

The session store (`src/server/db.ts`) keeps one row per shop. The dashboard
(`src/app/admin/page.tsx`) turns the products into a five-column table.

Modules, one per concern:

- `Wrappers`: `Option`.
- `Strings`: `includes`, `join`, `trim`, strict splitting, splitting on ASCII
  whitespace, ASCII lower-casing and `String(n)`.
- `UriComponent`: `encodeURIComponent` and its inverse, as ECMAScript
  section 19.2.6 defines them.
- `Config`: the environment variables the gateway reads.
- `Csp`: both policies as structured directives.
  - The header text is those directives joined as the source joins them.
  - The header is parsed back with the algorithm of section 2.2.1 of CSP
    Level 3, to state what a browser reads out of the header.
- `Routing`: the proxy chain and the router table.
- `JsonValues`: JSON values, JavaScript truthiness and property access that
  throws on `null`/`undefined`.
- `Db`:
  - `ShopSessionTable`, a class whose `rows` map the methods update;
  - `TryOnLogTable`, a class that appends rows;
  - the endpoint URL.
- `Dashboard`: the row mapping.
- `Server`:
  - Koa's context, a class with status, body, headers and `respond` fields
    that the handlers update;
  - the decisions of each route, as functions;
  - the handlers, and the whole request, as methods of `Gateway`.

Everything the gateway cannot see is a parameter of `Externals`:

- the outcome of the Shopify SDK's `auth.begin` and `auth.callback`;
- the GraphQL response;
- whether the database answers.

## Model

| member | source | states |
|---|---|---|
| Strings.ContainsIffOccurs | src/server/index.ts:42 | `includes` holds exactly when the text occurs at some position of the host name |
| Strings.Trim | src/server/index.ts:156 | `trim` gives the piece after the leading whitespace, followed only by whitespace, with non-whitespace ends; it is empty exactly when the input is all whitespace |
| Strings.TrimPadded | src/server/index.ts:156 | trimming text with whitespace on both sides gives back the text, whenever the text begins and ends with a non-whitespace character |
| Strings.DecimalRoundTrip | src/app/admin/page.tsx:42 | `String(vCount)` is a decimal numeral whose value is the count |
| UriComponent.DecodeEncode | src/server/index.ts:205 | decoding `encodeURIComponent(shop)` gives back the shop, for every string including non-ASCII ones |
| UriComponent.EncodeInjective | src/server/index.ts:205 | different shops get different encoded query values |
| Csp.ParseSerializeRoundTrip | src/server/index.ts:48-57 | a well-formed policy joined with `" "` and `"; "` is parsed back by a browser into the same directives in the same order |
| Csp.PoliciesWellFormed | src/server/index.ts:48-72 | both policies have distinct lower-case directive names and sources without whitespace or `;` |
| Csp.ParsedHeader | src/server/index.ts:41-77 | what a browser parses out of the header is the policy of the environment's mode |
| Csp.FramingOnlyByShopifyAdmin | src/server/index.ts:55-71 | in every mode `frame-ancestors` and `frame-src` list exactly `https://admin.shopify.com` and `https://*.myshopify.com` |
| Csp.UnsafeSourcesOnlyInDevelopment | src/server/index.ts:42-68 | `script-src` holds `'unsafe-inline'` and `'unsafe-eval'`, and `font-src` the ngrok font hosts, exactly when HOST contains "ngrok" or NODE_ENV is "development" |
| Csp.ScriptAndFontSources | src/server/index.ts:52-68 | per mode, which sources `script-src` and `font-src` carry |
| Csp.PoliciesDifferOnlyInScriptAndFont | src/server/index.ts:48-72 | the two policies have the same directives in the same order and differ exactly in `script-src` and `font-src` |
| Csp.DevelopmentHeaderIff | src/server/index.ts:42-44 | the header is the development policy if and only if the environment is development-like |
| Routing.FirstMatch | src/server/index.ts:102-140 | the proxy that takes a request is the first one whose pattern matches; none takes it exactly when no pattern matches |
| Routing.ProxyPatternsDisjoint | src/server/index.ts:102-140 | no path matches two proxy patterns, so the registration order decides nothing |
| Routing.ProxiedIff | src/server/index.ts:103-135 | a path is forwarded exactly when it is one of the four prefixes, optionally followed by `/` and characters other than line terminators, or exactly `/favicon.ico` |
| Routing.AdminSubtreeProxied | src/server/index.ts:103 | every path under `/admin/` without a line terminator is forwarded |
| Routing.AdministratorNotProxied | src/server/index.ts:103 | `/administrator` is not forwarded: the pattern is anchored after the prefix |
| Routing.WidgetsNotProxied | src/server/index.ts:111 | `/widgets` is not forwarded |
| Routing.FaviconSubpathNotProxied | src/server/index.ts:135 | nothing below `/favicon.ico/` is forwarded; this follows from reading the string pattern as an exact path (see Left out) |
| Routing.RouteFor | src/server/index.ts:145-284 | a request reaches a route exactly when it is GET or HEAD on one of the five GET paths, or POST on `/api/tryon/log` |
| Routing.LocalRoutesNotProxied | src/server/index.ts:102-150 | no proxy shadows any of the six local routes |
| Routing.RoutePathRoundTrip | src/server/index.ts:145-284 | each route is reached through its own path and no other |
| Db.UpsertOverwrites | src/server/db.ts:10-14 | on a table keyed by shop, the update branch and the create branch leave the same row, and the table stays keyed |
| Db.SaveThenGet | src/server/db.ts:10-19 | reading a shop's token right after saving it gives the token saved |
| Db.SaveKeepsOtherShops | src/server/db.ts:11 | saving one shop changes neither the presence nor the row nor the token of any other shop |
| Db.LastWriteWins | src/server/db.ts:10-14 | two saves of one shop equal the second save alone, and the set of shops grows by that shop only |
| Db.ShopSessionTable.SaveShopSession | src/server/db.ts:6-15 | the shop holds exactly the given token, scope and `isOnline` (false when left out), all other rows unchanged, the table still keyed |
| Db.ShopSessionTable.GetShopToken | src/server/db.ts:17-20 | the stored token of a known shop, `null` exactly for an unknown one |
| Db.TryOnLogTable.Create | src/server/index.ts:312-316 | appends exactly one row, under an id no earlier row has, keeping ids increasing |
| Db.EndpointRoundTrip | src/server/db.ts:22-24 | the shop can be read back out of its endpoint URL, and every URL of that shape is the endpoint of the shop read out of it |
| Db.EndpointInjective | src/server/db.ts:22-24 | different shops get different endpoints |
| Dashboard.FindKey | src/app/admin/page.tsx:35 | `find` gives the first metafield with the key, and nothing exactly when none has it |
| Dashboard.ProductRows | src/app/admin/page.tsx:33-45 | one row per product, the k-th row built from the k-th product |
| Dashboard.ExternalIdIsFirstMatch | src/app/admin/page.tsx:34-36 | the external-id cell is the value of the first `external_id` metafield, and `"-"` when metafields are absent or none has that key |
| Dashboard.ExternalIdIgnoresLaterFields | src/app/admin/page.tsx:35 | metafields after the first `external_id` one do not change the cell |
| Dashboard.RowShape | src/app/admin/page.tsx:37-71 | a row has as many cells as there are headings and column types; title and handle are copied; the variant cell is the numeral of the edge count, `"0"` when variants or edges are absent, and it is the only numeric column |
| Dashboard.RowsFollowProducts | src/app/admin/page.tsx:33-45 | the table keeps the products' order and titles |
| Server.Ctx.Set | src/server/index.ts:84 | `ctx.set` adds or replaces one header and changes nothing else |
| Server.Ctx.SetStatus | src/server/index.ts:158 | assigning a status makes it explicit |
| Server.Ctx.SetBody | src/server/index.ts:146 | a body assigned before any status makes the status 200 |
| Server.Ctx.Redirect | src/server/index.ts:150 | `redirect` sets Location, gives 302 unless the status is already a redirect, and sets a redirect body |
| Server.Ctx.OnError | src/server/index.ts:163-169 | an uncaught error removes every header and writes the error's status and message |
| Server.AuthShopArg | src/server/index.ts:156-157 | `/api/auth` trims a shop given once, refuses an absent or blank one, and throws on a repeated one |
| Server.ScopeFallback | src/server/index.ts:185-187 | the session's scope when non-empty, else SCOPES when set, else `""` |
| Server.ProductsShopArg | src/server/index.ts:219 | `/api/products` takes the shop as given, untrimmed, `""` when absent |
| Server.EdgeNodes | src/server/index.ts:272 | `edges.map(e => e.node)` throws exactly on a `null` edge, and otherwise keeps one node per edge, in order |
| Server.Gateway.SetSecurityHeaders | src/server/index.ts:41-88 | a fresh context gets the mode's CSP header, plus `ngrok-skip-browser-warning: true` exactly behind an ngrok host |
| Server.Gateway.HandleHealth | src/server/index.ts:145-147 | 200 `ok` |
| Server.Gateway.HandleRoot | src/server/index.ts:150 | 302 to `/admin` |
| Server.Gateway.HandleAuth | src/server/index.ts:155-173 | 400 for a blank shop; the SDK is started with the trimmed shop, the callback path and an offline token, and then answers itself; a repeated shop or a failing SDK throws |
| Server.Gateway.HandleAuthCallback | src/server/index.ts:175-211 | an authorised session is saved under its shop and the merchant is redirected to the dashboard; any failure gives 500 "OAuth error" and saves nothing; the status and body are `CallbackResponse`'s |
| Server.Gateway.HandleProducts | src/server/index.ts:217-278 | 400 without a shop, 500 when the database fails, 401 without a usable token, else the GraphQL request to the shop's endpoint with its token and the reply `ProductsReply` describes; the status and body are `ProductsResponse`'s |
| Server.Gateway.HandleTryOnLog | src/server/index.ts:284-322 | 400 and no write without a truthy shop, productId and action; otherwise exactly one new row and `{ ok: true, id }`, or 500 when the database fails; the status and body are `LogResponse`'s |
| Server.Gateway.Dispatch | src/server/index.ts:145-327 | only the callback writes sessions and only the log route writes logs; only `/` and the callback add a header; the security headers survive every route; each route leaves the status and body its reply function gives (`CallbackResponse`, `ProductsResponse`, `LogResponse`, the `/api/auth` outcomes); a saving callback leaves the session table with that shop's row set, the log route appends a row exactly when the body has a truthy shop, productId and action and the database answers, and that row is the one it reports, and `/api/auth` starts the SDK exactly for a shop that is a non-blank string |
| Server.Gateway.HandleRequest | src/server/index.ts:36-327 | a body the parser rejects ends in Koa's error handler: no header, the error's status (400 for a syntax error, 413, 415, else 500) and its reason phrase unless the error is exposed; otherwise the security headers reach every response but one whose error went uncaught; a proxied path never reaches a route; no route writes what it does not own; each route's status and body are its reply function's, and its new session and log tables, and whether a log row is written, are those `Dispatch` gives; `/` answers 302 with the redirect body; a forwarded request carries no status of its own, since the UI process answers it |
| Server.TokenOnlyToItsShop | src/server/index.ts:219-258 | a shop's token is only sent to that shop's own endpoint, and it is the stored non-empty token |
| Server.NoTokenNoFetch | src/server/index.ts:226-231 | without a usable token nothing is sent to Shopify |
| Server.ProductsReplyOk | src/server/index.ts:265-277 | the reply is 200 or 500; 200 exactly when the response has no truthy `errors` and well-formed edges, and its body is then the nodes; a 500 that does not pass truthy `errors` through carries `{ error: "Internal error" }` |
| Server.GraphqlErrorsPassedThrough | src/server/index.ts:266-270 | truthy GraphQL `errors` are returned unchanged with 500 |
| Server.NodesInOrder | src/server/index.ts:272 | a well-formed response yields its nodes one per edge, in order |
| Server.CallbackRedirectLandsOnDashboard | src/server/index.ts:205 | the callback redirects to the forwarded `/admin` with one `shop` parameter that decodes to the shop and holds no `&`, `=`, `#` or `?` |
| Server.EncodingHasNoDelimiters | src/server/index.ts:205 | `encodeURIComponent` output holds no query delimiter |
| Server.ShopParametersDiffer | src/server/index.ts:156-219 | every non-empty all-whitespace `shop` is refused by `/api/auth` and looked up, untrimmed, by `/api/products` |
| Server.ErrorStatus | src/server/index.ts:36 | the status Koa's error handler writes for an error from the body parser: the error's own when it is a known code, 500 when it has none |
| Server.SyntaxErrorIsBadRequest | src/server/index.ts:36 | a JSON syntax error in the body, which the parser marks 400 and unexposed, is answered 400 "Bad Request" whatever its message |
| Server.StatuslessErrorIsInternal | src/server/index.ts:36 | an error without a status is answered 500 "Internal Server Error" |
| Server.UnexposedMessageHidden | src/server/index.ts:36 | the message of an unexposed error never reaches the client, only a reason phrase |
| Server.ProductsResponseCases | src/server/index.ts:217-278 | `/api/products` answers 200, 400, 401 or 500: 400 exactly without a shop, 401 exactly for a shop without a usable token while the database answers, 200 only after the GraphQL request went out, and once it went out the reply is `ProductsReply`'s |
| Server.LogResponseCases | src/server/index.ts:304-322 | `/api/tryon/log` answers 200 exactly when the body has a truthy shop, productId and action and the database answers, 400 exactly when one is missing, 500 otherwise |
| Db.AdminGraphqlEndpoint | src/server/db.ts:22-24 | the endpoint URL of a shop; its properties are stated by `Db.EndpointRoundTrip` and `Db.EndpointInjective` |
| Db.Upsert | src/server/db.ts:10-14 | Prisma's `upsert` on the session table; its properties are stated by `Db.UpsertOverwrites`, `Db.SaveKeepsOtherShops` and `Db.LastWriteWins` |
| Db.TokenOf | src/server/db.ts:17-19 | the stored token of a shop; its properties are stated by `Db.SaveThenGet` and `Db.ShopSessionTable.GetShopToken` |
| Dashboard.ExternalIdCell | src/app/admin/page.tsx:34-36 | the external-id cell; stated by `Dashboard.ExternalIdIsFirstMatch` and `Dashboard.ExternalIdIgnoresLaterFields` |
| Dashboard.VariantCount | src/app/admin/page.tsx:37 | the number of variant edges; stated by `Dashboard.RowShape` |
| Dashboard.ProductRow | src/app/admin/page.tsx:38-44 | one table row; stated by `Dashboard.RowShape` and `Dashboard.RowsFollowProducts` |
| Server.ProductsFetch | src/server/index.ts:219-258 | the GraphQL request `/api/products` sends, if any; stated by `Server.TokenOnlyToItsShop`, `Server.NoTokenNoFetch` and `Server.ProductsResponseCases` |
| Server.ProductNodes | src/server/index.ts:272 | the nodes of a well-formed response; stated by `Server.EdgeNodes` and `Server.NodesInOrder` |
| Server.ProductsReply | src/server/index.ts:265-277 | the reply once the GraphQL request went out; stated by `Server.ProductsReplyOk` and `Server.GraphqlErrorsPassedThrough` |
| Server.CallbackResponse | src/server/index.ts:188-210 | the reply of `/api/auth/callback`; stated by `Server.Gateway.HandleAuthCallback` and `Server.CallbackRedirectLandsOnDashboard` |
| Server.ProductsResponse | src/server/index.ts:217-278 | the reply of `/api/products`; stated by `Server.ProductsResponseCases` |
| Server.LogResponse | src/server/index.ts:304-322 | the reply of `/api/tryon/log`; stated by `Server.LogResponseCases` |
| Server.LogBody | src/server/index.ts:304 | the body the log route reads, `{}` when absent; stated by `Server.LogResponseCases` and `Server.Gateway.HandleTryOnLog` |
| Server.HasRequiredFields | src/server/index.ts:306 | the truthiness test of shop, productId and action; stated by `Server.LogResponseCases` |
| Server.LogDataOf | src/server/index.ts:312-313 | the `data` passed to `tryOnLog.create`; stated by `Server.Gateway.HandleTryOnLog` |
| Server.CallbackRedirect | src/server/index.ts:205 | the redirect target of the callback; stated by `Server.CallbackRedirectLandsOnDashboard` |
| Config.HostIsNgrok | src/server/index.ts:83 | the ngrok test of HOST; stated by `Server.Gateway.SetSecurityHeaders` |
| Config.IsDevelopmentLike | src/server/index.ts:42 | the development test; stated by `Csp.DevelopmentHeaderIff` and `Csp.UnsafeSourcesOnlyInDevelopment` |
| Routing.InSubtree | src/server/index.ts:103-131 | what a `(.*)` proxy pattern matches; stated by `Routing.ProxiedIff` and `Routing.AdminSubtreeProxied` |
| Routing.IsProxied | src/server/index.ts:103-135 | whether a proxy takes a path; stated by `Routing.ProxiedIff` and `Routing.FirstMatch` |
| Csp.HeaderValue | src/server/index.ts:46-73 | the CSP header text; stated by `Csp.ParsedHeader` and `Csp.DevelopmentHeaderIff` |
| UriComponent.Encode | src/server/index.ts:205 | `encodeURIComponent`; stated by `UriComponent.DecodeEncode`, `UriComponent.EncodeInjective` and `Server.EncodingHasNoDelimiters` |
| UriComponent.Decode | src/server/index.ts:205 | its inverse, reading the query value back; stated by `UriComponent.DecodeEncode` |
| Strings.JsTrim | src/server/index.ts:156 | `String.prototype.trim`; stated by `Strings.Trim` and `Strings.TrimPadded` |
| Strings.Contains | src/server/index.ts:42 | `includes`; stated by `Strings.ContainsIffOccurs` |
| Strings.NatToDecimal | src/app/admin/page.tsx:42 | `String(n)`: a non-empty run of digits without a leading zero except for 0; its value is stated by `Strings.DecimalRoundTrip` |

## Left out

- Logging (`console.log`/`console.error`), `koa-session`, `app.proxy`, `app.keys` and `app.listen`: no effect on any response the model describes.
- `router.allowedMethods()` (405/501 answers), the removal of the body on HEAD responses, and Koa's Content-Type and Content-Length headers: the model stops at status, body and the headers the source sets.
- Trailing-slash and case-insensitive matching of `@koa/router`: a route matches its exact path only.
- Koa's `statuses` table: `Server.StatusMessages` lists only the reason phrases of the codes an error can carry here (the body parser's 400, 413 and 415, and 500); any other code reads as 500. The body parser's limits and content-type sniffing are not modelled: a malformed body arrives as the error it throws.
- Strings are sequences of Unicode scalar values, not UTF-16 code units. A lone surrogate in a shop name would make `encodeURIComponent` throw at src/server/index.ts:205, after the session was saved at src/server/index.ts:190; the Shopify SDK validates the shop's domain before the callback returns, so that case is unreachable and not modelled.
- The string pattern of the `/favicon.ico` proxy is read as an exact path; other readings of a string pattern are not modelled.
- What a proxy does once it takes a request (the upstream call and its response): a forwarded request leaves the context as the security middlewares left it.
- The Shopify SDK: `auth.begin` and `auth.callback` are opaque outcomes; the SDK writing its own redirect on `ctx.res` is modelled only as `respond = false`.
- `fetch` and `resp.json()`: the GraphQL reply arrives as an already parsed JSON value or as a failure; JSON numbers are integers: the gateway tests them only for truthiness and otherwise passes them through unchanged, so no decision depends on a fractional part.
- The Prisma schema: ids of `tryOnLog` are sequential naturals. Whether the database answers is one flag per request, and it means that the Prisma call succeeds, including the schema's check of the values: a truthy non-string `productId` passes `Server.HasRequiredFields`, and its failed insert is the flag being false. A session without an access token is a save the database rejects.
- `new Date(s).toLocaleString()` depends on locale and time zone: it is a function parameter of the dashboard rows.
- Concurrency between requests (every `await`): each request runs alone.
- The React state (`setRows`, `setLoading`), the loading spinner, the `/api/products` call the dashboard makes, and the Polaris and App Bridge wrappers.
- `src/server/shopify.ts`, `next.config.ts` and the other UI files are not part of this model.
- Csp.HeaderValue: the header text is built from the structured policies with the same joins the source uses; its equality to the source's string literals is by construction, not stated as a contract.
