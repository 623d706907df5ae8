/**
 * Which requests the gateway forwards to the UI process and which reach
 * its own routes (src/server/index.ts:102-150, 155, 175, 217, 284).
 *
 * Each proxy middleware tests the request path against a pattern; the
 * first that matches forwards the request and stops the chain, the others
 * call the next middleware. Four patterns are regular expressions of the
 * form `^<prefix>(?:\/.*)?$`: the prefix itself, or the prefix, a slash
 * and any characters but line terminators (the `.` of an ECMAScript
 * regular expression without the `s` flag). The fifth is the plain string
 * "/favicon.ico", read as the exact path.
 */
module Routing {
  import opened Wrappers
  import opened Strings

  datatype ProxyPattern = Subtree(prefix: string) | Exact(path: string)

  /** The proxy middlewares in registration order. */
  const ProxyTable: seq<ProxyPattern> := [
    Subtree("/admin"),
    Subtree("/widget"),
    Subtree("/_next"),
    Subtree("/__nextjs_font"),
    Exact("/favicon.ico")
  ]

  /** ECMAScript's LineTerminator: LF, CR, LINE SEPARATOR, PARAGRAPH SEPARATOR. */
  predicate IsLineTerminator(ch: char) {
    ch == '\n' || ch == '\r' || ch == '\U{2028}' || ch == '\U{2029}'
  }

  /** `path` matches `^<prefix>(?:\/.*)?$`. */
  predicate InSubtree(path: string, prefix: string) {
    || path == prefix
    || (StartsWith(path, prefix + "/")
        && forall k :: |prefix| < k < |path| ==> !IsLineTerminator(path[k]))
  }

  predicate PatternMatches(pat: ProxyPattern, path: string) {
    match pat
    case Subtree(prefix) => InSubtree(path, prefix)
    case Exact(p) => path == p
  }

  /** The position of the proxy that takes the request, if any. */
  function FirstMatch(table: seq<ProxyPattern>, path: string): (r: Option<nat>)
    ensures r.Some? ==>
              && r.value < |table|
              && PatternMatches(table[r.value], path)
              && forall j :: 0 <= j < r.value ==> !PatternMatches(table[j], path)
    ensures r.None? <==> forall j :: 0 <= j < |table| ==> !PatternMatches(table[j], path)
    decreases |table|
  {
    if table == [] then None
    else if PatternMatches(table[0], path) then Some(0)
    else
      match FirstMatch(table[1..], path)
      case None => None
      case Some(i) => Some(i + 1)
  }

  /** The request is forwarded to the UI process. */
  predicate IsProxied(path: string) {
    FirstMatch(ProxyTable, path).Some?
  }

  // ---------------------------------------------------------------------
  // The proxied paths
  // ---------------------------------------------------------------------

  /** The literal text a pattern's matches all begin with. */
  function Anchor(pat: ProxyPattern): string {
    match pat
    case Subtree(prefix) => prefix
    case Exact(p) => p
  }

  lemma MatchStartsWithAnchor(pat: ProxyPattern, path: string)
    requires PatternMatches(pat, path)
    ensures StartsWith(path, Anchor(pat))
  {
    if pat.Subtree? && path != pat.prefix {
      assert path[..|pat.prefix|] == (pat.prefix + "/")[..|pat.prefix|];
    }
  }

  /** No path begins with two texts that differ at position `k`. */
  lemma Diverge(path: string, p: string, q: string, k: nat)
    requires k < |p| && k < |q| && p[k] != q[k]
    ensures !(StartsWith(path, p) && StartsWith(path, q))
  {
    if StartsWith(path, p) {
      assert path[..|p|][k] == path[k];
      assert |q| <= |path| ==> path[..|q|][k] == path[k];
    }
  }

  /**
   * At most one proxy matches any path, so the registration order of the
   * proxies does not decide where a request goes.
   */
  lemma ProxyPatternsDisjoint(path: string)
    ensures forall i, j :: 0 <= i < j < |ProxyTable| ==>
              !(PatternMatches(ProxyTable[i], path) && PatternMatches(ProxyTable[j], path))
  {
    forall i, j | 0 <= i < j < |ProxyTable|
      ensures !(PatternMatches(ProxyTable[i], path) && PatternMatches(ProxyTable[j], path))
    {
      var p, q := Anchor(ProxyTable[i]), Anchor(ProxyTable[j]);
      var k := if i == 2 && j == 3 then 2 else 1;
      assert p[k] != q[k];
      Diverge(path, p, q, k);
      if PatternMatches(ProxyTable[i], path) && PatternMatches(ProxyTable[j], path) {
        MatchStartsWithAnchor(ProxyTable[i], path);
        MatchStartsWithAnchor(ProxyTable[j], path);
      }
    }
  }

  /**
   * A path is forwarded exactly when it is `/admin`, `/widget`, `/_next` or
   * `/__nextjs_font`, or one of these followed by a slash and no line
   * terminator, or exactly `/favicon.ico`.
   */
  lemma ProxiedIff(path: string)
    ensures IsProxied(path) <==>
              || InSubtree(path, "/admin")
              || InSubtree(path, "/widget")
              || InSubtree(path, "/_next")
              || InSubtree(path, "/__nextjs_font")
              || path == "/favicon.ico"
  {
    if IsProxied(path) {
      var i := FirstMatch(ProxyTable, path).value;
      assert PatternMatches(ProxyTable[i], path);
    } else {
      assert forall j :: 0 <= j < |ProxyTable| ==> !PatternMatches(ProxyTable[j], path);
      assert !PatternMatches(ProxyTable[0], path);
      assert !PatternMatches(ProxyTable[1], path);
      assert !PatternMatches(ProxyTable[2], path);
      assert !PatternMatches(ProxyTable[3], path);
      assert !PatternMatches(ProxyTable[4], path);
    }
  }

  /** Whatever lies under `/admin/` is forwarded, unless it holds a line terminator. */
  lemma AdminSubtreeProxied(rest: string)
    requires forall k :: 0 <= k < |rest| ==> !IsLineTerminator(rest[k])
    ensures IsProxied("/admin/" + rest)
  {
    var path := "/admin/" + rest;
    assert StartsWith(path, "/admin" + "/") by { assert path[..7] == "/admin/"; }
    assert forall k :: 6 < k < |path| ==> path[k] == rest[k - 7];
    assert PatternMatches(ProxyTable[0], path);
  }

  /** A path that continues `prefix` with a character other than a slash is outside its subtree. */
  lemma NotUnderPrefix(path: string, prefix: string)
    requires StartsWith(path, prefix) && |path| > |prefix| && path[|prefix|] != '/'
    ensures !InSubtree(path, prefix)
  {
    assert |prefix + "/"| <= |path| ==> path[..|prefix + "/"|][|prefix|] == path[|prefix|];
  }

  /**
   * A path that continues each anchor it begins with by a character other
   * than a slash is not forwarded.
   */
  lemma NoAnchorContinued(path: string)
    requires forall i :: 0 <= i < |ProxyTable| && StartsWith(path, Anchor(ProxyTable[i])) ==>
               |path| > |Anchor(ProxyTable[i])| && path[|Anchor(ProxyTable[i])|] != '/'
    ensures !IsProxied(path)
  {
    forall i | 0 <= i < |ProxyTable| ensures !PatternMatches(ProxyTable[i], path) {
      var anchor := Anchor(ProxyTable[i]);
      if StartsWith(path, anchor) {
        NotUnderPrefix(path, anchor);
      } else if PatternMatches(ProxyTable[i], path) {
        MatchStartsWithAnchor(ProxyTable[i], path);
      }
    }
  }

  /** `path` begins with none of the anchors whose character at position `k` differs from its own. */
  lemma AnchorsAt(path: string, k: nat)
    requires k < |path|
    ensures forall i :: 0 <= i < |ProxyTable| && k < |Anchor(ProxyTable[i])| && Anchor(ProxyTable[i])[k] != path[k] ==>
              !StartsWith(path, Anchor(ProxyTable[i]))
  {
    forall i | 0 <= i < |ProxyTable| && k < |Anchor(ProxyTable[i])| && Anchor(ProxyTable[i])[k] != path[k]
      ensures !StartsWith(path, Anchor(ProxyTable[i]))
    {
      Diverge(path, path, Anchor(ProxyTable[i]), k);
    }
  }

  /** A longer word that merely begins like `/admin` is not forwarded. */
  lemma AdministratorNotProxied()
    ensures !IsProxied("/administrator")
  {
    var path := "/administrator";
    AnchorsAt(path, 1);
    assert path[..6] == "/admin";
    NoAnchorContinued(path);
  }

  /** A longer word that merely begins like `/widget` is not forwarded. */
  lemma WidgetsNotProxied()
    ensures !IsProxied("/widgets")
  {
    var path := "/widgets";
    AnchorsAt(path, 1);
    assert path[..7] == "/widget";
    NoAnchorContinued(path);
  }

  /** Under the exact-path reading of the string pattern, nothing below `/favicon.ico` is forwarded. */
  lemma FaviconSubpathNotProxied(rest: string)
    ensures !IsProxied("/favicon.ico/" + rest)
  {
    var path := "/favicon.ico/" + rest;
    AnchorsAt(path, 1);
    forall i | 0 <= i < |ProxyTable| ensures !PatternMatches(ProxyTable[i], path) {
      if i < 4 && PatternMatches(ProxyTable[i], path) {
        MatchStartsWithAnchor(ProxyTable[i], path);
      }
    }
  }

  // ---------------------------------------------------------------------
  // Local routes
  // ---------------------------------------------------------------------

  datatype Route = Health | Root | Auth | AuthCallback | Products | TryOnLog | Unrouted

  /**
   * The route a request that no proxy took reaches. A `router.get` route
   * also answers HEAD requests.
   */
  function RouteFor(verb: string, path: string): (r: Route)
    ensures r == Unrouted <==>
              !(verb in {"GET", "HEAD"} && path in {"/health", "/", "/api/auth", "/api/auth/callback", "/api/products"})
              && !(verb == "POST" && path == "/api/tryon/log")
  {
    if verb == "GET" || verb == "HEAD" then
      if path == "/health" then Health
      else if path == "/" then Root
      else if path == "/api/auth" then Auth
      else if path == "/api/auth/callback" then AuthCallback
      else if path == "/api/products" then Products
      else Unrouted
    else if verb == "POST" && path == "/api/tryon/log" then TryOnLog
    else Unrouted
  }

  /** The path a route is registered under. */
  function RoutePath(r: Route): string
    requires r != Unrouted
  {
    match r
    case Health => "/health"
    case Root => "/"
    case Auth => "/api/auth"
    case AuthCallback => "/api/auth/callback"
    case Products => "/api/products"
    case TryOnLog => "/api/tryon/log"
  }

  /** No proxy shadows a local route: every route's path reaches the router. */
  lemma LocalRoutesNotProxied(r: Route)
    requires r != Unrouted
    ensures !IsProxied(RoutePath(r))
  {
    var path := RoutePath(r);
    forall i | 0 <= i < |ProxyTable| ensures !PatternMatches(ProxyTable[i], path) {
      var anchor := Anchor(ProxyTable[i]);
      if path == "/" {
        assert |anchor| > |path|;
      } else {
        Diverge(path, path, anchor, if path[1] == 'a' && i == 0 then 2 else 1);
      }
      if PatternMatches(ProxyTable[i], path) {
        MatchStartsWithAnchor(ProxyTable[i], path);
      }
    }
  }

  /** Each route is reached through the path it is registered under, and only through it. */
  lemma RoutePathRoundTrip(r: Route)
    requires r != Unrouted
    ensures RouteFor(if r == TryOnLog then "POST" else "GET", RoutePath(r)) == r
    ensures forall path :: RouteFor("GET", path) == r || RouteFor("POST", path) == r ==> path == RoutePath(r)
  {
  }
}
