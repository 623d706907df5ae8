/**
 * The gateway's persistent state (src/server/db.ts): the `shopSession`
 * table, used as a key-value store from a shop's domain to its offline
 * access token, the `tryOnLog` table the widget appends to, and the URL of
 * a shop's Admin GraphQL endpoint.
 */
module Db {
  import opened Wrappers
  import opened Strings
  import opened JsonValues

  // ---------------------------------------------------------------------
  // Shop sessions
  // ---------------------------------------------------------------------

  /** A row of `shopSession`; `shop` is its unique key. */
  datatype ShopSession = ShopSession(shop: string, accessToken: string, scope: string, isOnline: bool)

  type SessionRows = map<string, ShopSession>

  /** Every row is filed under its own shop. */
  predicate Keyed(rows: SessionRows) {
    forall s :: s in rows ==> rows[s].shop == s
  }

  /**
   * `upsert({ where: { shop }, create: row, update: { accessToken, scope,
   * isOnline } })`: a new shop gets the whole row, a known shop keeps its
   * row with the three columns replaced.
   */
  function Upsert(rows: SessionRows, row: ShopSession): SessionRows {
    if row.shop in rows then
      rows[row.shop := rows[row.shop].(accessToken := row.accessToken, scope := row.scope, isOnline := row.isOnline)]
    else
      rows[row.shop := row]
  }

  /** `findUnique({ where: { shop } })?.accessToken ?? null`. */
  function TokenOf(rows: SessionRows, shop: string): Option<string> {
    if shop in rows then Some(rows[shop].accessToken) else None
  }

  /**
   * On a keyed table the update branch and the create branch agree: after
   * an upsert the table holds exactly the given row for its shop, every
   * other row unchanged, and it is still keyed.
   */
  lemma UpsertOverwrites(rows: SessionRows, row: ShopSession)
    requires Keyed(rows)
    ensures Upsert(rows, row) == rows[row.shop := row]
    ensures Keyed(Upsert(rows, row))
  {
    if row.shop in rows {
      assert rows[row.shop].shop == row.shop;
    }
  }

  /** Looking a shop up right after saving it gives the token just saved. */
  lemma SaveThenGet(rows: SessionRows, row: ShopSession)
    ensures TokenOf(Upsert(rows, row), row.shop) == Some(row.accessToken)
  {
  }

  /** Saving one shop changes nothing for any other shop. */
  lemma SaveKeepsOtherShops(rows: SessionRows, row: ShopSession, other: string)
    requires other != row.shop
    ensures other in Upsert(rows, row) <==> other in rows
    ensures other in rows ==> Upsert(rows, row)[other] == rows[other]
    ensures TokenOf(Upsert(rows, row), other) == TokenOf(rows, other)
  {
  }

  /**
   * Saving the same shop twice leaves one entry, holding the second write,
   * and an update does not change the set of shops.
   */
  lemma LastWriteWins(rows: SessionRows, first: ShopSession, second: ShopSession)
    requires Keyed(rows) && first.shop == second.shop
    ensures Upsert(Upsert(rows, first), second) == Upsert(rows, second)
    ensures Upsert(Upsert(rows, first), second).Keys == rows.Keys + {second.shop}
    ensures Upsert(rows, first).Keys == Upsert(Upsert(rows, first), second).Keys
  {
    UpsertOverwrites(rows, first);
    UpsertOverwrites(Upsert(rows, first), second);
    UpsertOverwrites(rows, second);
  }

  /** The table behind `saveShopSession` and `getShopToken`. */
  class ShopSessionTable {
    var rows: SessionRows

    ghost predicate Valid()
      reads this
    {
      Keyed(rows)
    }

    constructor ()
      ensures Valid() && rows == map[]
    {
      rows := map[];
    }

    /**
     * `saveShopSession`: `isOnline` is false when the caller leaves it out;
     * afterwards the shop holds exactly the given values.
     */
    method SaveShopSession(shop: string, accessToken: string, scope: string, isOnline: Option<bool>)
      requires Valid()
      modifies this
      ensures Valid()
      ensures rows == Upsert(old(rows), ShopSession(shop, accessToken, scope, isOnline.GetOr(false)))
      ensures rows == old(rows)[shop := ShopSession(shop, accessToken, scope, isOnline.GetOr(false))]
    {
      var row := ShopSession(shop, accessToken, scope, isOnline.GetOr(false));
      UpsertOverwrites(rows, row);
      rows := Upsert(rows, row);
    }

    /** `getShopToken`: the stored token of a known shop, `null` for an unknown one. */
    method GetShopToken(shop: string) returns (token: Option<string>)
      ensures token.Some? <==> shop in rows
      ensures token.Some? ==> token.value == rows[shop].accessToken
      ensures token == TokenOf(rows, shop)
    {
      if shop in rows {
        token := Some(rows[shop].accessToken);
      } else {
        token := None;
      }
    }
  }

  // ---------------------------------------------------------------------
  // Try-on logs
  // ---------------------------------------------------------------------

  /**
   * The columns the log handler writes, as they arrived in the request
   * body; `None` is a field the body left out.
   */
  datatype LogData = LogData(
    shop: Json,
    productId: Json,
    externalId: Option<Json>,
    variantId: Option<Json>,
    customerId: Option<Json>,
    action: Json,
    metadata: Option<Json>)

  datatype LogRow = LogRow(id: nat, data: LogData)

  /** The `tryOnLog` table: rows in insertion order, each with an id no earlier row has. */
  class TryOnLogTable {
    var rows: seq<LogRow>
    var nextId: nat

    ghost predicate Valid()
      reads this
    {
      && (forall k :: 0 <= k < |rows| ==> rows[k].id < nextId)
      && (forall i, j :: 0 <= i < j < |rows| ==> rows[i].id < rows[j].id)
    }

    constructor ()
      ensures Valid() && rows == []
    {
      rows := [];
      nextId := 0;
    }

    /** `tryOnLog.create`: appends one row under an id that is new to the table. */
    method Create(data: LogData) returns (id: nat)
      requires Valid()
      modifies this
      ensures Valid()
      ensures rows == old(rows) + [LogRow(id, data)]
      ensures forall k :: 0 <= k < |old(rows)| ==> old(rows)[k].id != id
    {
      id := nextId;
      rows := rows + [LogRow(id, data)];
      nextId := nextId + 1;
    }
  }

  // ---------------------------------------------------------------------
  // The Admin GraphQL endpoint
  // ---------------------------------------------------------------------

  const EndpointScheme: string := "https://"
  const EndpointPath: string := "/admin/api/2025-01/graphql.json"

  /** `adminGraphqlEndpoint(shop)`: the shop's domain inserted verbatim between scheme and path. */
  function AdminGraphqlEndpoint(shop: string): string {
    EndpointScheme + shop + EndpointPath
  }

  /** The shop whose endpoint `url` is, if it is one. */
  function ShopOfEndpoint(url: string): Option<string> {
    if |EndpointScheme| + |EndpointPath| <= |url| && StartsWith(url, EndpointScheme) && EndsWith(url, EndpointPath)
    then Some(url[|EndpointScheme|..|url| - |EndpointPath|])
    else None
  }

  /**
   * The endpoint URL determines the shop it was built for, and every URL
   * of that shape is the endpoint of the shop read out of it.
   */
  lemma EndpointRoundTrip(shop: string, url: string)
    ensures ShopOfEndpoint(AdminGraphqlEndpoint(shop)) == Some(shop)
    ensures ShopOfEndpoint(url).Some? ==> AdminGraphqlEndpoint(ShopOfEndpoint(url).value) == url
  {
    var e := AdminGraphqlEndpoint(shop);
    assert e[..|EndpointScheme|] == EndpointScheme;
    assert e[|e| - |EndpointPath|..] == EndpointPath;
    assert e[|EndpointScheme|..|e| - |EndpointPath|] == shop;
    if ShopOfEndpoint(url).Some? {
      var s := ShopOfEndpoint(url).value;
      assert url == url[..|EndpointScheme|] + s + url[|url| - |EndpointPath|..];
    }
  }

  /** Different shops get different endpoints. */
  lemma EndpointInjective(a: string, b: string)
    requires AdminGraphqlEndpoint(a) == AdminGraphqlEndpoint(b)
    ensures a == b
  {
    EndpointRoundTrip(a, "");
    EndpointRoundTrip(b, "");
  }
}
