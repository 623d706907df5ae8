/**
 * The admin dashboard's table (src/app/admin/page.tsx:15-19, 33-45, 53,
 * 71): each product the products endpoint returns becomes one row of five
 * cells (title, handle, external id, variant count, last update), under
 * five headings with five column types.
 */
module Dashboard {
  import opened Wrappers
  import opened Strings

  datatype Variant = Variant(id: string, title: string, sku: string)

  /** `variants { edges }`; the page reads `edges` with `?.`, so it may be absent. */
  datatype VariantConnection = VariantConnection(edges: Option<seq<Variant>>)

  datatype Metafield = Metafield(key: string, value: string)

  /** `metafields { edges }`; the page reads `edges` without `?.`. */
  datatype MetafieldConnection = MetafieldConnection(edges: seq<Metafield>)

  datatype Product = Product(
    id: string,
    title: string,
    handle: string,
    status: string,
    updatedAt: string,
    variants: Option<VariantConnection>,
    metafields: Option<MetafieldConnection>)

  /** The key of the metafield that carries a product's external id. */
  const ExternalIdKey: string := "external_id"

  /** The text shown when a product has no external id. */
  const NoExternalId: string := "-"

  /** `Array.prototype.find` by key: the position of the first metafield called `key`. */
  function FindKey(fields: seq<Metafield>, key: string): (r: Option<nat>)
    ensures r.Some? ==>
              && r.value < |fields|
              && fields[r.value].key == key
              && forall j :: 0 <= j < r.value ==> fields[j].key != key
    ensures r.None? <==> forall j :: 0 <= j < |fields| ==> fields[j].key != key
    decreases |fields|
  {
    if fields == [] then None
    else if fields[0].key == key then Some(0)
    else
      match FindKey(fields[1..], key)
      case None => None
      case Some(i) => Some(i + 1)
  }

  /** `p.metafields?.edges.find(e => e.node.key === "external_id")?.node.value ?? "-"`. */
  function ExternalIdCell(p: Product): string {
    if p.metafields.None? then NoExternalId
    else
      match FindKey(p.metafields.value.edges, ExternalIdKey)
      case None => NoExternalId
      case Some(k) => p.metafields.value.edges[k].value
  }

  /** `p.variants?.edges?.length ?? 0`. */
  function VariantCount(p: Product): nat {
    if p.variants.None? || p.variants.value.edges.None? then 0
    else |p.variants.value.edges.value|
  }

  /**
   * One row of the table. `formatDate` stands for
   * `new Date(s).toLocaleString()`, which depends on the browser's locale
   * and time zone.
   */
  function ProductRow(p: Product, formatDate: string -> string): seq<string> {
    [p.title, p.handle, ExternalIdCell(p), NatToDecimal(VariantCount(p)), formatDate(p.updatedAt)]
  }

  /** `data.map(...)`: one row per product, in the order the products came. */
  function ProductRows(products: seq<Product>, formatDate: string -> string): (rows: seq<seq<string>>)
    ensures |rows| == |products|
    ensures forall k :: 0 <= k < |products| ==> rows[k] == ProductRow(products[k], formatDate)
    decreases |products|
  {
    if products == [] then []
    else [ProductRow(products[0], formatDate)] + ProductRows(products[1..], formatDate)
  }

  const Headings: seq<string> := ["Título", "Handle", "ID Externo", "Variantes", "Actualizado"]

  const ColumnContentTypes: seq<string> := ["text", "text", "text", "numeric", "text"]

  // ---------------------------------------------------------------------
  // Properties of a row
  // ---------------------------------------------------------------------

  /**
   * The external-id cell is the value of the first metafield keyed
   * "external_id", and "-" exactly when metafields are absent or none has
   * that key (or the first such value is itself "-").
   */
  lemma ExternalIdIsFirstMatch(p: Product)
    ensures p.metafields.None? ==> ExternalIdCell(p) == NoExternalId
    ensures p.metafields.Some? ==>
              var edges := p.metafields.value.edges;
              && ((forall j :: 0 <= j < |edges| ==> edges[j].key != ExternalIdKey) ==> ExternalIdCell(p) == NoExternalId)
              && forall k :: 0 <= k < |edges| && edges[k].key == ExternalIdKey
                   && (forall j :: 0 <= j < k ==> edges[j].key != ExternalIdKey)
                   ==> ExternalIdCell(p) == edges[k].value
  {
    if p.metafields.Some? {
      var edges := p.metafields.value.edges;
      var r := FindKey(edges, ExternalIdKey);
      forall k | 0 <= k < |edges| && edges[k].key == ExternalIdKey && (forall j :: 0 <= j < k ==> edges[j].key != ExternalIdKey)
        ensures ExternalIdCell(p) == edges[k].value
      {
        assert r.Some? && r.value == k;
      }
    }
  }

  /** Later metafields with the same key do not change the cell: the first one wins. */
  lemma ExternalIdIgnoresLaterFields(p: Product, extra: seq<Metafield>)
    requires p.metafields.Some?
    requires exists k :: 0 <= k < |p.metafields.value.edges| && p.metafields.value.edges[k].key == ExternalIdKey
    ensures ExternalIdCell(p.(metafields := Some(MetafieldConnection(p.metafields.value.edges + extra)))) == ExternalIdCell(p)
  {
    var edges := p.metafields.value.edges;
    var longer := edges + extra;
    var i := FindKey(edges, ExternalIdKey).value;
    assert forall j :: 0 <= j < |edges| ==> longer[j] == edges[j];
    var q := p.(metafields := Some(MetafieldConnection(longer)));
    ExternalIdIsFirstMatch(q);
    assert ExternalIdCell(q) == longer[i].value;
  }

  /**
   * A row has as many cells as there are headings and column types; the
   * title and handle are copied unchanged; the variant cell is the decimal
   * numeral of the number of variant edges, "0" when variants or their
   * edges are absent, and it is the one column declared numeric.
   */
  lemma RowShape(p: Product, formatDate: string -> string)
    ensures var row := ProductRow(p, formatDate);
            && |row| == |Headings| == |ColumnContentTypes| == 5
            && row[0] == p.title && row[1] == p.handle
            && row[2] == ExternalIdCell(p)
            && (forall k :: 0 <= k < |row[3]| ==> IsDigit(row[3][k]))
            && DecimalValue(row[3]) == VariantCount(p)
            && (row[3] == "0" <==> VariantCount(p) == 0)
            && row[4] == formatDate(p.updatedAt)
    ensures forall k :: 0 <= k < |ColumnContentTypes| ==> (ColumnContentTypes[k] == "numeric" <==> k == 3)
    ensures p.variants.None? || p.variants.value.edges.None? ==> ProductRow(p, formatDate)[3] == "0"
  {
    var cell := NatToDecimal(VariantCount(p));
    DecimalRoundTrip(VariantCount(p));
    if cell == "0" {
      assert DecimalValue(cell) == 10 * DecimalValue([]) + 0;
    }
  }

  /** The dashboard shows one row per product, in the products' order. */
  lemma RowsFollowProducts(products: seq<Product>, formatDate: string -> string)
    ensures |ProductRows(products, formatDate)| == |products|
    ensures forall k :: 0 <= k < |products| ==>
              ProductRows(products, formatDate)[k][0] == products[k].title
              && ProductRows(products, formatDate)[k][1] == products[k].handle
  {
  }
}
