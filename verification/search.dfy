/**
 * The queries of backend/src/datasets/search_controller.ts over a stored
 * analysis payload: the free-text search, the lookup of one product, and the
 * products of a category or supplier.  The payload is the JSON the EDA
 * activity stores; every field the queries read may be missing (`None`),
 * since the JSON is read without a schema.
 */
module Search {
  import opened Wrappers
  import opened Strings
  import opened Inventory
  import Rows

  // ---------------------------------------------------------------- the payload

  /** One entry of `low_stock_alerts`. */
  datatype AlertRecord = AlertRecord(
    name: Option<string>,
    productId: Option<string>,
    currentQty: Option<real>,
    reorderLevel: Option<real>,
    status: Option<string>,
    unitPrice: Option<real>,
    category: Option<string>,
    supplier: Option<string>)

  /** One entry of `top_products_by_value`. */
  datatype ProductRecord = ProductRecord(
    name: Option<string>,
    quantity: Option<real>,
    unitPrice: Option<real>,
    totalValue: Option<real>,
    category: Option<string>,
    supplier: Option<string>)

  /** The four parts of the payload the queries read; `None` where a part is missing or not an array or object. */
  datatype Payload = Payload(
    lowStockAlerts: Option<seq<AlertRecord>>,
    topProductsByValue: Option<seq<ProductRecord>>,
    categoryDistribution: Option<seq<(string, real)>>,
    supplierDistribution: Option<seq<(string, real)>>)

  function AlertsOf(p: Payload): seq<AlertRecord>
  {
    if p.lowStockAlerts.Some? then p.lowStockAlerts.value else []
  }

  function ProductsOf(p: Payload): seq<ProductRecord>
  {
    if p.topProductsByValue.Some? then p.topProductsByValue.value else []
  }

  function EntriesOf(d: Option<seq<(string, real)>>): seq<(string, real)>
  {
    if d.Some? then d.value else []
  }

  function StatusText(s: AlertStatus): string
  {
    if s == OutOfStockAlert then "OUT_OF_STOCK" else "LOW_STOCK"
  }

  /** The JSON the EDA activity stores for one alert: it has no category and no supplier. */
  function AlertRecordOf(a: Alert): AlertRecord
  {
    AlertRecord(Some(a.name), Some(a.productId), Some(a.currentQty as real),
      if a.reorderLevel.Some? then Some(a.reorderLevel.value as real) else None,
      Some(StatusText(a.status)), Some(a.unitPrice), None, None)
  }

  /** The JSON the EDA activity stores for one top product: it has no category and no supplier either. */
  function ProductRecordOf(t: TopProduct): ProductRecord
  {
    ProductRecord(Some(t.name), Some(t.quantity as real), Some(t.unitPrice), Some(t.totalValue as real), None, None)
  }

  function Counts(d: seq<(string, nat)>): (r: seq<(string, real)>)
    ensures |r| == |d|
    ensures forall k :: 0 <= k < |d| ==> r[k] == (d[k].0, d[k].1 as real)
  {
    seq(|d|, k requires 0 <= k < |d| => (d[k].0, d[k].1 as real))
  }

  /** The payload of an analysis the EDA activity produced. */
  function Stored(a: InventoryAnalysis): Payload
  {
    Payload(
      Some(seq(|a.lowStockAlerts|, k requires 0 <= k < |a.lowStockAlerts| => AlertRecordOf(a.lowStockAlerts[k]))),
      Some(seq(|a.topProductsByValue|, k requires 0 <= k < |a.topProductsByValue| => ProductRecordOf(a.topProductsByValue[k]))),
      Some(Counts(a.categoryDistribution)),
      Some(Counts(a.supplierDistribution)))
  }

  // ---------------------------------------------------------------- helpers on JSON values

  /** `x || 0` on a number. */
  function OrZero(x: Option<real>): real
  {
    if x.Some? then x.value else 0.0
  }

  /** `alert.name || alert.product_id`. */
  function NameOrId(a: AlertRecord): Option<string>
  {
    if a.name.Some? && a.name.value != "" then a.name else a.productId
  }

  /** `field?.toLowerCase().includes(lower)`. */
  predicate MatchesText(field: Option<string>, lower: string)
  {
    field.Some? && Contains(Lower(field.value), lower)
  }

  /** `field?.toLowerCase() === other.toLowerCase()`. */
  predicate EqualsIgnoringCase(field: Option<string>, other: string)
  {
    field.Some? && Lower(field.value) == Lower(other)
  }

  // ---------------------------------------------------------------- performSearch

  datatype Kind = ProductKind | CategoryKind | SupplierKind

  /** One `SearchResult`; `value` is `None` where the source leaves it undefined or computes `NaN`. */
  datatype SearchResult = SearchResult(kind: Kind, name: Option<string>, count: real, value: Option<real>, status: Option<string>)

  predicate AlertMatches(a: AlertRecord, lower: string)
  {
    MatchesText(a.name, lower) || MatchesText(a.productId, lower)
  }

  function AlertResult(a: AlertRecord): SearchResult
  {
    SearchResult(ProductKind, NameOrId(a), OrZero(a.currentQty),
      if a.currentQty.Some? then Some(Times(a.currentQty.value, OrZero(a.unitPrice))) else None, a.status)
  }

  function ProductResult(p: ProductRecord): SearchResult
  {
    SearchResult(ProductKind, p.name, OrZero(p.quantity), p.totalValue, None)
  }

  /** The results of the alerts that match, in order. */
  function AlertHits(alerts: seq<AlertRecord>, lower: string): seq<SearchResult>
  {
    if alerts == [] then []
    else
      var a := alerts[|alerts| - 1];
      AlertHits(alerts[..|alerts| - 1], lower) + if AlertMatches(a, lower) then [AlertResult(a)] else []
  }

  /** The positions of the alerts that match, in increasing order. */
  function AlertHitRows(alerts: seq<AlertRecord>, lower: string): seq<nat>
  {
    Rows.Positions(alerts, a => AlertMatches(a, lower))
  }

  /** Whether a product result named `name` is already in `results`. */
  predicate HasProductNamed(results: seq<SearchResult>, name: Option<string>)
  {
    exists k :: 0 <= k < |results| && results[k].kind == ProductKind && results[k].name == name
  }

  /** `results` after the top products are scanned: a matching product is added unless a product of its name is already there. */
  function TopHits(results: seq<SearchResult>, products: seq<ProductRecord>, lower: string): seq<SearchResult>
  {
    if products == [] then results
    else
      var before := TopHits(results, products[..|products| - 1], lower);
      var p := products[|products| - 1];
      if MatchesText(p.name, lower) && !HasProductNamed(before, p.name) then before + [ProductResult(p)] else before
  }

  /**
   * The positions of the products the pass appends, in increasing order: those
   * that match and whose name no result had when the pass reached them.
   */
  function TopHitRows(results: seq<SearchResult>, products: seq<ProductRecord>, lower: string): (rows: seq<nat>)
    ensures forall k :: 0 <= k < |rows| ==> rows[k] < |products|
    ensures forall k, l :: 0 <= k < l < |rows| ==> rows[k] < rows[l]
  {
    if products == [] then []
    else
      var n := |products| - 1;
      var rows := TopHitRows(results, products[..n], lower);
      var p := products[n];
      if MatchesText(p.name, lower) && !HasProductNamed(TopHits(results, products[..n], lower), p.name) then rows + [n] else rows
  }

  /** The positions of the distribution keys that match, in increasing order. */
  function DistributionHitRows(entries: seq<(string, real)>, lower: string): seq<nat>
  {
    Rows.Positions(entries, (e: (string, real)) => Contains(Lower(e.0), lower))
  }

  /** The results of the distribution keys that match, in key order, with their counts. */
  function DistributionHits(kind: Kind, entries: seq<(string, real)>, lower: string): seq<SearchResult>
  {
    if entries == [] then []
    else
      var e := entries[|entries| - 1];
      DistributionHits(kind, entries[..|entries| - 1], lower)
        + if Contains(Lower(e.0), lower) then [SearchResult(kind, Some(e.0), e.1, None, None)] else []
  }

  /** `!searchType || searchType === kind`. */
  predicate Wants(searchType: Option<string>, kind: string)
  {
    searchType.None? || searchType.value == "" || searchType.value == kind
  }

  /** The product results: the matching alerts, then the matching top products not already found. */
  function ProductPart(p: Payload, lower: string, searchType: Option<string>): seq<SearchResult>
  {
    if Wants(searchType, "product") then TopHits(AlertHits(AlertsOf(p), lower), ProductsOf(p), lower) else []
  }

  /** The category or supplier results. */
  function DistributionPart(kind: Kind, d: Option<seq<(string, real)>>, lower: string, searchType: Option<string>, typeName: string): seq<SearchResult>
  {
    if Wants(searchType, typeName) then DistributionHits(kind, EntriesOf(d), lower) else []
  }

  /** What `performSearch(edaResults, searchTerm, searchType)` returns. */
  function SearchOf(p: Payload, searchTerm: string, searchType: Option<string>): seq<SearchResult>
  {
    var lower := Lower(searchTerm);
    ProductPart(p, lower, searchType)
    + DistributionPart(CategoryKind, p.categoryDistribution, lower, searchType, "category")
    + DistributionPart(SupplierKind, p.supplierDistribution, lower, searchType, "supplier")
  }

  lemma AlertHitsSnoc(alerts: seq<AlertRecord>, i: nat, lower: string)
    requires i < |alerts|
    ensures AlertHits(alerts[..i + 1], lower)
      == AlertHits(alerts[..i], lower) + if AlertMatches(alerts[i], lower) then [AlertResult(alerts[i])] else []
  {
    assert alerts[..i + 1][..i] == alerts[..i];
  }

  lemma TopHitsSnoc(results: seq<SearchResult>, products: seq<ProductRecord>, i: nat, lower: string)
    requires i < |products|
    ensures var before := TopHits(results, products[..i], lower);
      TopHits(results, products[..i + 1], lower)
        == if MatchesText(products[i].name, lower) && !HasProductNamed(before, products[i].name)
           then before + [ProductResult(products[i])] else before
  {
    assert products[..i + 1][..i] == products[..i];
  }

  lemma DistributionHitsSnoc(kind: Kind, entries: seq<(string, real)>, i: nat, lower: string)
    requires i < |entries|
    ensures DistributionHits(kind, entries[..i + 1], lower)
      == DistributionHits(kind, entries[..i], lower)
        + if Contains(Lower(entries[i].0), lower) then [SearchResult(kind, Some(entries[i].0), entries[i].1, None, None)] else []
  {
    assert entries[..i + 1][..i] == entries[..i];
  }

  /** The `forEach` over the low-stock alerts, on an empty result list. */
  method PushAlertHits(alerts: seq<AlertRecord>, lower: string) returns (results: seq<SearchResult>)
    ensures results == AlertHits(alerts, lower)
  {
    results := [];
    for i := 0 to |alerts|
      invariant results == AlertHits(alerts[..i], lower)
    {
      AlertHitsSnoc(alerts, i, lower);
      var alert := alerts[i];
      if MatchesText(alert.name, lower) || MatchesText(alert.productId, lower) {
        results := results + [AlertResult(alert)];
      }
    }
    assert alerts[..|alerts|] == alerts;
  }

  /** The `forEach` over the top products, skipping a name already among the product results. */
  method PushTopHits(fromAlerts: seq<SearchResult>, products: seq<ProductRecord>, lower: string)
    returns (results: seq<SearchResult>)
    ensures results == TopHits(fromAlerts, products, lower)
  {
    results := fromAlerts;
    for i := 0 to |products|
      invariant results == TopHits(fromAlerts, products[..i], lower)
    {
      TopHitsSnoc(fromAlerts, products, i, lower);
      var product := products[i];
      if MatchesText(product.name, lower) {
        var present := exists k :: 0 <= k < |results| && results[k].kind == ProductKind && results[k].name == product.name;
        if !present {
          results := results + [ProductResult(product)];
        }
      }
    }
    assert products[..|products|] == products;
  }

  /** The `forEach` over a distribution's entries, pushing onto the results so far. */
  method PushDistributionHits(before: seq<SearchResult>, kind: Kind, entries: seq<(string, real)>, lower: string)
    returns (results: seq<SearchResult>)
    ensures results == before + DistributionHits(kind, entries, lower)
  {
    results := before;
    for i := 0 to |entries|
      invariant results == before + DistributionHits(kind, entries[..i], lower)
    {
      DistributionHitsSnoc(kind, entries, i, lower);
      var (name, count) := entries[i];
      if Contains(Lower(name), lower) {
        results := results + [SearchResult(kind, Some(name), count, None, None)];
      }
    }
    assert entries[..|entries|] == entries;
  }

  /** `performSearch`: three `forEach` passes pushing into one result list. */
  method PerformSearch(p: Payload, searchTerm: string, searchType: Option<string>) returns (results: seq<SearchResult>)
    ensures results == SearchOf(p, searchTerm, searchType)
  {
    results := [];
    var lower := Lower(searchTerm);
    if Wants(searchType, "product") {
      results := PushAlertHits(AlertsOf(p), lower);
      results := PushTopHits(results, ProductsOf(p), lower);
    }
    if Wants(searchType, "category") {
      results := PushDistributionHits(results, CategoryKind, EntriesOf(p.categoryDistribution), lower);
    }
    if Wants(searchType, "supplier") {
      results := PushDistributionHits(results, SupplierKind, EntriesOf(p.supplierDistribution), lower);
    }
  }

  /**
   * An alert yields a result exactly when its name or product id contains the
   * term, and the results are those of the matching alerts in the alerts' order.
   */
  lemma AlertHitsMeaning(alerts: seq<AlertRecord>, lower: string)
    ensures var hits, rows := AlertHits(alerts, lower), AlertHitRows(alerts, lower);
      && |hits| == |rows| <= |alerts|
      && (forall k :: 0 <= k < |rows| ==> rows[k] < |alerts| && AlertMatches(alerts[rows[k]], lower))
      && (forall k, l :: 0 <= k < l < |rows| ==> rows[k] < rows[l])
      && (forall i :: 0 <= i < |alerts| && AlertMatches(alerts[i], lower) ==> i in rows)
      && (forall k :: 0 <= k < |rows| ==> hits[k] == AlertResult(alerts[rows[k]]))
      && (forall r :: r in hits <==> exists a :: a in alerts && AlertMatches(a, lower) && r == AlertResult(a))
  {
    AlertHitsMembers(alerts, lower);
    AlertHitsOrdered(alerts, lower);
    forall i | 0 <= i < |alerts| && AlertMatches(alerts[i], lower) ensures i in AlertHitRows(alerts, lower) {
      Rows.PositionsComplete(alerts, a => AlertMatches(a, lower), i);
    }
  }

  lemma {:induction false} AlertHitsMembers(alerts: seq<AlertRecord>, lower: string)
    ensures var hits := AlertHits(alerts, lower);
      && |hits| <= |alerts|
      && (forall r :: r in hits <==> exists a :: a in alerts && AlertMatches(a, lower) && r == AlertResult(a))
  {
    if alerts != [] {
      var init := alerts[..|alerts| - 1];
      AlertHitsMembers(init, lower);
      assert alerts == init + [alerts[|alerts| - 1]];
    }
  }

  lemma {:induction false} AlertHitsOrdered(alerts: seq<AlertRecord>, lower: string)
    ensures var hits, rows := AlertHits(alerts, lower), AlertHitRows(alerts, lower);
      |hits| == |rows| && forall k :: 0 <= k < |rows| ==> hits[k] == AlertResult(alerts[rows[k]])
  {
    if alerts != [] {
      AlertHitsOrdered(alerts[..|alerts| - 1], lower);
      AlertHitsInOrder(alerts, lower);
    }
  }

  lemma AlertHitsInOrder(alerts: seq<AlertRecord>, lower: string)
    requires alerts != []
    requires var init := alerts[..|alerts| - 1];
      var hits, rows := AlertHits(init, lower), AlertHitRows(init, lower);
      |hits| == |rows| && forall k :: 0 <= k < |rows| ==> hits[k] == AlertResult(init[rows[k]])
    ensures var hits, rows := AlertHits(alerts, lower), AlertHitRows(alerts, lower);
      |hits| == |rows| && forall k :: 0 <= k < |rows| ==> hits[k] == AlertResult(alerts[rows[k]])
  {
    var n := |alerts| - 1;
    var init := alerts[..n];
    var hits0, rows0 := AlertHits(init, lower), AlertHitRows(init, lower);
    var hits, rows := AlertHits(alerts, lower), AlertHitRows(alerts, lower);
    assert hits == hits0 + if AlertMatches(alerts[n], lower) then [AlertResult(alerts[n])] else [];
    assert rows == rows0 + if AlertMatches(alerts[n], lower) then [n] else [];
    forall k | 0 <= k < |rows| ensures hits[k] == AlertResult(alerts[rows[k]]) {
      if k < |rows0| {
        assert hits[k] == hits0[k] && rows[k] == rows0[k];
        assert init[rows0[k]] == alerts[rows0[k]];
      }
    }
  }

  /**
   * The top-product pass only appends: each new result is a matching product
   * whose name no product result had before it, and afterwards every matching
   * product's name is among the product results. The appended results follow
   * the products' order: they are those at the increasing positions `rows`,
   * and a position is left out exactly when its product does not match or its
   * name was already among the results when the pass reached it.
   */
  lemma TopHitsMeaning(results: seq<SearchResult>, products: seq<ProductRecord>, lower: string)
    ensures var after := TopHits(results, products, lower);
      && results <= after
      && (forall k :: |results| <= k < |after| ==>
            && !HasProductNamed(after[..k], after[k].name)
            && exists p :: p in products && MatchesText(p.name, lower) && after[k] == ProductResult(p))
      && (forall p :: p in products && MatchesText(p.name, lower) ==> HasProductNamed(after, p.name))
    ensures var after, rows := TopHits(results, products, lower), TopHitRows(results, products, lower);
      && |after| == |results| + |rows|
      && (forall k :: 0 <= k < |rows| ==> rows[k] < |products| && after[|results| + k] == ProductResult(products[rows[k]]))
      && (forall k, l :: 0 <= k < l < |rows| ==> rows[k] < rows[l])
      && (forall i :: 0 <= i < |products| ==>
            (i in rows <==> MatchesText(products[i].name, lower) && !HasProductNamed(TopHits(results, products[..i], lower), products[i].name)))
  {
    TopHitsOrdered(results, products, lower);
    forall i | 0 <= i < |products|
      ensures i in TopHitRows(results, products, lower) <==>
        MatchesText(products[i].name, lower) && !HasProductNamed(TopHits(results, products[..i], lower), products[i].name)
    {
      TopHitsChosen(results, products, lower, i);
    }
    TopHitsFactsHold(results, products, lower);
    var after := TopHits(results, products, lower);
    forall k | |results| <= k < |after|
      ensures !HasProductNamed(after[..k], after[k].name)
      ensures exists p :: p in products && MatchesText(p.name, lower) && after[k] == ProductResult(p)
    {
      assert NewProductAt(after, k, products, lower);
    }
  }

  /** The k-th appended result is that of the product at the k-th chosen position. */
  lemma {:induction false} TopHitsOrdered(results: seq<SearchResult>, products: seq<ProductRecord>, lower: string)
    ensures var after, rows := TopHits(results, products, lower), TopHitRows(results, products, lower);
      && |after| == |results| + |rows|
      && forall k :: 0 <= k < |rows| ==> after[|results| + k] == ProductResult(products[rows[k]])
  {
    if products != [] {
      var n := |products| - 1;
      var init := products[..n];
      TopHitsOrdered(results, init, lower);
      var before, rows0 := TopHits(results, init, lower), TopHitRows(results, init, lower);
      var after, rows := TopHits(results, products, lower), TopHitRows(results, products, lower);
      forall k | 0 <= k < |rows0| ensures after[|results| + k] == ProductResult(products[rows[k]]) {
        assert rows[k] == rows0[k] && init[rows0[k]] == products[rows0[k]];
        assert after[|results| + k] == before[|results| + k];
      }
    }
  }

  /** A position is chosen exactly when its product matches and no result had its name when the pass reached it. */
  lemma {:induction false} TopHitsChosen(results: seq<SearchResult>, products: seq<ProductRecord>, lower: string, i: nat)
    requires i < |products|
    ensures i in TopHitRows(results, products, lower) <==>
      MatchesText(products[i].name, lower) && !HasProductNamed(TopHits(results, products[..i], lower), products[i].name)
  {
    var n := |products| - 1;
    var init := products[..n];
    var rows0 := TopHitRows(results, init, lower);
    if i < n {
      TopHitsChosen(results, init, lower, i);
      assert init[..i] == products[..i] && init[i] == products[i];
      assert n !in rows0;
    } else {
      assert init == products[..i];
      assert i !in rows0;
    }
  }

  lemma {:induction false} TopHitsFactsHold(results: seq<SearchResult>, products: seq<ProductRecord>, lower: string)
    ensures TopHitsFacts(results, products, TopHits(results, products, lower), lower)
  {
    if products != [] {
      var init := products[..|products| - 1];
      var p := products[|products| - 1];
      TopHitsFactsHold(results, init, lower);
      assert products == init + [p];
      if MatchesText(p.name, lower) && !HasProductNamed(TopHits(results, init, lower), p.name) {
        TopHitsAppend(results, init, p, lower);
      } else {
        TopHitsSkip(results, init, p, lower);
      }
    }
  }

  /** What `TopHitsMeaning` states about the results `after` of a pass over `products`. */
  ghost predicate TopHitsFacts(results: seq<SearchResult>, products: seq<ProductRecord>, after: seq<SearchResult>, lower: string)
  {
    && results <= after
    && (forall k :: |results| <= k < |after| ==> NewProductAt(after, k, products, lower))
    && (forall p :: p in products && MatchesText(p.name, lower) ==> HasProductNamed(after, p.name))
  }

  /** The result at `k` is that of a matching product, under a name no earlier result had. */
  ghost predicate NewProductAt(after: seq<SearchResult>, k: nat, products: seq<ProductRecord>, lower: string)
    requires k < |after|
  {
    && !HasProductNamed(after[..k], after[k].name)
    && exists p :: p in products && MatchesText(p.name, lower) && after[k] == ProductResult(p)
  }

  /** A matching product with a new name is appended, and the facts carry over. */
  lemma TopHitsAppend(results: seq<SearchResult>, init: seq<ProductRecord>, p: ProductRecord, lower: string)
    requires TopHitsFacts(results, init, TopHits(results, init, lower), lower)
    requires MatchesText(p.name, lower) && !HasProductNamed(TopHits(results, init, lower), p.name)
    ensures TopHitsFacts(results, init + [p], TopHits(results, init + [p], lower), lower)
  {
    var products := init + [p];
    assert products[..|products| - 1] == init;
    var before := TopHits(results, init, lower);
    assert TopHits(results, products, lower) == before + [ProductResult(p)];
    AppendedCovers(before, init, p, lower);
    AppendedNew(results, before, init, p, lower);
  }

  lemma AppendedCovers(before: seq<SearchResult>, init: seq<ProductRecord>, p: ProductRecord, lower: string)
    requires forall q :: q in init && MatchesText(q.name, lower) ==> HasProductNamed(before, q.name)
    ensures var after := before + [ProductResult(p)];
      forall q :: q in init + [p] && MatchesText(q.name, lower) ==> HasProductNamed(after, q.name)
  {
    var after := before + [ProductResult(p)];
    forall q | q in init + [p] && MatchesText(q.name, lower) ensures HasProductNamed(after, q.name) {
      if q in init {
        var k :| 0 <= k < |before| && before[k].kind == ProductKind && before[k].name == q.name;
        assert after[k] == before[k];
      } else {
        assert after[|before|] == ProductResult(p);
      }
    }
  }

  lemma AppendedNew(results: seq<SearchResult>, before: seq<SearchResult>, init: seq<ProductRecord>, p: ProductRecord, lower: string)
    requires results <= before
    requires forall k :: |results| <= k < |before| ==> NewProductAt(before, k, init, lower)
    requires MatchesText(p.name, lower) && !HasProductNamed(before, p.name)
    ensures var after := before + [ProductResult(p)];
      forall k :: |results| <= k < |after| ==> NewProductAt(after, k, init + [p], lower)
  {
    var after := before + [ProductResult(p)];
    assert after[..|before|] == before;
    forall k | |results| <= k < |after| ensures NewProductAt(after, k, init + [p], lower) {
      if k < |before| {
        assert NewProductAt(before, k, init, lower);
        assert after[..k] == before[..k];
        var q :| q in init && MatchesText(q.name, lower) && before[k] == ProductResult(q);
        assert q in init + [p];
      } else {
        assert p in init + [p];
      }
    }
  }

  /** Any other product leaves the results as they were, and the facts carry over. */
  lemma TopHitsSkip(results: seq<SearchResult>, init: seq<ProductRecord>, p: ProductRecord, lower: string)
    requires TopHitsFacts(results, init, TopHits(results, init, lower), lower)
    requires !(MatchesText(p.name, lower) && !HasProductNamed(TopHits(results, init, lower), p.name))
    ensures TopHitsFacts(results, init + [p], TopHits(results, init + [p], lower), lower)
  {
    var products := init + [p];
    assert products[..|products| - 1] == init;
    var before := TopHits(results, init, lower);
    assert TopHits(results, products, lower) == before;
    forall k | |results| <= k < |before| ensures NewProductAt(before, k, products, lower) {
      assert NewProductAt(before, k, init, lower);
      var q :| q in init && MatchesText(q.name, lower) && before[k] == ProductResult(q);
      assert q in products;
    }
    forall q | q in products && MatchesText(q.name, lower) ensures HasProductNamed(before, q.name) {
      if q != p {
        assert q in init;
      }
    }
  }

  /**
   * A distribution key yields a result exactly when it contains the term; the
   * result carries the count unchanged, and the results keep the keys' order.
   */
  lemma DistributionHitsMeaning(kind: Kind, entries: seq<(string, real)>, lower: string)
    ensures var hits, rows := DistributionHits(kind, entries, lower), DistributionHitRows(entries, lower);
      && |hits| == |rows| <= |entries|
      && (forall k :: 0 <= k < |rows| ==> rows[k] < |entries| && Contains(Lower(entries[rows[k]].0), lower))
      && (forall k, l :: 0 <= k < l < |rows| ==> rows[k] < rows[l])
      && (forall i :: 0 <= i < |entries| && Contains(Lower(entries[i].0), lower) ==> i in rows)
      && (forall k :: 0 <= k < |rows| ==> hits[k] == SearchResult(kind, Some(entries[rows[k]].0), entries[rows[k]].1, None, None))
      && (forall r :: r in hits <==>
            exists e :: e in entries && Contains(Lower(e.0), lower) && r == SearchResult(kind, Some(e.0), e.1, None, None))
  {
    DistributionHitsMembers(kind, entries, lower);
    DistributionHitsOrdered(kind, entries, lower);
    forall i | 0 <= i < |entries| && Contains(Lower(entries[i].0), lower) ensures i in DistributionHitRows(entries, lower) {
      Rows.PositionsComplete(entries, (e: (string, real)) => Contains(Lower(e.0), lower), i);
    }
  }

  lemma {:induction false} DistributionHitsMembers(kind: Kind, entries: seq<(string, real)>, lower: string)
    ensures var hits := DistributionHits(kind, entries, lower);
      && |hits| <= |entries|
      && (forall r :: r in hits <==>
            exists e :: e in entries && Contains(Lower(e.0), lower) && r == SearchResult(kind, Some(e.0), e.1, None, None))
  {
    if entries != [] {
      var init := entries[..|entries| - 1];
      DistributionHitsMembers(kind, init, lower);
      assert entries == init + [entries[|entries| - 1]];
    }
  }

  lemma {:induction false} DistributionHitsOrdered(kind: Kind, entries: seq<(string, real)>, lower: string)
    ensures var hits, rows := DistributionHits(kind, entries, lower), DistributionHitRows(entries, lower);
      |hits| == |rows| && forall k :: 0 <= k < |rows| ==> hits[k] == SearchResult(kind, Some(entries[rows[k]].0), entries[rows[k]].1, None, None)
  {
    if entries != [] {
      DistributionHitsOrdered(kind, entries[..|entries| - 1], lower);
      DistributionHitsInOrder(kind, entries, lower);
    }
  }

  lemma DistributionHitsInOrder(kind: Kind, entries: seq<(string, real)>, lower: string)
    requires entries != []
    requires var init := entries[..|entries| - 1];
      var hits, rows := DistributionHits(kind, init, lower), DistributionHitRows(init, lower);
      |hits| == |rows| && forall k :: 0 <= k < |rows| ==> hits[k] == SearchResult(kind, Some(init[rows[k]].0), init[rows[k]].1, None, None)
    ensures var hits, rows := DistributionHits(kind, entries, lower), DistributionHitRows(entries, lower);
      |hits| == |rows| && forall k :: 0 <= k < |rows| ==> hits[k] == SearchResult(kind, Some(entries[rows[k]].0), entries[rows[k]].1, None, None)
  {
    var n := |entries| - 1;
    var init := entries[..n];
    var e := entries[n];
    var hits0, rows0 := DistributionHits(kind, init, lower), DistributionHitRows(init, lower);
    var hits, rows := DistributionHits(kind, entries, lower), DistributionHitRows(entries, lower);
    assert hits == hits0 + if Contains(Lower(e.0), lower) then [SearchResult(kind, Some(e.0), e.1, None, None)] else [];
    assert rows == rows0 + if Contains(Lower(e.0), lower) then [n] else [];
    forall k | 0 <= k < |rows| ensures hits[k] == SearchResult(kind, Some(entries[rows[k]].0), entries[rows[k]].1, None, None) {
      if k < |rows0| {
        assert hits[k] == hits0[k] && rows[k] == rows0[k];
        assert init[rows0[k]] == entries[rows0[k]];
      }
    }
  }

  function Rank(k: Kind): nat
  {
    match k
    case ProductKind => 0
    case CategoryKind => 1
    case SupplierKind => 2
  }

  lemma {:induction false} AlertHitsAreProducts(alerts: seq<AlertRecord>, lower: string)
    ensures forall r :: r in AlertHits(alerts, lower) ==> r.kind == ProductKind
  {
    AlertHitsMeaning(alerts, lower);
  }

  lemma {:induction false} DistributionHitsKind(kind: Kind, entries: seq<(string, real)>, lower: string)
    ensures forall r :: r in DistributionHits(kind, entries, lower) ==> r.kind == kind
  {
    DistributionHitsMeaning(kind, entries, lower);
  }

  /** The three parts of a search, in order. */
  lemma SearchParts(p: Payload, searchTerm: string, searchType: Option<string>)
    ensures var lower := Lower(searchTerm);
      && (forall r :: r in ProductPart(p, lower, searchType) ==> r.kind == ProductKind)
      && (forall r :: r in DistributionPart(CategoryKind, p.categoryDistribution, lower, searchType, "category") ==> r.kind == CategoryKind)
      && (forall r :: r in DistributionPart(SupplierKind, p.supplierDistribution, lower, searchType, "supplier") ==> r.kind == SupplierKind)
  {
    var lower := Lower(searchTerm);
    var alerts := AlertHits(AlertsOf(p), lower);
    AlertHitsAreProducts(AlertsOf(p), lower);
    TopHitsMeaning(alerts, ProductsOf(p), lower);
    DistributionHitsKind(CategoryKind, EntriesOf(p.categoryDistribution), lower);
    DistributionHitsKind(SupplierKind, EntriesOf(p.supplierDistribution), lower);
    forall r | r in ProductPart(p, lower, searchType) ensures r.kind == ProductKind {
      var all := TopHits(alerts, ProductsOf(p), lower);
      var k :| 0 <= k < |all| && all[k] == r;
      if k < |alerts| {
        assert alerts[k] == r;
      }
    }
  }

  /**
   * Every result has a kind the search type asks for, and products come
   * first, then categories, then suppliers.
   */
  lemma SearchKindsMeaning(p: Payload, searchTerm: string, searchType: Option<string>)
    ensures var results := SearchOf(p, searchTerm, searchType);
      && (forall r :: r in results && r.kind == ProductKind ==> Wants(searchType, "product"))
      && (forall r :: r in results && r.kind == CategoryKind ==> Wants(searchType, "category"))
      && (forall r :: r in results && r.kind == SupplierKind ==> Wants(searchType, "supplier"))
      && (forall k, l :: 0 <= k < l < |results| ==> Rank(results[k].kind) <= Rank(results[l].kind))
  {
    var lower := Lower(searchTerm);
    SearchParts(p, searchTerm, searchType);
    var products := ProductPart(p, lower, searchType);
    var categories := DistributionPart(CategoryKind, p.categoryDistribution, lower, searchType, "category");
    var suppliers := DistributionPart(SupplierKind, p.supplierDistribution, lower, searchType, "supplier");
    var results := SearchOf(p, searchTerm, searchType);
    assert results == products + categories + suppliers;
    forall k, l | 0 <= k < l < |results| ensures Rank(results[k].kind) <= Rank(results[l].kind) {
      if k < |products| {
        assert results[k] in products;
      } else if k < |products| + |categories| {
        assert results[k] in categories;
        if l < |products| + |categories| {
          assert results[l] in categories;
        } else {
          assert results[l] in suppliers;
        }
      } else {
        assert results[k] in suppliers && results[l] in suppliers;
      }
    }
  }

  /** The category results are exactly the category keys holding the term, with their counts, when categories are searched. */
  lemma SearchCategoriesMeaning(p: Payload, searchTerm: string, searchType: Option<string>)
    ensures forall category: string, count: real ::
      SearchResult(CategoryKind, Some(category), count, None, None) in SearchOf(p, searchTerm, searchType)
      <==> Wants(searchType, "category") && (category, count) in EntriesOf(p.categoryDistribution)
           && Contains(Lower(category), Lower(searchTerm))
  {
    var lower := Lower(searchTerm);
    SearchParts(p, searchTerm, searchType);
    DistributionHitsMeaning(CategoryKind, EntriesOf(p.categoryDistribution), lower);
    var products := ProductPart(p, lower, searchType);
    var categories := DistributionPart(CategoryKind, p.categoryDistribution, lower, searchType, "category");
    var suppliers := DistributionPart(SupplierKind, p.supplierDistribution, lower, searchType, "supplier");
    assert SearchOf(p, searchTerm, searchType) == products + categories + suppliers;
  }

  /** The supplier results are exactly the supplier keys holding the term, with their counts, when suppliers are searched. */
  lemma SearchSuppliersMeaning(p: Payload, searchTerm: string, searchType: Option<string>)
    ensures forall supplier: string, count: real ::
      SearchResult(SupplierKind, Some(supplier), count, None, None) in SearchOf(p, searchTerm, searchType)
      <==> Wants(searchType, "supplier") && (supplier, count) in EntriesOf(p.supplierDistribution)
           && Contains(Lower(supplier), Lower(searchTerm))
  {
    var lower := Lower(searchTerm);
    SearchParts(p, searchTerm, searchType);
    DistributionHitsMeaning(SupplierKind, EntriesOf(p.supplierDistribution), lower);
    var products := ProductPart(p, lower, searchType);
    var categories := DistributionPart(CategoryKind, p.categoryDistribution, lower, searchType, "category");
    var suppliers := DistributionPart(SupplierKind, p.supplierDistribution, lower, searchType, "supplier");
    assert SearchOf(p, searchTerm, searchType) == products + categories + suppliers;
  }

  /**
   * Every result matched the term: a category or supplier result and a
   * top-product result by its own name, an alert result by the alert's name
   * or product id.  The name an alert result shows is the alert's name when it
   * has one, so it need not hold the term when only the product id matched.
   */
  lemma SearchResultsMatch(p: Payload, searchTerm: string, searchType: Option<string>)
    ensures var results, lower := SearchOf(p, searchTerm, searchType), Lower(searchTerm);
      forall r :: r in results ==>
        || (r.kind != ProductKind && MatchesText(r.name, lower))
        || (r.kind == ProductKind && MatchesText(r.name, lower) && exists t :: t in ProductsOf(p) && r == ProductResult(t))
        || (r.kind == ProductKind && exists a :: a in AlertsOf(p) && AlertMatches(a, lower) && r == AlertResult(a))
  {
    var lower := Lower(searchTerm);
    var alerts := AlertHits(AlertsOf(p), lower);
    AlertHitsMeaning(AlertsOf(p), lower);
    TopHitsMeaning(alerts, ProductsOf(p), lower);
    DistributionHitsMeaning(CategoryKind, EntriesOf(p.categoryDistribution), lower);
    DistributionHitsMeaning(SupplierKind, EntriesOf(p.supplierDistribution), lower);
    var all := TopHits(alerts, ProductsOf(p), lower);
    forall r | r in all
      ensures || (r.kind == ProductKind && MatchesText(r.name, lower) && exists t :: t in ProductsOf(p) && r == ProductResult(t))
              || (r.kind == ProductKind && exists a :: a in AlertsOf(p) && AlertMatches(a, lower) && r == AlertResult(a))
    {
      var k :| 0 <= k < |all| && all[k] == r;
      if k < |alerts| {
        assert alerts[k] == r;
        assert r in alerts;
      }
    }
  }

  /** An alert found by its product id alone is shown under its name, which need not hold the term. */
  lemma ProductIdMatchShowsName()
    ensures var p := Payload(Some([AlertRecord(Some("Bolt"), Some("P1"), Some(0.0), None, None, Some(1.0), None, None)]), None, None, None);
      && SearchOf(p, "p", None) == [SearchResult(ProductKind, Some("Bolt"), 0.0, Some(0.0), None)]
      && !MatchesText(Some("Bolt"), Lower("p"))
  {
    var a := AlertRecord(Some("Bolt"), Some("P1"), Some(0.0), None, None, Some(1.0), None, None);
    var p := Payload(Some([a]), None, None, None);
    assert Lower("p") == "p" by {
      assert Lower("p")[0] == LowerChar('p');
    }
    assert Lower("P1") == "p1" by {
      assert Lower("P1")[0] == LowerChar('P');
      assert Lower("P1")[1] == LowerChar('1');
    }
    assert OccursAt("p1", "p", 0);
    assert AlertMatches(a, "p");
    assert Lower("Bolt") == "bolt" by {
      assert Lower("Bolt")[0] == LowerChar('B');
      assert Lower("Bolt")[1] == LowerChar('o');
      assert Lower("Bolt")[2] == LowerChar('l');
      assert Lower("Bolt")[3] == LowerChar('t');
    }
    assert !Contains("bolt", "p") by {
      forall i | 0 <= i ensures !OccursAt("bolt", "p", i) {
        if i + 1 <= 4 {
          assert "bolt"[i..i + 1][0] == "bolt"[i];
        }
      }
    }
    assert [a][..0] == [];
    assert AlertHits([a], "p") == [AlertResult(a)];
    assert AlertResult(a) == SearchResult(ProductKind, Some("Bolt"), 0.0, Some(0.0), None);
    assert ProductPart(p, "p", None) == [AlertResult(a)];
  }

  // ---------------------------------------------------------------- findProductDetails

  /** The record `findProductDetails` builds. */
  datatype Details =
    | AlertDetails(name: Option<string>, productId: Option<string>, currentQuantity: Option<real>,
        reorderLevel: Option<real>, status: Option<string>, category: Option<string>, supplier: Option<string>,
        unitPrice: Option<real>, alertValue: real)
    | ProductDetails(name: Option<string>, quantity: Option<real>, totalValue: Option<real>,
        unitPrice: Option<real>, category: Option<string>, supplier: Option<string>)

  predicate AlertIs(a: AlertRecord, productName: string)
  {
    EqualsIgnoringCase(a.name, productName) || EqualsIgnoringCase(a.productId, productName)
  }

  /** `alerts.find(...)`: the first alert named `productName`, by name or product id, ignoring case. */
  function FindAlert(alerts: seq<AlertRecord>, productName: string): (i: Option<nat>)
    ensures i.Some? ==> (i.value < |alerts| && AlertIs(alerts[i.value], productName)
      && forall k :: 0 <= k < i.value ==> !AlertIs(alerts[k], productName))
    ensures i.None? ==> forall k :: 0 <= k < |alerts| ==> !AlertIs(alerts[k], productName)
  {
    if alerts == [] then None
    else if AlertIs(alerts[0], productName) then Some(0)
    else
      var rest := FindAlert(alerts[1..], productName);
      if rest.Some? then Some(rest.value + 1) else None
  }

  /** `products.find(...)`: the first top product of that name, ignoring case. */
  function FindProduct(products: seq<ProductRecord>, productName: string): (i: Option<nat>)
    ensures i.Some? ==> (i.value < |products| && EqualsIgnoringCase(products[i.value].name, productName)
      && forall k :: 0 <= k < i.value ==> !EqualsIgnoringCase(products[k].name, productName))
    ensures i.None? ==> forall k :: 0 <= k < |products| ==> !EqualsIgnoringCase(products[k].name, productName)
  {
    if products == [] then None
    else if EqualsIgnoringCase(products[0].name, productName) then Some(0)
    else
      var rest := FindProduct(products[1..], productName);
      if rest.Some? then Some(rest.value + 1) else None
  }

  /** `findProductDetails(edaResults, productName)`: alerts first, then top products, `None` for `null`. */
  function FindProductDetails(p: Payload, productName: string): Option<Details>
  {
    var alerts, products := AlertsOf(p), ProductsOf(p);
    var i := FindAlert(alerts, productName);
    if i.Some? then
      var a := alerts[i.value];
      Some(AlertDetails(NameOrId(a), a.productId, a.currentQty, a.reorderLevel, a.status, a.category, a.supplier,
        a.unitPrice, Times(OrZero(a.currentQty), OrZero(a.unitPrice))))
    else
      var j := FindProduct(products, productName);
      if j.Some? then
        var t := products[j.value];
        Some(ProductDetails(t.name, t.quantity, t.totalValue, t.unitPrice, t.category, t.supplier))
      else None
  }

  /**
   * The lookup is an exact match ignoring case, not a substring match: it
   * finds nothing exactly when no alert and no top product carries that name
   * (or, for an alert, that product id); an alert wins over a top product; and
   * the details are those of the first matching entry.
   */
  lemma FindProductDetailsMeaning(p: Payload, productName: string)
    ensures var d, alerts, products := FindProductDetails(p, productName), AlertsOf(p), ProductsOf(p);
      && (d.None? <==>
            (forall a :: a in alerts ==> !AlertIs(a, productName))
            && (forall t :: t in products ==> !EqualsIgnoringCase(t.name, productName)))
      && ((exists a :: a in alerts && AlertIs(a, productName)) ==> d.Some? && d.value.AlertDetails?)
      && (d.Some? && d.value.AlertDetails? ==>
            exists i :: 0 <= i < |alerts| && AlertIs(alerts[i], productName)
              && (forall k :: 0 <= k < i ==> !AlertIs(alerts[k], productName))
              && d.value == AlertDetails(NameOrId(alerts[i]), alerts[i].productId, alerts[i].currentQty,
                   alerts[i].reorderLevel, alerts[i].status, alerts[i].category, alerts[i].supplier,
                   alerts[i].unitPrice, Times(OrZero(alerts[i].currentQty), OrZero(alerts[i].unitPrice))))
      && (d.Some? && d.value.ProductDetails? ==>
            && EqualsIgnoringCase(d.value.name, productName)
            && (forall a :: a in alerts ==> !AlertIs(a, productName))
            && (exists j :: 0 <= j < |products| && EqualsIgnoringCase(products[j].name, productName)
                  && (forall k :: 0 <= k < j ==> !EqualsIgnoringCase(products[k].name, productName))
                  && d.value == ProductDetails(products[j].name, products[j].quantity, products[j].totalValue,
                       products[j].unitPrice, products[j].category, products[j].supplier)))
  {
    var alerts, products := AlertsOf(p), ProductsOf(p);
    var i := FindAlert(alerts, productName);
    if i.None? {
      assert forall a :: a in alerts ==> !AlertIs(a, productName) by {
        forall a | a in alerts ensures !AlertIs(a, productName) {
          var k :| 0 <= k < |alerts| && alerts[k] == a;
        }
      }
      var j := FindProduct(products, productName);
      if j.None? {
        forall t | t in products ensures !EqualsIgnoringCase(t.name, productName) {
          var k :| 0 <= k < |products| && products[k] == t;
        }
      } else {
        assert products[j.value] in products;
      }
    } else {
      assert alerts[i.value] in alerts;
    }
  }

  /** A payload whose one top product is named "Widget A". */
  function WidgetPayload(): Payload
  {
    Payload(None, Some([ProductRecord(Some("Widget A"), Some(5.0), Some(2.0), Some(10.0), None, None)]), None, None)
  }

  /** "Widget A" is found by the search for "widget" but not by the lookup of "widget". */
  lemma SubstringVersusEquality()
    ensures |SearchOf(WidgetPayload(), "widget", None)| == 1
    ensures FindProductDetails(WidgetPayload(), "widget") == None
  {
    WidgetSearched();
    WidgetNotLookedUp();
  }

  lemma WidgetSearched()
    ensures |SearchOf(WidgetPayload(), "widget", None)| == 1
  {
    var p := WidgetPayload();
    LowerWidget();
    assert SearchOf(p, "widget", None) == ProductPart(p, "widget", None);
    var products := ProductsOf(p);
    assert ProductPart(p, "widget", None) == TopHits([], products, "widget");
    WidgetMatches();
    assert products[..0] == [];
    assert TopHits([], products, "widget") == [ProductResult(products[0])];
  }

  lemma WidgetMatches()
    ensures MatchesText(Some("Widget A"), "widget")
  {
    LowerWidgetA();
    assert OccursAt("widget a", "widget", 0);
  }

  lemma WidgetNotLookedUp()
    ensures FindProductDetails(WidgetPayload(), "widget") == None
  {
    LowerWidgetA();
    LowerWidget();
    assert "widget a" != "widget";
  }

  lemma LowerWidgetA()
    ensures Lower("Widget A") == "widget a"
  {
    var w := "Widget A";
    assert Lower(w)[0] == LowerChar('W') && Lower(w)[1] == LowerChar('i');
    assert Lower(w)[2] == LowerChar('d') && Lower(w)[3] == LowerChar('g');
    assert Lower(w)[4] == LowerChar('e') && Lower(w)[5] == LowerChar('t');
    assert Lower(w)[6] == LowerChar(' ') && Lower(w)[7] == LowerChar('A');
  }

  lemma LowerWidget()
    ensures Lower("widget") == "widget"
  {
    var w := "widget";
    assert Lower(w)[0] == LowerChar('w') && Lower(w)[1] == LowerChar('i');
    assert Lower(w)[2] == LowerChar('d') && Lower(w)[3] == LowerChar('g');
    assert Lower(w)[4] == LowerChar('e') && Lower(w)[5] == LowerChar('t');
  }

  // ---------------------------------------------------------------- getProductsByCategory / getProductsBySupplier

  /** Which field of a product the lookup compares. */
  datatype Field = CategoryField | SupplierField

  function AlertField(a: AlertRecord, f: Field): Option<string>
  {
    if f == CategoryField then a.category else a.supplier
  }

  function ProductField(t: ProductRecord, f: Field): Option<string>
  {
    if f == CategoryField then t.category else t.supplier
  }

  /** One entry of the `products` list. */
  datatype Listed = Listed(name: Option<string>, quantity: Option<real>, status: Option<string>, totalValue: Option<real>, unitPrice: Option<real>)

  function AlertListing(a: AlertRecord): Listed
  {
    Listed(NameOrId(a), a.currentQty, a.status, None, a.unitPrice)
  }

  function ProductListing(t: ProductRecord): Listed
  {
    Listed(t.name, t.quantity, None, t.totalValue, t.unitPrice)
  }

  /** The alerts whose field equals `name` ignoring case, in order. */
  function AlertListings(alerts: seq<AlertRecord>, f: Field, name: string): seq<Listed>
  {
    if alerts == [] then []
    else
      var a := alerts[|alerts| - 1];
      AlertListings(alerts[..|alerts| - 1], f, name) + if EqualsIgnoringCase(AlertField(a, f), name) then [AlertListing(a)] else []
  }

  predicate HasListingNamed(listed: seq<Listed>, name: Option<string>)
  {
    exists k :: 0 <= k < |listed| && listed[k].name == name
  }

  /** `listed` after the top products are scanned: a product of that field is added unless its name is already listed. */
  function ProductListings(listed: seq<Listed>, products: seq<ProductRecord>, f: Field, name: string): seq<Listed>
  {
    if products == [] then listed
    else
      var before := ProductListings(listed, products[..|products| - 1], f, name);
      var t := products[|products| - 1];
      if EqualsIgnoringCase(ProductField(t, f), name) && !HasListingNamed(before, t.name) then before + [ProductListing(t)] else before
  }

  /** What `getProductsByCategory` (for the category field) and `getProductsBySupplier` (for the supplier field) return. */
  function ProductsWith(p: Payload, f: Field, name: string): seq<Listed>
  {
    ProductListings(AlertListings(AlertsOf(p), f, name), ProductsOf(p), f, name)
  }

  lemma AlertListingsSnoc(alerts: seq<AlertRecord>, i: nat, f: Field, name: string)
    requires i < |alerts|
    ensures AlertListings(alerts[..i + 1], f, name)
      == AlertListings(alerts[..i], f, name) + if EqualsIgnoringCase(AlertField(alerts[i], f), name) then [AlertListing(alerts[i])] else []
  {
    assert alerts[..i + 1][..i] == alerts[..i];
  }

  lemma ProductListingsSnoc(listed: seq<Listed>, products: seq<ProductRecord>, i: nat, f: Field, name: string)
    requires i < |products|
    ensures var before := ProductListings(listed, products[..i], f, name);
      ProductListings(listed, products[..i + 1], f, name)
        == if EqualsIgnoringCase(ProductField(products[i], f), name) && !HasListingNamed(before, products[i].name)
           then before + [ProductListing(products[i])] else before
  {
    assert products[..i + 1][..i] == products[..i];
  }

  /** The two `forEach` passes shared by both lookups. */
  method CollectProducts(p: Payload, f: Field, name: string) returns (products: seq<Listed>)
    ensures products == ProductsWith(p, f, name)
  {
    products := [];
    var alerts := AlertsOf(p);
    for i := 0 to |alerts|
      invariant products == AlertListings(alerts[..i], f, name)
    {
      AlertListingsSnoc(alerts, i, f, name);
      var alert := alerts[i];
      if EqualsIgnoringCase(AlertField(alert, f), name) {
        products := products + [AlertListing(alert)];
      }
    }
    assert alerts[..|alerts|] == alerts;
    ghost var fromAlerts := products;
    var top := ProductsOf(p);
    for i := 0 to |top|
      invariant products == ProductListings(fromAlerts, top[..i], f, name)
    {
      ProductListingsSnoc(fromAlerts, top, i, f, name);
      var product := top[i];
      if EqualsIgnoringCase(ProductField(product, f), name) {
        var present := exists k :: 0 <= k < |products| && products[k].name == product.name;
        if !present {
          products := products + [ProductListing(product)];
        }
      }
    }
    assert top[..|top|] == top;
  }

  /** `getProductsByCategory(edaResults, categoryName)`. */
  method GetProductsByCategory(p: Payload, categoryName: string) returns (products: seq<Listed>)
    ensures products == ProductsWith(p, CategoryField, categoryName)
  {
    products := CollectProducts(p, CategoryField, categoryName);
  }

  /** `getProductsBySupplier(edaResults, supplierName)`. */
  method GetProductsBySupplier(p: Payload, supplierName: string) returns (products: seq<Listed>)
    ensures products == ProductsWith(p, SupplierField, supplierName)
  {
    products := CollectProducts(p, SupplierField, supplierName);
  }

  /**
   * Every listed entry comes from an alert or a top product whose field
   * equals the name ignoring case; every such alert is listed; and a top
   * product is listed only under a name not listed before it.
   */
  lemma {:induction false} ProductListingsMeaning(listed: seq<Listed>, products: seq<ProductRecord>, f: Field, name: string)
    ensures var after := ProductListings(listed, products, f, name);
      && listed <= after
      && (forall k :: |listed| <= k < |after| ==>
            && !HasListingNamed(after[..k], after[k].name)
            && exists t :: t in products && EqualsIgnoringCase(ProductField(t, f), name) && after[k] == ProductListing(t))
      && (forall t :: t in products && EqualsIgnoringCase(ProductField(t, f), name) ==> HasListingNamed(after, t.name))
  {
    if products != [] {
      var init := products[..|products| - 1];
      var t := products[|products| - 1];
      ProductListingsMeaning(listed, init, f, name);
      var before := ProductListings(listed, init, f, name);
      var after := ProductListings(listed, products, f, name);
      assert products == init + [t];
      if EqualsIgnoringCase(ProductField(t, f), name) && !HasListingNamed(before, t.name) {
        assert after == before + [ProductListing(t)];
        assert after[..|before|] == before;
        forall q | q in products && EqualsIgnoringCase(ProductField(q, f), name) ensures HasListingNamed(after, q.name) {
          if q in init {
            var k :| 0 <= k < |before| && before[k].name == q.name;
            assert after[k] == before[k];
          } else {
            assert after[|before|] == ProductListing(t);
          }
        }
        forall k | |listed| <= k < |after|
          ensures !HasListingNamed(after[..k], after[k].name)
        {
          if k < |before| {
            assert after[..k] == before[..k];
          }
        }
      } else {
        forall q | q in products && EqualsIgnoringCase(ProductField(q, f), name) ensures HasListingNamed(after, q.name) {
        }
      }
    }
  }

  /** An alert is listed exactly when its field equals the name ignoring case. */
  lemma {:induction false} AlertListingsMeaning(alerts: seq<AlertRecord>, f: Field, name: string)
    ensures forall l :: l in AlertListings(alerts, f, name) <==>
      exists a :: a in alerts && EqualsIgnoringCase(AlertField(a, f), name) && l == AlertListing(a)
  {
    if alerts != [] {
      var init := alerts[..|alerts| - 1];
      AlertListingsMeaning(init, f, name);
      assert alerts == init + [alerts[|alerts| - 1]];
    }
  }

  /**
   * What either lookup returns: the listing of every alert whose field equals
   * the name ignoring case, then the top products whose field equals it, one
   * per name not already listed; nothing else is listed.
   */
  lemma ProductsWithMeaning(p: Payload, f: Field, name: string)
    ensures var listed, fromAlerts := ProductsWith(p, f, name), AlertListings(AlertsOf(p), f, name);
      && fromAlerts <= listed
      && (forall a :: a in AlertsOf(p) && EqualsIgnoringCase(AlertField(a, f), name) ==> AlertListing(a) in listed)
      && (forall t :: t in ProductsOf(p) && EqualsIgnoringCase(ProductField(t, f), name) ==> HasListingNamed(listed, t.name))
      && (forall l :: l in listed ==>
            || (exists a :: a in AlertsOf(p) && EqualsIgnoringCase(AlertField(a, f), name) && l == AlertListing(a))
            || (exists t :: t in ProductsOf(p) && EqualsIgnoringCase(ProductField(t, f), name) && l == ProductListing(t)))
      && (forall k :: |fromAlerts| <= k < |listed| ==> !HasListingNamed(listed[..k], listed[k].name))
  {
    var fromAlerts := AlertListings(AlertsOf(p), f, name);
    AlertListingsMeaning(AlertsOf(p), f, name);
    ProductListingsMeaning(fromAlerts, ProductsOf(p), f, name);
    var listed := ProductsWith(p, f, name);
    forall l | l in listed
      ensures || (exists a :: a in AlertsOf(p) && EqualsIgnoringCase(AlertField(a, f), name) && l == AlertListing(a))
              || (exists t :: t in ProductsOf(p) && EqualsIgnoringCase(ProductField(t, f), name) && l == ProductListing(t))
    {
      var k :| 0 <= k < |listed| && listed[k] == l;
      if k < |fromAlerts| {
        assert fromAlerts[k] == l;
        assert l in fromAlerts;
      }
    }
    forall a | a in AlertsOf(p) && EqualsIgnoringCase(AlertField(a, f), name) ensures AlertListing(a) in listed {
      assert AlertListing(a) in fromAlerts;
      var k :| 0 <= k < |fromAlerts| && fromAlerts[k] == AlertListing(a);
      assert listed[k] == fromAlerts[k];
    }
  }

  /** Alerts without the field are never listed. */
  lemma {:induction false} UnlabelledAlertsNotListed(alerts: seq<AlertRecord>, f: Field, name: string)
    requires forall a :: a in alerts ==> AlertField(a, f).None?
    ensures AlertListings(alerts, f, name) == []
  {
    if alerts != [] {
      UnlabelledAlertsNotListed(alerts[..|alerts| - 1], f, name);
      assert alerts[|alerts| - 1] in alerts;
    }
  }

  /** Top products without the field add nothing. */
  lemma {:induction false} UnlabelledProductsNotListed(listed: seq<Listed>, products: seq<ProductRecord>, f: Field, name: string)
    requires forall t :: t in products ==> ProductField(t, f).None?
    ensures ProductListings(listed, products, f, name) == listed
  {
    if products != [] {
      UnlabelledProductsNotListed(listed, products[..|products| - 1], f, name);
      assert products[|products| - 1] in products;
    }
  }

  /**
   * The payload the EDA activity stores carries no category and no supplier
   * on its alerts and top products, so both lookups on it always come back empty.
   */
  lemma StoredHasNoProductsByField(a: InventoryAnalysis, f: Field, name: string)
    ensures ProductsWith(Stored(a), f, name) == []
  {
    var p := Stored(a);
    forall r | r in AlertsOf(p) ensures AlertField(r, f).None? {
      var k :| 0 <= k < |AlertsOf(p)| && AlertsOf(p)[k] == r;
      assert r == AlertRecordOf(a.lowStockAlerts[k]);
    }
    forall t | t in ProductsOf(p) ensures ProductField(t, f).None? {
      var k :| 0 <= k < |ProductsOf(p)| && ProductsOf(p)[k] == t;
      assert t == ProductRecordOf(a.topProductsByValue[k]);
    }
    UnlabelledAlertsNotListed(AlertsOf(p), f, name);
    UnlabelledProductsNotListed([], ProductsOf(p), f, name);
  }
}
