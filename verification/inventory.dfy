/**
 * The inventory analysis that `performEdaActivity` stores
 * (backend/src/temporal/activities.ts).  It reads the raw records as loaded
 * from the CSV file, not the transformed ones.  It finds the inventory columns
 * by fragments of their names and derives:
 *   - stock status counts;
 *   - the category and supplier distributions;
 *   - the inventory value;
 *   - the low-stock alerts;
 *   - the products of highest value;
 *   - a summary that also carries the transformation's statistics.
 */
module Inventory {
  import opened Wrappers
  import opened Strings
  import opened Rows
  import opened Sorting
  import opened Dedup
  import opened ColumnTypes
  import opened Statistics
  import opened Pipeline

  /** The name fragments `findColumn` tries, in order, for each inventory column. */
  const QuantityNames: seq<string> := ["qty", "quantity", "stock", "stock_qty", "on_hand", "quantity_on_hand"]
  const PriceNames: seq<string> := ["price", "unit_price", "cost", "value", "amount", "unit_cost"]
  const ReorderNames: seq<string> := ["reorder", "reorder_level", "min_stock", "minimum", "min_qty"]
  const CategoryNames: seq<string> := ["category", "type", "class", "product_type", "product_category"]
  const SupplierNames: seq<string> := ["supplier", "vendor", "manufacturer", "source", "supplier_name"]
  const ProductNames: seq<string> := ["product", "product_name", "name", "item", "item_name", "product_id"]

  /** The distribution labels used for a falsy cell, or for every row when the column is absent. */
  const Uncategorized: string := "Uncategorized"
  const UnknownSupplier: string := "Unknown Supplier"

  /** At most this many alerts and top products are reported. */
  const MaxAlerts: nat := 20
  const MaxTopProducts: nat := 10

  /** The columns the analysis found; `None` is `undefined`. */
  datatype Columns = Columns(
    quantity: Option<string>,
    price: Option<string>,
    reorder: Option<string>,
    category: Option<string>,
    supplier: Option<string>,
    product: Option<string>)

  // ---------------------------------------------------------------- findColumn

  /** `names.find(col => col.includes(fragment))`: the first name holding the fragment. */
  function FirstContaining(names: seq<string>, fragment: string): (r: Option<string>)
    ensures r.None? <==> forall i :: 0 <= i < |names| ==> !Contains(names[i], fragment)
    ensures r.Some? ==>
      exists i :: 0 <= i < |names| && names[i] == r.value && Contains(names[i], fragment)
        && forall j :: 0 <= j < i ==> !Contains(names[j], fragment)
  {
    if names == [] then None
    else if Contains(names[0], fragment) then
      Some(names[0])
    else
      var r := FirstContaining(names[1..], fragment);
      if r.Some? then
        var i :| 0 <= i < |names[1..]| && names[1..][i] == r.value && Contains(names[1..][i], fragment)
          && forall j :: 0 <= j < i ==> !Contains(names[1..][j], fragment);
        assert names[i + 1] == r.value && Contains(names[i + 1], fragment);
        assert forall j :: 0 <= j < i + 1 ==> !Contains(names[j], fragment) by {
          forall j | 0 < j < i + 1 ensures !Contains(names[j], fragment) {
            assert names[j] == names[1..][j - 1];
          }
        }
        r
      else
        assert forall i :: 1 <= i < |names| ==> names[i] == names[1..][i - 1];
        r
  }

  /**
   * `findColumn(names, candidates)`: the candidates are tried in order, and
   * the first one held by some name yields the first such name.
   */
  function FindColumn(names: seq<string>, candidates: seq<string>): (r: Option<string>)
    ensures r.None? <==> forall j, i :: 0 <= j < |candidates| && 0 <= i < |names| ==> !Contains(names[i], candidates[j])
    ensures r.Some? ==>
      exists j :: 0 <= j < |candidates| && r == FirstContaining(names, candidates[j])
        && forall k :: 0 <= k < j ==> FirstContaining(names, candidates[k]).None?
  {
    if candidates == [] then None
    else
      var found := FirstContaining(names, candidates[0]);
      if found.Some? then
        found
      else
        var r := FindColumn(names, candidates[1..]);
        if r.Some? then
          var j :| 0 <= j < |candidates[1..]| && r == FirstContaining(names, candidates[1..][j])
            && forall k :: 0 <= k < j ==> FirstContaining(names, candidates[1..][k]).None?;
          assert r == FirstContaining(names, candidates[j + 1]);
          assert forall k :: 0 <= k < j + 1 ==> FirstContaining(names, candidates[k]).None? by {
            forall k | 0 < k < j + 1 ensures FirstContaining(names, candidates[k]).None? {
              assert candidates[k] == candidates[1..][k - 1];
            }
          }
          r
        else
          assert forall j :: 1 <= j < |candidates| ==> candidates[j] == candidates[1..][j - 1];
          r
  }

  /** `Object.keys(rawData[0] || {}).map(c => c.toLowerCase())`. */
  function ColumnNames(data: seq<Row>): (names: seq<string>)
    ensures data == [] ==> names == []
    ensures data != [] ==>
      |names| == |data[0]| && forall i :: 0 <= i < |names| ==> names[i] == Lower(data[0][i].0)
  {
    if data == [] then []
    else seq(|data[0]|, i requires 0 <= i < |data[0]| => Lower(data[0][i].0))
  }

  /** The six columns `generateRealInventoryAnalysis` looks for. */
  function DetectedColumns(data: seq<Row>): Columns
  {
    var names := ColumnNames(data);
    Columns(FindColumn(names, QuantityNames), FindColumn(names, PriceNames), FindColumn(names, ReorderNames),
      FindColumn(names, CategoryNames), FindColumn(names, SupplierNames), FindColumn(names, ProductNames))
  }

  /** A column found by `findColumn` is one of the lower-cased names, so it holds no capital letter. */
  lemma DetectedColumnsAreLowerCase(data: seq<Row>, candidates: seq<string>)
    ensures var r := FindColumn(ColumnNames(data), candidates);
      r.Some? ==> forall i :: 0 <= i < |r.value| ==> !IsUpper(r.value[i])
  {
  }

  // ---------------------------------------------------------------- stock status

  /** `parseFloat(String(row[col] || 0))`; `None` is `NaN`. */
  function ReadNumber(js: Js, row: Row, col: string): Option<real>
  {
    FloatOrZero(js, Lookup(row, col))
  }

  /** The branch of `analyzeStockStatus`'s loop one row takes. */
  datatype StockLevel = Unparsed | Healthy | LowStock | OutOfStock

  function StockLevelOf(js: Js, row: Row, quantityCol: string, reorderCol: Option<string>): StockLevel
  {
    var qty := ReadNumber(js, row, quantityCol);
    if qty.None? then Unparsed
    else if qty.value == 0.0 then OutOfStock
    else if reorderCol.Some? then
      var reorder := ReadNumber(js, row, reorderCol.value);
      if reorder.Some? && reorder.value > 0.0 && qty.value < reorder.value then LowStock else Healthy
    else Healthy
  }

  /** How many rows of `data` are at `level`. */
  function CountLevel(js: Js, data: seq<Row>, quantityCol: string, reorderCol: Option<string>, level: StockLevel): (n: nat)
    ensures n <= |data|
  {
    if data == [] then 0
    else
      CountLevel(js, data[..|data| - 1], quantityCol, reorderCol, level)
        + if StockLevelOf(js, data[|data| - 1], quantityCol, reorderCol) == level then 1 else 0
  }

  /** One more row read: only the counter of that row's level moves. */
  lemma CountLevelStep(js: Js, data: seq<Row>, i: nat, quantityCol: string, reorderCol: Option<string>)
    requires i < |data|
    ensures forall level ::
      CountLevel(js, data[..i + 1], quantityCol, reorderCol, level)
        == CountLevel(js, data[..i], quantityCol, reorderCol, level)
          + if StockLevelOf(js, data[i], quantityCol, reorderCol) == level then 1 else 0
  {
    assert data[..i + 1][..i] == data[..i];
  }

  datatype StockStatus = StockStatus(healthyCount: nat, lowStockCount: nat, outOfStockCount: nat)

  /** What `analyzeStockStatus(data, quantityCol, reorderCol)` returns. */
  function StockStatusOf(js: Js, data: seq<Row>, quantityCol: Option<string>, reorderCol: Option<string>): StockStatus
  {
    if quantityCol.None? then StockStatus(0, 0, 0)
    else
      var q := quantityCol.value;
      StockStatus(CountLevel(js, data, q, reorderCol, Healthy), CountLevel(js, data, q, reorderCol, LowStock),
        CountLevel(js, data, q, reorderCol, OutOfStock))
  }

  /** `analyzeStockStatus`: three counters over the rows. */
  method AnalyzeStockStatus(js: Js, data: seq<Row>, quantityCol: Option<string>, reorderCol: Option<string>)
    returns (status: StockStatus)
    ensures status == StockStatusOf(js, data, quantityCol, reorderCol)
  {
    var healthyCount, lowStockCount, outOfStockCount := 0, 0, 0;
    if quantityCol.None? {
      return StockStatus(0, 0, 0);
    }
    var q := quantityCol.value;
    for i := 0 to |data|
      invariant healthyCount == CountLevel(js, data[..i], q, reorderCol, Healthy)
      invariant lowStockCount == CountLevel(js, data[..i], q, reorderCol, LowStock)
      invariant outOfStockCount == CountLevel(js, data[..i], q, reorderCol, OutOfStock)
    {
      CountLevelStep(js, data, i, q, reorderCol);
      var qty := ReadNumber(js, data[i], q);
      if qty.None? {
        continue;
      }
      if qty.value == 0.0 {
        outOfStockCount := outOfStockCount + 1;
      } else if reorderCol.Some? {
        var reorderLevel := ReadNumber(js, data[i], reorderCol.value);
        if reorderLevel.Some? && reorderLevel.value > 0.0 && qty.value < reorderLevel.value {
          lowStockCount := lowStockCount + 1;
        } else {
          healthyCount := healthyCount + 1;
        }
      } else {
        healthyCount := healthyCount + 1;
      }
    }
    assert data[..|data|] == data;
    status := StockStatus(healthyCount, lowStockCount, outOfStockCount);
  }

  /** Each row is at exactly one level, so the four counts add up to the rows. */
  lemma {:induction false} StockPartition(js: Js, data: seq<Row>, quantityCol: string, reorderCol: Option<string>)
    ensures CountLevel(js, data, quantityCol, reorderCol, Healthy) + CountLevel(js, data, quantityCol, reorderCol, LowStock)
      + CountLevel(js, data, quantityCol, reorderCol, OutOfStock) + CountLevel(js, data, quantityCol, reorderCol, Unparsed) == |data|
  {
    if data != [] {
      StockPartition(js, data[..|data| - 1], quantityCol, reorderCol);
    }
  }

  /**
   * Without a quantity column all three counts are 0; with one, healthy, low
   * and out-of-stock rows together are exactly the rows whose quantity parses.
   */
  lemma StockStatusMeaning(js: Js, data: seq<Row>, quantityCol: Option<string>, reorderCol: Option<string>)
    ensures quantityCol.None? ==> StockStatusOf(js, data, quantityCol, reorderCol) == StockStatus(0, 0, 0)
    ensures quantityCol.Some? ==>
      var s := StockStatusOf(js, data, quantityCol, reorderCol);
      s.healthyCount + s.lowStockCount + s.outOfStockCount
        == |data| - CountLevel(js, data, quantityCol.value, reorderCol, Unparsed)
  {
    if quantityCol.Some? {
      StockPartition(js, data, quantityCol.value, reorderCol);
    }
  }

  /**
   * A row is out of stock exactly when its quantity reads 0, which includes
   * an empty or absent cell; it is low on stock exactly when its non-zero
   * quantity is below a known, positive reorder level.
   */
  lemma StockLevelMeaning(js: Js, row: Row, quantityCol: string, reorderCol: Option<string>)
    ensures StockLevelOf(js, row, quantityCol, reorderCol) == OutOfStock <==> ReadNumber(js, row, quantityCol) == Some(0.0)
    ensures !Truthy(Lookup(row, quantityCol)) ==> StockLevelOf(js, row, quantityCol, reorderCol) == OutOfStock
    ensures StockLevelOf(js, row, quantityCol, reorderCol) == LowStock <==>
      var qty := ReadNumber(js, row, quantityCol);
      && qty.Some? && qty.value != 0.0 && reorderCol.Some?
      && var reorder := ReadNumber(js, row, reorderCol.value);
      && reorder.Some? && 0.0 < reorder.value && qty.value < reorder.value
  {
  }

  /**
   * The column names are lower-cased before the rows are read, so a quantity
   * header spelt with capitals (say `Quantity`) is never found in the rows:
   * every row then reads as quantity 0 and counts as out of stock.
   */
  lemma {:induction false} UnmatchedQuantityKeyReadsAsZero(js: Js, data: seq<Row>, quantityCol: string, reorderCol: Option<string>)
    requires forall i :: 0 <= i < |data| ==> quantityCol !in Keys(data[i])
    ensures StockStatusOf(js, data, Some(quantityCol), reorderCol) == StockStatus(0, 0, |data|)
  {
    if data != [] {
      var init := data[..|data| - 1];
      assert forall i :: 0 <= i < |init| ==> init[i] == data[i];
      UnmatchedQuantityKeyReadsAsZero(js, init, quantityCol, reorderCol);
    }
  }

  // ---------------------------------------------------------------- distributions

  /** `String(row[col] || fallback).trim()` for every row. */
  function Labels(js: Js, data: seq<Row>, col: string, fallback: string): (ls: seq<string>)
    ensures |ls| == |data|
    ensures forall i :: 0 <= i < |data| ==> ls[i] == Trim(TextOr(js, Lookup(data[i], col), fallback))
  {
    seq(|data|, i requires 0 <= i < |data| => Trim(TextOr(js, Lookup(data[i], col), fallback)))
  }

  /**
   * The distribution `analyzeCategoryDistribution` and
   * `analyzeSupplierDistribution` build: every row under `fallback` when the
   * column is absent, else a count per non-empty trimmed label, in order of
   * first appearance.
   */
  function DistributionOf(js: Js, data: seq<Row>, col: Option<string>, fallback: string): seq<(string, nat)>
  {
    if col.None? then [(fallback, |data|)] else Tally(Labels(js, data, col.value, fallback))
  }

  /** The loop both distribution builders share. */
  method Distribution(js: Js, data: seq<Row>, col: Option<string>, fallback: string)
    returns (distribution: seq<(string, nat)>)
    ensures distribution == DistributionOf(js, data, col, fallback)
  {
    if col.None? {
      return [(fallback, |data|)];
    }
    ghost var labels := Labels(js, data, col.value, fallback);
    distribution := [];
    for i := 0 to |data|
      invariant distribution == Tally(labels[..i])
    {
      TallyStep(labels, i);
      var key := Trim(TextOr(js, Lookup(data[i], col.value), fallback));
      assert key == labels[i];
      if key != "" {
        distribution := Bump(distribution, key);
      }
    }
    assert labels[..|data|] == labels;
  }

  /** `analyzeCategoryDistribution(data, categoryCol)`. */
  method AnalyzeCategoryDistribution(js: Js, data: seq<Row>, categoryCol: Option<string>)
    returns (distribution: seq<(string, nat)>)
    ensures distribution == DistributionOf(js, data, categoryCol, Uncategorized)
  {
    distribution := Distribution(js, data, categoryCol, Uncategorized);
  }

  /** `analyzeSupplierDistribution(data, supplierCol)`. */
  method AnalyzeSupplierDistribution(js: Js, data: seq<Row>, supplierCol: Option<string>)
    returns (distribution: seq<(string, nat)>)
    ensures distribution == DistributionOf(js, data, supplierCol, UnknownSupplier)
  {
    distribution := Distribution(js, data, supplierCol, UnknownSupplier);
  }

  /**
   * With the column present, the keys are the distinct non-empty labels in
   * order of first appearance, each trimmed and counting its rows; the
   * counts and the rows whose label is blank add up to the rows, so the
   * counts never exceed them.
   */
  lemma DistributionMeaning(js: Js, data: seq<Row>, col: string, fallback: string)
    ensures var d := DistributionOf(js, data, Some(col), fallback);
      var labels := Labels(js, data, col, fallback);
      && Keys(d) == FirstOccurrences(NonEmpty(labels))
      && (forall i :: 0 <= i < |d| ==>
            && d[i].1 == Occurrences(labels, d[i].0)
            && d[i].0 != ""
            && !IsSpace(d[i].0[0]) && !IsSpace(d[i].0[|d[i].0| - 1]))
      && Total(d) + Occurrences(labels, "") == |data|
      && Total(d) <= |data|
  {
    var labels := Labels(js, data, col, fallback);
    var d := DistributionOf(js, data, Some(col), fallback);
    assert d == Tally(labels);
    TallyKeys(labels);
    TallyTotal(labels);
    TrimmedTally(labels);
  }

  /** Tallying labels that are all trimmed: each key is a trimmed, non-empty label counting its occurrences. */
  lemma TrimmedTally(labels: seq<string>)
    requires forall j :: 0 <= j < |labels| ==>
      labels[j] == "" || (!IsSpace(labels[j][0]) && !IsSpace(labels[j][|labels[j]| - 1]))
    ensures var d := Tally(labels);
      forall i :: 0 <= i < |d| ==>
        && d[i].1 == Occurrences(labels, d[i].0)
        && d[i].0 != ""
        && !IsSpace(d[i].0[0]) && !IsSpace(d[i].0[|d[i].0| - 1])
  {
    var d := Tally(labels);
    forall i | 0 <= i < |d|
      ensures d[i].1 == Occurrences(labels, d[i].0) && d[i].0 != ""
        && !IsSpace(d[i].0[0]) && !IsSpace(d[i].0[|d[i].0| - 1])
    {
      TallyEntry(labels, i);
      var j :| 0 <= j < |labels| && labels[j] == d[i].0;
    }
  }

  /** Without the column every row is counted under the fallback label. */
  lemma AbsentColumnDistribution(js: Js, data: seq<Row>, fallback: string)
    ensures DistributionOf(js, data, None, fallback) == [(fallback, |data|)]
    ensures Total(DistributionOf(js, data, None, fallback)) == |data|
  {
  }

  /** A falsy cell is counted under the fallback label itself, which trimming leaves intact. */
  lemma FalsyCellLabel(js: Js, v: Option<Value>)
    requires !Truthy(v)
    ensures Trim(TextOr(js, v, Uncategorized)) == Uncategorized
    ensures Trim(TextOr(js, v, UnknownSupplier)) == UnknownSupplier
  {
    UncategorizedTrimmed();
    UnknownSupplierTrimmed();
  }

  lemma UncategorizedTrimmed()
    ensures Trim(Uncategorized) == Uncategorized
  {
    var s := Uncategorized;
    assert |s| == 13 && s[0] == 'U' && s[12] == 'd';
    TrimTrimmed(s);
  }

  lemma UnknownSupplierTrimmed()
    ensures Trim(UnknownSupplier) == UnknownSupplier
  {
    var s := UnknownSupplier;
    assert |s| == 16 && s[0] == 'U' && s[15] == 'r';
    TrimTrimmed(s);
  }

  // ---------------------------------------------------------------- inventory value

  /**
   * `a * b`, named so that equal factors are seen to give equal products
   * without any reasoning about multiplication.
   */
  function Times(a: real, b: real): real { a * b }

  /** `qty * price` for a row whose quantity and price read as positive numbers, else 0. */
  function LineValue(js: Js, row: Row, quantityCol: string, priceCol: string): (v: real)
    ensures v >= 0.0
  {
    var qty := ReadNumber(js, row, quantityCol);
    var price := ReadNumber(js, row, priceCol);
    if qty.Some? && price.Some? && qty.value > 0.0 && price.value > 0.0 then
      PositiveProduct(qty.value, price.value);
      Times(qty.value, price.value)
    else 0.0
  }

  lemma PositiveProduct(a: real, b: real)
    requires a > 0.0 && b > 0.0
    ensures Times(a, b) > 0.0
  {
  }

  /** The running `totalValue` after a pass over `data`. */
  function ValueSum(js: Js, data: seq<Row>, quantityCol: string, priceCol: string): (v: real)
    ensures v >= 0.0
  {
    if data == [] then 0.0
    else ValueSum(js, data[..|data| - 1], quantityCol, priceCol) + LineValue(js, data[|data| - 1], quantityCol, priceCol)
  }

  /** What `calculateInventoryValue(data, quantityCol, priceCol)` returns. */
  function InventoryValueOf(js: Js, data: seq<Row>, quantityCol: Option<string>, priceCol: Option<string>): (v: int)
  {
    if quantityCol.None? || priceCol.None? then 0
    else Round(ValueSum(js, data, quantityCol.value, priceCol.value))
  }

  /** `calculateInventoryValue`: one summing pass, rounded at the end. */
  method CalculateInventoryValue(js: Js, data: seq<Row>, quantityCol: Option<string>, priceCol: Option<string>)
    returns (value: int)
    ensures value == InventoryValueOf(js, data, quantityCol, priceCol)
  {
    if quantityCol.None? || priceCol.None? {
      return 0;
    }
    var totalValue := 0.0;
    for i := 0 to |data|
      invariant totalValue == ValueSum(js, data[..i], quantityCol.value, priceCol.value)
    {
      assert data[..i + 1][..i] == data[..i];
      var qty := ReadNumber(js, data[i], quantityCol.value);
      var price := ReadNumber(js, data[i], priceCol.value);
      if qty.Some? && price.Some? && qty.value > 0.0 && price.value > 0.0 {
        totalValue := totalValue + Times(qty.value, price.value);
      }
    }
    assert data[..|data|] == data;
    value := Round(totalValue);
  }

  /** The sum over two runs of rows is the sum of their sums. */
  lemma {:induction false} ValueSumAppend(js: Js, a: seq<Row>, b: seq<Row>, quantityCol: string, priceCol: string)
    ensures ValueSum(js, a + b, quantityCol, priceCol) == ValueSum(js, a, quantityCol, priceCol) + ValueSum(js, b, quantityCol, priceCol)
  {
    if b != [] {
      var init := b[..|b| - 1];
      assert (a + b)[..|a + b| - 1] == a + init;
      assert (a + b)[|a + b| - 1] == b[|b| - 1];
      ValueSumAppend(js, a, init, quantityCol, priceCol);
    } else {
      assert a + b == a;
    }
  }

  /**
   * The inventory value is 0 when either column is absent, and otherwise the
   * rounded sum of the rows' values, which is never negative.
   */
  lemma InventoryValueMeaning(js: Js, data: seq<Row>, quantityCol: Option<string>, priceCol: Option<string>)
    ensures quantityCol.None? || priceCol.None? ==> InventoryValueOf(js, data, quantityCol, priceCol) == 0
    ensures InventoryValueOf(js, data, quantityCol, priceCol) >= 0
    ensures quantityCol.Some? && priceCol.Some? ==>
      var sum := ValueSum(js, data, quantityCol.value, priceCol.value);
      sum - 0.5 < InventoryValueOf(js, data, quantityCol, priceCol) as real <= sum + 0.5
  {
  }

  // ---------------------------------------------------------------- low-stock alerts

  datatype AlertStatus = LowStockAlert | OutOfStockAlert

  /** One entry of `low_stock_alerts`; `reorderLevel` is `None` where `Math.round` gave `NaN`. */
  datatype Alert = Alert(
    productId: string,
    name: string,
    currentQty: int,
    reorderLevel: Option<int>,
    status: AlertStatus,
    unitPrice: real,
    totalValue: int)

  /** `PROD-` and the 1-based row number, zero-padded to five digits. */
  function ProductId(i: nat): string
  {
    "PROD-" + PadStart(NatToString(i + 1), 5, '0')
  }

  /** `col || ''`: an absent column is read under the empty key. */
  function ColumnOrEmpty(col: Option<string>): string
  {
    if col.Some? then col.value else ""
  }

  /** `String(row[productCol || ''] || \`Product ${i + 1}\`).trim()`. */
  function ProductName(js: Js, row: Row, productCol: Option<string>, i: nat): string
  {
    Trim(TextOr(js, Lookup(row, ColumnOrEmpty(productCol)), "Product " + NatToString(i + 1)))
  }

  /** `Math.round(x * 100) / 100`: to the cent. */
  function Cents(x: real): real
  {
    Round(x * 100.0) as real / 100.0
  }

  /** Whether row `row` raises an alert: its quantity parses and is 0, or is below a positive reorder level. */
  predicate RaisesAlert(js: Js, row: Row, cols: Columns)
    requires cols.quantity.Some?
  {
    var qty := ReadNumber(js, row, cols.quantity.value);
    var reorder := ReadNumber(js, row, ColumnOrEmpty(cols.reorder));
    qty.Some? && (qty.value == 0.0 || (reorder.Some? && reorder.value > 0.0 && qty.value < reorder.value))
  }

  /** The alert row `i` raises. */
  function AlertAt(js: Js, row: Row, i: nat, cols: Columns): Option<Alert>
    requires cols.quantity.Some?
  {
    if !RaisesAlert(js, row, cols) then None
    else
      var qty := ReadNumber(js, row, cols.quantity.value).value;
      var reorder := ReadNumber(js, row, ColumnOrEmpty(cols.reorder));
      var price := ReadNumber(js, row, ColumnOrEmpty(cols.price));
      Some(Alert(
        ProductId(i),
        ProductName(js, row, cols.product, i),
        Round(qty),
        if reorder.Some? then Some(Round(reorder.value)) else None,
        if qty == 0.0 then OutOfStockAlert else LowStockAlert,
        if price.Some? then Cents(price.value) else 0.0,
        if price.Some? then Round(Times(qty, price.value)) else 0))
  }

  /** Every alert, in row order, before the cut to twenty. */
  function AllAlerts(js: Js, data: seq<Row>, cols: Columns): seq<Alert>
    requires cols.quantity.Some?
  {
    if data == [] then []
    else
      var n := |data| - 1;
      var a := AlertAt(js, data[n], n, cols);
      AllAlerts(js, data[..n], cols) + if a.Some? then [a.value] else []
  }

  /** The positions of the rows that raise an alert, in order. */
  function AlertRows(js: Js, data: seq<Row>, cols: Columns): seq<nat>
    requires cols.quantity.Some?
  {
    if data == [] then []
    else
      var n := |data| - 1;
      AlertRows(js, data[..n], cols) + if RaisesAlert(js, data[n], cols) then [n] else []
  }

  /** What `generateRealLowStockAlerts(data, ...)` returns. */
  function LowStockAlertsOf(js: Js, data: seq<Row>, cols: Columns): seq<Alert>
  {
    if cols.quantity.None? then [] else Take(AllAlerts(js, data, cols), MaxAlerts)
  }

  /** One more row adds its alert, if any, at the end. */
  lemma AllAlertsSnoc(js: Js, data: seq<Row>, i: nat, cols: Columns)
    requires cols.quantity.Some? && i < |data|
    ensures AllAlerts(js, data[..i + 1], cols) == AllAlerts(js, data[..i], cols)
      + (var a := AlertAt(js, data[i], i, cols); if a.Some? then [a.value] else [])
  {
    assert data[..i + 1][..i] == data[..i];
  }

  /** `generateRealLowStockAlerts`: one pass pushing alerts, then the first twenty. */
  method GenerateLowStockAlerts(js: Js, data: seq<Row>, cols: Columns) returns (alerts: seq<Alert>)
    ensures alerts == LowStockAlertsOf(js, data, cols)
  {
    alerts := [];
    if cols.quantity.None? {
      return;
    }
    for i := 0 to |data|
      invariant alerts == AllAlerts(js, data[..i], cols)
    {
      AllAlertsSnoc(js, data, i, cols);
      var row := data[i];
      var qty := ReadNumber(js, row, cols.quantity.value);
      var reorderLevel := ReadNumber(js, row, ColumnOrEmpty(cols.reorder));
      var price := ReadNumber(js, row, ColumnOrEmpty(cols.price));
      var productName := ProductName(js, row, cols.product, i);
      if qty.None? {
        continue;
      }
      if qty.value == 0.0 || (reorderLevel.Some? && reorderLevel.value > 0.0 && qty.value < reorderLevel.value) {
        var alert := Alert(
          ProductId(i),
          productName,
          Round(qty.value),
          if reorderLevel.Some? then Some(Round(reorderLevel.value)) else None,
          if qty.value == 0.0 then OutOfStockAlert else LowStockAlert,
          if price.Some? then Cents(price.value) else 0.0,
          if price.Some? then Round(Times(qty.value, price.value)) else 0);
        assert AlertAt(js, row, i, cols) == Some(alert);
        alerts := alerts + [alert];
      }
    }
    assert data[..|data|] == data;
    alerts := Take(alerts, MaxAlerts);
  }

  /**
   * A row raises an alert exactly when its quantity parses and is 0, or is
   * below a known positive reorder level; the alert carries the row's
   * product id and is `OUT_OF_STOCK` exactly when the quantity is 0.
   */
  lemma AlertAtMeaning(js: Js, row: Row, i: nat, cols: Columns)
    requires cols.quantity.Some?
    ensures var qty := ReadNumber(js, row, cols.quantity.value);
      var reorder := ReadNumber(js, row, ColumnOrEmpty(cols.reorder));
      var a := AlertAt(js, row, i, cols);
      && (a.Some? <==> qty.Some? && (qty.value == 0.0 || (reorder.Some? && 0.0 < reorder.value && qty.value < reorder.value)))
      && (a.Some? ==> a.value.productId == ProductId(i) && (a.value.status == OutOfStockAlert <==> qty.value == 0.0))
  {
  }

  /**
   * The alerts are, in source-row order, those of the rows that raise one:
   * the k-th alert comes from row `AlertRows[k]` and the positions increase.
   */
  lemma {:induction false} AllAlertsMeaning(js: Js, data: seq<Row>, cols: Columns)
    requires cols.quantity.Some?
    ensures var alerts, rows := AllAlerts(js, data, cols), AlertRows(js, data, cols);
      && |alerts| == |rows|
      && (forall k :: 0 <= k < |rows| ==> rows[k] < |data| && AlertAt(js, data[rows[k]], rows[k], cols) == Some(alerts[k]))
      && (forall k, l :: 0 <= k < l < |rows| ==> rows[k] < rows[l])
  {
    if data != [] {
      var n := |data| - 1;
      var init := data[..n];
      AllAlertsMeaning(js, init, cols);
      var a := AlertAt(js, data[n], n, cols);
      var alerts0, rows0 := AllAlerts(js, init, cols), AlertRows(js, init, cols);
      var alerts, rows := AllAlerts(js, data, cols), AlertRows(js, data, cols);
      assert alerts == alerts0 + (if a.Some? then [a.value] else []);
      assert rows == rows0 + (if a.Some? then [n] else []);
      forall k | 0 <= k < |rows|
        ensures rows[k] < |data| && AlertAt(js, data[rows[k]], rows[k], cols) == Some(alerts[k])
      {
        if k < |rows0| {
          assert rows[k] == rows0[k] && alerts[k] == alerts0[k];
          assert init[rows0[k]] == data[rows0[k]];
        }
      }
    }
  }

  /** No row that raises an alert is skipped. */
  lemma {:induction false} AlertRowsComplete(js: Js, data: seq<Row>, cols: Columns, i: nat)
    requires cols.quantity.Some?
    requires i < |data| && RaisesAlert(js, data[i], cols)
    ensures i in AlertRows(js, data, cols)
  {
    var n := |data| - 1;
    var init := data[..n];
    var rows0 := AlertRows(js, init, cols);
    var rows := AlertRows(js, data, cols);
    if i < n {
      assert init[i] == data[i];
      AlertRowsComplete(js, init, cols, i);
      var k :| 0 <= k < |rows0| && rows0[k] == i;
      assert rows[k] == i;
    } else {
      assert i == n;
      assert RaisesAlert(js, data[n], cols);
      assert rows == rows0 + [n];
      assert rows[|rows0|] == i;
    }
  }

  /**
   * At most twenty alerts are reported: the first ones, in row order, and all
   * of them when there are fewer than twenty.
   */
  lemma LowStockAlertsCapped(js: Js, data: seq<Row>, cols: Columns)
    ensures |LowStockAlertsOf(js, data, cols)| <= MaxAlerts
    ensures cols.quantity.Some? ==> LowStockAlertsOf(js, data, cols) <= AllAlerts(js, data, cols)
    ensures cols.quantity.Some? ==>
      var all := AllAlerts(js, data, cols);
      |LowStockAlertsOf(js, data, cols)| == if |all| < MaxAlerts then |all| else MaxAlerts
    ensures cols.quantity.None? ==> LowStockAlertsOf(js, data, cols) == []
  {
  }

  // ---------------------------------------------------------------- top products

  /** One entry of `top_products_by_value`. */
  datatype TopProduct = TopProduct(name: string, quantity: int, unitPrice: real, totalValue: int)

  function TotalValue(p: TopProduct): int { p.totalValue }

  /** The product row `i` contributes, if its quantity and price are both positive. */
  function ProductAt(js: Js, row: Row, i: nat, cols: Columns): Option<TopProduct>
    requires cols.quantity.Some? && cols.price.Some?
  {
    var qty := ReadNumber(js, row, cols.quantity.value);
    var price := ReadNumber(js, row, cols.price.value);
    if qty.Some? && price.Some? && qty.value > 0.0 && price.value > 0.0 then
      Some(TopProduct(ProductName(js, row, cols.product, i), Round(qty.value), Cents(price.value), Round(Times(qty.value, price.value))))
    else None
  }

  /** Every product, in row order, before sorting. */
  function Products(js: Js, data: seq<Row>, cols: Columns): seq<TopProduct>
    requires cols.quantity.Some? && cols.price.Some?
  {
    if data == [] then []
    else
      var n := |data| - 1;
      var p := ProductAt(js, data[n], n, cols);
      Products(js, data[..n], cols) + if p.Some? then [p.value] else []
  }

  /** What `generateRealTopProducts(data, ...)` returns. */
  function TopProductsOf(js: Js, data: seq<Row>, cols: Columns): seq<TopProduct>
  {
    if cols.quantity.None? || cols.price.None? then []
    else Take(SortDesc(Products(js, data, cols), TotalValue), MaxTopProducts)
  }

  /** One more row adds its product, if any, at the end. */
  lemma ProductsSnoc(js: Js, data: seq<Row>, i: nat, cols: Columns)
    requires cols.quantity.Some? && cols.price.Some? && i < |data|
    ensures Products(js, data[..i + 1], cols) == Products(js, data[..i], cols)
      + (var p := ProductAt(js, data[i], i, cols); if p.Some? then [p.value] else [])
  {
    assert data[..i + 1][..i] == data[..i];
  }

  /** `generateRealTopProducts`: one pass pushing products, then a sort by value and the first ten. */
  method GenerateTopProducts(js: Js, data: seq<Row>, cols: Columns) returns (top: seq<TopProduct>)
    ensures top == TopProductsOf(js, data, cols)
  {
    if cols.quantity.None? || cols.price.None? {
      return [];
    }
    var products: seq<TopProduct> := [];
    for i := 0 to |data|
      invariant products == Products(js, data[..i], cols)
    {
      ProductsSnoc(js, data, i, cols);
      var row := data[i];
      var qty := ReadNumber(js, row, cols.quantity.value);
      var price := ReadNumber(js, row, cols.price.value);
      var productName := ProductName(js, row, cols.product, i);
      if qty.Some? && price.Some? && qty.value > 0.0 && price.value > 0.0 {
        var product := TopProduct(productName, Round(qty.value), Cents(price.value), Round(Times(qty.value, price.value)));
        assert ProductAt(js, row, i, cols) == Some(product);
        products := products + [product];
      }
    }
    assert data[..|data|] == data;
    top := Take(SortDesc(products, TotalValue), MaxTopProducts);
  }

  /** Every product comes from a row whose quantity and price both read as positive numbers, and has a non-negative value. */
  lemma {:induction false} ProductsMeaning(js: Js, data: seq<Row>, cols: Columns)
    requires cols.quantity.Some? && cols.price.Some?
    ensures forall p :: p in Products(js, data, cols) ==>
      p.totalValue >= 0 && exists i :: 0 <= i < |data| && ProductAt(js, data[i], i, cols) == Some(p)
  {
    if data != [] {
      var n := |data| - 1;
      var init := data[..n];
      ProductsMeaning(js, init, cols);
      var last := ProductAt(js, data[n], n, cols);
      assert Products(js, data, cols) == Products(js, init, cols) + (if last.Some? then [last.value] else []);
      forall p | p in Products(js, data, cols)
        ensures p.totalValue >= 0 && exists i :: 0 <= i < |data| && ProductAt(js, data[i], i, cols) == Some(p)
      {
        if p in Products(js, init, cols) {
          var i :| 0 <= i < |init| && ProductAt(js, init[i], i, cols) == Some(p);
          assert init[i] == data[i];
        } else {
          assert last == Some(p);
          ProductValueNonNegative(js, data[n], n, cols);
        }
      }
    }
  }

  lemma ProductValueNonNegative(js: Js, row: Row, i: nat, cols: Columns)
    requires cols.quantity.Some? && cols.price.Some?
    ensures ProductAt(js, row, i, cols).Some? ==> ProductAt(js, row, i, cols).value.totalValue >= 0
  {
    var p := ProductAt(js, row, i, cols);
    if p.Some? {
      var qty := ReadNumber(js, row, cols.quantity.value).value;
      var price := ReadNumber(js, row, cols.price.value).value;
      assert p.value.totalValue == Round(Times(qty, price));
      RoundOfPositiveProduct(qty, price);
    }
  }

  lemma RoundOfPositiveProduct(a: real, b: real)
    requires a > 0.0 && b > 0.0
    ensures Round(Times(a, b)) >= 0
  {
    PositiveProduct(a, b);
  }

  /**
   * At most ten products are reported (all of them when there are fewer), none
   * without both columns, by non-increasing value, each one a product of the
   * rows, and no product left out is worth more than one kept.  Among equal values the kept
   * products are the first ones in row order, as the stable sort leaves them.
   */
  lemma TopProductsMeaning(js: Js, data: seq<Row>, cols: Columns)
    ensures cols.quantity.None? || cols.price.None? ==> TopProductsOf(js, data, cols) == []
    ensures cols.quantity.Some? && cols.price.Some? ==>
      var products, top := Products(js, data, cols), TopProductsOf(js, data, cols);
      && |top| <= MaxTopProducts
      && |top| == (if |products| < MaxTopProducts then |products| else MaxTopProducts)
      && SortedDesc(top, TotalValue)
      && multiset(top) <= multiset(products)
      && (forall y, x :: y in top && x in multiset(products) - multiset(top) ==> x.totalValue <= y.totalValue)
      && (forall v :: WithKey(top, TotalValue, v) <= WithKey(products, TotalValue, v))
  {
    if cols.quantity.Some? && cols.price.Some? {
      var products := Products(js, data, cols);
      var top := Take(SortDesc(products, TotalValue), MaxTopProducts);
      assert TopProductsOf(js, data, cols) == top;
      TopOfSorted(products, TotalValue, MaxTopProducts);
      forall y: TopProduct, x: TopProduct | y in top && x in multiset(products) - multiset(top) ensures x.totalValue <= y.totalValue {
        assert TotalValue(x) <= TotalValue(y);
      }
    }
  }

  // ---------------------------------------------------------------- the analysis record

  datatype Summary = Summary(
    totalProducts: nat,
    totalInventoryValue: int,
    lowStockCount: nat,
    outOfStockCount: nat,
    totalRows: nat,
    totalColumns: nat,
    numericColumns: nat,
    categoricalColumns: nat,
    dateColumns: nat,
    duplicatesRemoved: nat,
    missingValuesTotal: nat)

  /** `completeness` is `None` where the division gives `NaN` or `Infinity`, which JSON stores as `null`. */
  datatype DataQuality = DataQuality(completeness: Option<real>, duplicatesRemoved: nat, rowsProcessed: nat)

  /** The JSON record stored in `eda_results`, without its `last_updated` clock reading. */
  datatype InventoryAnalysis = InventoryAnalysis(
    summary: Summary,
    stockStatus: StockStatus,
    categoryDistribution: seq<(string, nat)>,
    supplierDistribution: seq<(string, nat)>,
    topProductsByValue: seq<TopProduct>,
    lowStockAlerts: seq<Alert>,
    columnTypes: seq<(string, ColumnType)>,
    missingValues: seq<(string, nat)>,
    numericStatistics: seq<(string, NumericStats)>,
    categoricalStatistics: seq<(string, CategoricalStats)>,
    derivedFeatures: seq<string>,
    dataQuality: DataQuality)

  /** `((totalRows - missing) / (totalRows * totalColumns)) * 100`, as written. */
  function Completeness(totalRows: nat, totalColumns: nat, missing: nat): Option<real>
  {
    if totalRows * totalColumns == 0 then None
    else Some((totalRows as real - missing as real) / (totalRows * totalColumns) as real * 100.0)
  }

  /**
   * The completeness formula subtracts the missing cells from the rows, not
   * from the cells: with nothing missing it reports 100 divided by the
   * number of columns, so 100 only for a single column.
   */
  lemma CompletenessWithNothingMissing(totalRows: nat, totalColumns: nat)
    requires totalRows > 0 && totalColumns > 0
    ensures Completeness(totalRows, totalColumns, 0) == Some(100.0 / totalColumns as real)
    ensures totalColumns > 1 ==> Completeness(totalRows, totalColumns, 0).value < 100.0
  {
    var r, c := totalRows as real, totalColumns as real;
    assert (totalRows * totalColumns) as real == r * c;
    assert r / (r * c) == 1.0 / c by {
      assert (1.0 / c) * (r * c) == r * ((1.0 / c) * c);
    }
    assert r / (r * c) * 100.0 == 100.0 / c;
    if c > 1.0 {
      assert 100.0 / c * c == 100.0;
    }
  }

  /** What `generateRealInventoryAnalysis(rawData, stats, transformResult)` returns; it fails on no data. */
  function AnalysisOf(js: Js, rawData: seq<Row>, result: TransformationResult): Result<InventoryAnalysis>
  {
    if rawData == [] then Failure("No data to analyze")
    else
      var cols := DetectedColumns(rawData);
      var stock := StockStatusOf(js, rawData, cols.quantity, cols.reorder);
      var stats := result.statistics;
      var missing := Total(stats.missingValues);
      Success(InventoryAnalysis(
        Summary(|rawData|, InventoryValueOf(js, rawData, cols.quantity, cols.price),
          stock.lowStockCount, stock.outOfStockCount, stats.totalRows, stats.totalColumns,
          |result.numericColumns|, |result.categoricalColumns|, |result.dateColumns|,
          result.duplicatesRemoved, missing),
        stock,
        DistributionOf(js, rawData, cols.category, Uncategorized),
        DistributionOf(js, rawData, cols.supplier, UnknownSupplier),
        TopProductsOf(js, rawData, cols),
        LowStockAlertsOf(js, rawData, cols),
        stats.columnTypes, stats.missingValues, stats.numericStats, stats.categoricalStats,
        result.derivedFeatures,
        DataQuality(Completeness(stats.totalRows, stats.totalColumns, missing), result.duplicatesRemoved, result.rowsProcessed)))
  }

  /** `generateRealInventoryAnalysis`: the column search, then each analysis in turn. */
  method GenerateInventoryAnalysis(js: Js, rawData: seq<Row>, result: TransformationResult)
    returns (analysis: Result<InventoryAnalysis>)
    ensures analysis == AnalysisOf(js, rawData, result)
  {
    if |rawData| == 0 {
      return Failure("No data to analyze");
    }
    var cols := DetectedColumns(rawData);
    var stockAnalysis := AnalyzeStockStatus(js, rawData, cols.quantity, cols.reorder);
    var categoryDistribution := AnalyzeCategoryDistribution(js, rawData, cols.category);
    var supplierDistribution := AnalyzeSupplierDistribution(js, rawData, cols.supplier);
    var inventoryValue := CalculateInventoryValue(js, rawData, cols.quantity, cols.price);
    var lowStockAlerts := GenerateLowStockAlerts(js, rawData, cols);
    var topProductsByValue := GenerateTopProducts(js, rawData, cols);
    var stats := result.statistics;
    var missingValuesTotal := Total(stats.missingValues);
    analysis := Success(InventoryAnalysis(
      Summary(|rawData|, inventoryValue, stockAnalysis.lowStockCount, stockAnalysis.outOfStockCount,
        stats.totalRows, stats.totalColumns, |result.numericColumns|, |result.categoricalColumns|,
        |result.dateColumns|, result.duplicatesRemoved, missingValuesTotal),
      stockAnalysis, categoryDistribution, supplierDistribution, topProductsByValue, lowStockAlerts,
      stats.columnTypes, stats.missingValues, stats.numericStats, stats.categoricalStats,
      result.derivedFeatures,
      DataQuality(Completeness(stats.totalRows, stats.totalColumns, missingValuesTotal),
        result.duplicatesRemoved, result.rowsProcessed)));
  }

  /**
   * The analysis fails exactly on no data.  Otherwise it counts every raw
   * record as a product, its stock status agrees with its summary, the
   * inventory value is never negative, and the alert and top-product lists
   * respect their caps.
   */
  lemma AnalysisMeaning(js: Js, rawData: seq<Row>, result: TransformationResult)
    ensures AnalysisOf(js, rawData, result).Failure? <==> rawData == []
    ensures AnalysisOf(js, rawData, result).Failure? ==> AnalysisOf(js, rawData, result).error == "No data to analyze"
    ensures AnalysisOf(js, rawData, result).Success? ==>
      var a := AnalysisOf(js, rawData, result).value;
      && a.summary.totalProducts == |rawData|
      && a.summary.lowStockCount == a.stockStatus.lowStockCount
      && a.summary.outOfStockCount == a.stockStatus.outOfStockCount
      && a.summary.totalInventoryValue >= 0
      && |a.lowStockAlerts| <= MaxAlerts
      && |a.topProductsByValue| <= MaxTopProducts
      && a.dataQuality.duplicatesRemoved == a.summary.duplicatesRemoved
  {
    if rawData != [] {
      var cols := DetectedColumns(rawData);
      InventoryValueMeaning(js, rawData, cols.quantity, cols.price);
      LowStockAlertsCapped(js, rawData, cols);
      TopProductsMeaning(js, rawData, cols);
    }
  }
}
