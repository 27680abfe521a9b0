/**
 * The supplier detail page's "top products" chart: the per-product weekly
 * points are pivoted into one row per period label with one column per
 * product, and each product gets a series entry coloured from a palette of ten.
 *
 * The `label` field of the source's records is spelled `period` here
 * (`label` is a Dafny keyword). A row's `product-<id>` keys are modelled
 * as a map keyed by the product id, and the series config as the ordered
 * list of its entries.
 */
module SupplierDetail {
  import opened Wrappers
  import opened DetailPage

  const InvalidIdMessage: string := "Invalid supplier id"
  const FailureMessage: string := "Failed to load supplier"

  datatype QtyPoint = QtyPoint(period: string, qty: int)

  /** One product's quantity in one period; the quantity may be missing. */
  datatype TopProductPoint = TopProductPoint(period: string, qty: Option<int>, productId: int, productName: string)

  /** The part of the supplier detail the chart reads. */
  datatype SupplierTrends = SupplierTrends(qtyTrend: seq<QtyPoint>, topProductTrends: seq<TopProductPoint>)

  /** A chart row: its period label and the quantity of each product present in it. */
  datatype ChartRow = ChartRow(period: string, columns: map<int, int>)

  /** The legend entry of one product's series. */
  datatype SeriesConfig = SeriesConfig(productId: int, name: string, color: string)

  datatype TopProductChart = TopProductChart(data: seq<ChartRow>, config: seq<SeriesConfig>)

  const Palette: seq<string> := [
    "var(--chart-1)", "var(--chart-2)", "var(--chart-3)", "var(--chart-4)", "var(--chart-5)",
    "var(--chart-6)", "var(--chart-7)", "var(--chart-8)", "var(--chart-9)", "var(--chart-10)"
  ]

  /** The colour of the `i`-th legend entry: the palette, cycled. */
  function ColorAt(i: nat): (r: string)
    ensures r in Palette
  {
    Palette[i % |Palette|]
  }

  function LoadSupplier(id: PageId): (r: LoadStart<SupplierTrends>)
    ensures id.NotInteger? ==> r == Rejected(Failed(InvalidIdMessage))
    ensures id.IntegerId? ==> r == Issued(id.n, Loading)
  {
    StartLoad(id, InvalidIdMessage)
  }

  function SupplierLoaded(outcome: Result<SupplierTrends, Option<string>>): (r: DetailState<SupplierTrends>)
    ensures outcome.Failure? && outcome.error.None? ==> r == Failed(FailureMessage)
    ensures outcome.Failure? && outcome.error.Some? ==> r == Failed(outcome.error.value)
    ensures outcome.Success? ==> r == Ready(outcome.value)
  {
    FinishLoad(outcome, FailureMessage)
  }

  // ---------------------------------------------------------------------
  // Text of an integer, for the default product name

  function DigitChar(d: int): char
    requires 0 <= d < 10
  {
    "0123456789"[d]
  }

  function NatToDecimal(n: nat): (r: string)
    ensures |r| >= 1
  {
    if n < 10 then [DigitChar(n)] else NatToDecimal(n / 10) + [DigitChar(n % 10)]
  }

  /** `String(n)` for an integer. */
  function IntToDecimal(n: int): string {
    if n < 0 then "-" + NatToDecimal(-n) else NatToDecimal(n)
  }

  // ---------------------------------------------------------------------
  // The specification of the pivot

  /** The position where `x` first appears in `s`. */
  function FirstIndex<T(==)>(s: seq<T>, x: T): (r: nat)
    requires x in s
    ensures r < |s| && s[r] == x
    ensures forall k :: 0 <= k < r ==> s[k] != x
  {
    if s[0] == x then 0
    else
      assert forall k :: 1 <= k < |s| ==> s[k] == s[1..][k - 1];
      1 + FirstIndex(s[1..], x)
  }

  /** Cutting a list after some element leaves that element's first position where it was. */
  lemma FirstIndexPrefix<T(!new)>(s: seq<T>, n: nat)
    requires n <= |s|
    ensures forall y :: y in s[..n] ==> FirstIndex(s, y) == FirstIndex(s[..n], y)
  {
    forall y | y in s[..n]
      ensures FirstIndex(s, y) == FirstIndex(s[..n], y)
    {
      var b := FirstIndex(s[..n], y);
      assert s[..n][b] == s[b];
    }
  }

  /**
   * The elements of `s` without repeats, each where it first appears (a
   * JavaScript `Set` or the keys of a `Map`, in insertion order).
   */
  function Distinct<T(==,!new)>(s: seq<T>): (r: seq<T>)
    ensures forall x :: x in r <==> x in s
    ensures forall i, j :: 0 <= i < j < |r| ==> r[i] != r[j]
    ensures forall i, j :: 0 <= i < j < |r| ==> FirstIndex(s, r[i]) < FirstIndex(s, r[j])
  {
    if s == [] then []
    else
      var n := |s| - 1;
      var r := Distinct(s[..n]);
      var x := s[n];
      assert forall y :: y in s <==> y in s[..n] || y == x;
      FirstIndexPrefix(s, n);
      if x in r then r
      else
        r + [x]
  }

  lemma {:induction false} DistinctSnoc<T(!new)>(s: seq<T>, x: T)
    ensures Distinct(s + [x]) == if x in s then Distinct(s) else Distinct(s) + [x]
  {
    assert (s + [x])[..|s|] == s;
  }

  /** Deduplicating a longer list only adds at the end: what came first stays first. */
  lemma {:induction false} DistinctPrefix<T(!new)>(a: seq<T>, b: seq<T>)
    ensures Distinct(a) <= Distinct(a + b)
  {
    if b != [] {
      var init := b[..|b| - 1];
      DistinctPrefix(a, init);
      assert a + b == (a + init) + [b[|b| - 1]];
      DistinctSnoc(a + init, b[|b| - 1]);
    } else {
      assert a + b == a;
    }
  }

  function QtyPeriods(trend: seq<QtyPoint>): (r: seq<string>)
    ensures |r| == |trend| && forall i :: 0 <= i < |trend| ==> r[i] == trend[i].period
  {
    seq(|trend|, i requires 0 <= i < |trend| => trend[i].period)
  }

  function PointPeriods(points: seq<TopProductPoint>): (r: seq<string>)
    ensures |r| == |points| && forall i :: 0 <= i < |points| ==> r[i] == points[i].period
  {
    seq(|points|, i requires 0 <= i < |points| => points[i].period)
  }

  function PointIds(points: seq<TopProductPoint>): (r: seq<int>)
    ensures |r| == |points| && forall i :: 0 <= i < |points| ==> r[i] == points[i].productId
  {
    seq(|points|, i requires 0 <= i < |points| => points[i].productId)
  }

  /** The chart's period labels: the quantity trend's, then new ones from the points. */
  function ChartPeriods(trends: SupplierTrends): seq<string> {
    Distinct(QtyPeriods(trends.qtyTrend) + PointPeriods(trends.topProductTrends))
  }

  /** `Number(point.qty ?? 0)`. */
  function QtyOrZero(p: TopProductPoint): (r: int)
    ensures p.qty == Some(r) || (p.qty.None? && r == 0)
  {
    if p.qty.Some? then p.qty.value else 0
  }

  /** The product columns of the row for `period`, the later point winning on a repeated product. */
  function Columns(points: seq<TopProductPoint>, period: string): (m: map<int, int>)
    ensures forall id :: id in m <==>
      exists k :: 0 <= k < |points| && points[k].period == period && points[k].productId == id
  {
    if points == [] then map[]
    else
      var init := points[..|points| - 1];
      var p := points[|points| - 1];
      var m := Columns(init, period);
      assert forall k :: 0 <= k < |init| ==> init[k] == points[k];
      if p.period == period then m[p.productId := QtyOrZero(p)] else m
  }

  /** A product's legend name from one point: its name, or "Product <id>" when that is empty. */
  function PointName(p: TopProductPoint): (r: string)
    ensures r != ""
    ensures p.productName != "" ==> r == p.productName
    ensures p.productName == "" ==> r == "Product " + IntToDecimal(p.productId)
  {
    if p.productName == "" then "Product " + IntToDecimal(p.productId) else p.productName
  }

  /**
   * The point whose name the `products` map ends up with for a product:
   * its last point, a later entry of the `Map` overwriting an earlier one.
   */
  function LastPointOf(points: seq<TopProductPoint>, id: int): (r: Option<nat>)
    ensures r.None? <==> forall k :: 0 <= k < |points| ==> points[k].productId != id
    ensures r.Some? ==>
      && r.value < |points| && points[r.value].productId == id
      && forall m :: r.value < m < |points| ==> points[m].productId != id
  {
    if points == [] then None
    else if points[|points| - 1].productId == id then Some(|points| - 1)
    else LastPointOf(points[..|points| - 1], id)
  }

  lemma LastPointSnoc(points: seq<TopProductPoint>, p: TopProductPoint, id: int)
    ensures LastPointOf(points + [p], id) == if p.productId == id then Some(|points|) else LastPointOf(points, id)
    ensures LegendName(points + [p], id) == if p.productId == id then PointName(p) else LegendName(points, id)
  {
    assert (points + [p])[..|points|] == points;
    assert (points + [p])[|points|] == p;
    if p.productId != id && LastPointOf(points, id).Some? {
      var k := LastPointOf(points, id).value;
      assert (points + [p])[k] == points[k];
    }
  }

  /** Writing a point's name over its product's entry keeps the names map in step with the points. */
  lemma NamesSnoc(points: seq<TopProductPoint>, p: TopProductPoint, names: map<int, string>)
    requires forall id :: id in names <==> LastPointOf(points, id).Some?
    requires forall id :: id in names ==> names[id] == LegendName(points, id)
    ensures var after := names[p.productId := PointName(p)];
      && (forall id :: id in after <==> LastPointOf(points + [p], id).Some?)
      && (forall id :: id in after ==> after[id] == LegendName(points + [p], id))
  {
    forall id {
      LastPointSnoc(points, p, id);
    }
  }

  /** The legend name of a product: that of its last point. */
  function LegendName(points: seq<TopProductPoint>, id: int): string {
    var k := LastPointOf(points, id);
    if k.Some? then PointName(points[k.value]) else ""
  }

  /** The legend: one entry per product in first-appearance order, colours cycling through the palette. */
  function Config(points: seq<TopProductPoint>): (r: seq<SeriesConfig>)
    ensures |r| == |Distinct(PointIds(points))|
    ensures forall i :: 0 <= i < |r| ==> r[i].productId == Distinct(PointIds(points))[i] && r[i].color == ColorAt(i)
    ensures forall i, j :: 0 <= i < j < |r| ==> r[i].productId != r[j].productId
    ensures forall k :: 0 <= k < |points| ==> exists i :: 0 <= i < |r| && r[i].productId == points[k].productId
  {
    var ids := Distinct(PointIds(points));
    var r := seq(|ids|, i requires 0 <= i < |ids| => SeriesConfig(ids[i], LegendName(points, ids[i]), ColorAt(i)));
    assert forall k :: 0 <= k < |points| ==> points[k].productId in ids by {
      forall k | 0 <= k < |points|
        ensures points[k].productId in ids
      {
        assert PointIds(points)[k] == points[k].productId;
      }
    }
    r
  }

  /** The chart as the memo computes it, stated without its loops. */
  function ChartOf(state: DetailState<SupplierTrends>): (r: TopProductChart)
    ensures !state.Ready? || state.data.topProductTrends == [] ==> r == TopProductChart([], [])
    ensures state.Ready? && state.data.topProductTrends != [] ==>
      && r.data != [] && r.config != []
      && |r.data| == |ChartPeriods(state.data)|
      && forall i :: 0 <= i < |r.data| ==> r.data[i].period == ChartPeriods(state.data)[i]
  {
    if !state.Ready? || state.data.topProductTrends == [] then TopProductChart([], [])
    else
      var points := state.data.topProductTrends;
      var periods := ChartPeriods(state.data);
      TopProductChart(
        seq(|periods|, i requires 0 <= i < |periods| => ChartRow(periods[i], Columns(points, periods[i]))),
        Config(points))
  }

  // ---------------------------------------------------------------------
  // The memo itself

  /** `new Map(points.map(p => [p.productId, name]))`: keys in insertion order, the last name per key. */
  method ProductNames(points: seq<TopProductPoint>) returns (order: seq<int>, names: map<int, string>)
    ensures order == Distinct(PointIds(points))
    ensures forall id :: id in names <==> id in order
    ensures forall id :: id in names ==> names[id] == LegendName(points, id)
  {
    order, names := [], map[];
    for k := 0 to |points|
      invariant order == Distinct(PointIds(points[..k]))
      invariant forall id :: id in names <==> LastPointOf(points[..k], id).Some?
      invariant forall id :: id in names ==> names[id] == LegendName(points[..k], id)
    {
      var p := points[k];
      assert points[..k + 1] == points[..k] + [p];
      assert PointIds(points[..k + 1]) == PointIds(points[..k]) + [p.productId];
      DistinctSnoc(PointIds(points[..k]), p.productId);
      NamesSnoc(points[..k], p, names);
      if p.productId !in order {
        order := order + [p.productId];
      }
      names := names[p.productId := PointName(p)];
    }
    assert points[..|points|] == points;
  }

  /** `Array.from(new Set(labels))`. */
  method DistinctPeriods(all: seq<string>) returns (periods: seq<string>)
    ensures periods == Distinct(all)
  {
    periods := [];
    for k := 0 to |all|
      invariant periods == Distinct(all[..k])
    {
      assert all[..k + 1] == all[..k] + [all[k]];
      DistinctSnoc(all[..k], all[k]);
      if all[k] !in periods {
        periods := periods + [all[k]];
      }
    }
    assert all[..|all|] == all;
  }

  /** The `rows` map: one empty row per label, then each point writes its product's column. */
  method PivotRows(periods: seq<string>, points: seq<TopProductPoint>) returns (rows: map<string, ChartRow>)
    requires forall k :: 0 <= k < |points| ==> points[k].period in periods
    ensures forall l :: l in rows <==> l in periods
    ensures forall l :: l in rows ==> rows[l] == ChartRow(l, Columns(points, l))
  {
    rows := map[];
    for k := 0 to |periods|
      invariant forall l :: l in rows <==> l in periods[..k]
      invariant forall l :: l in rows ==> rows[l] == ChartRow(l, map[])
    {
      rows := rows[periods[k] := ChartRow(periods[k], map[])];
    }
    assert periods[..|periods|] == periods;
    for k := 0 to |points|
      invariant forall l :: l in rows <==> l in periods
      invariant forall l :: l in rows ==> rows[l] == ChartRow(l, Columns(points[..k], l))
    {
      var p := points[k];
      assert points[..k + 1][..k] == points[..k];
      var row := if p.period in rows then rows[p.period] else ChartRow(p.period, map[]);
      row := row.(columns := row.columns[p.productId := QtyOrZero(p)]);
      rows := rows[p.period := row];
    }
    assert points[..|points|] == points;
  }

  /** `labels.map(label => rows.get(label))`. */
  method RowsInOrder(periods: seq<string>, points: seq<TopProductPoint>, rows: map<string, ChartRow>) returns (data: seq<ChartRow>)
    requires forall l :: l in periods ==> l in rows && rows[l] == ChartRow(l, Columns(points, l))
    ensures data == seq(|periods|, i requires 0 <= i < |periods| => ChartRow(periods[i], Columns(points, periods[i])))
  {
    data := [];
    for k := 0 to |periods|
      invariant |data| == k
      invariant forall i :: 0 <= i < k ==> data[i] == ChartRow(periods[i], Columns(points, periods[i]))
    {
      data := data + [rows[periods[k]]];
    }
  }

  /** `products.reduce`: one legend entry per product, coloured by its index. */
  method LegendConfig(points: seq<TopProductPoint>, order: seq<int>, names: map<int, string>) returns (config: seq<SeriesConfig>)
    requires order == Distinct(PointIds(points))
    requires forall id :: id in order ==> id in names && names[id] == LegendName(points, id)
    ensures config == Config(points)
  {
    config := [];
    for k := 0 to |order|
      invariant |config| == k
      invariant forall i :: 0 <= i < k ==> config[i] == SeriesConfig(order[i], LegendName(points, order[i]), ColorAt(i))
    {
      var id := order[k];
      config := config + [SeriesConfig(id, names[id], ColorAt(k))];
    }
  }

  /** The `topProductChart` memo: the product map, the label set, the rows, then the legend. */
  method BuildTopProductChart(state: DetailState<SupplierTrends>) returns (chart: TopProductChart)
    ensures chart == ChartOf(state)
  {
    if !state.Ready? || |state.data.topProductTrends| == 0 {
      return TopProductChart([], []);
    }
    var points := state.data.topProductTrends;
    var productOrder, productNames := ProductNames(points);

    var all := QtyPeriods(state.data.qtyTrend) + PointPeriods(points);
    var periods := DistinctPeriods(all);
    forall k | 0 <= k < |points|
      ensures points[k].period in periods
    {
      assert all[|state.data.qtyTrend| + k] == points[k].period;
    }
    var rows := PivotRows(periods, points);
    var data := RowsInOrder(periods, points, rows);
    var config := LegendConfig(points, productOrder, productNames);
    chart := TopProductChart(data, config);
  }

  // ---------------------------------------------------------------------
  // Properties of the chart

  /**
   * The chart's labels, one row each (see `ChartOf`): no label twice, the
   * quantity trend's labels first, every point's label present, and no
   * label that neither series has.
   */
  lemma RowsPerLabel(trends: SupplierTrends)
    ensures var periods, qty, pts := ChartPeriods(trends), QtyPeriods(trends.qtyTrend), PointPeriods(trends.topProductTrends);
      && (forall i, j :: 0 <= i < j < |periods| ==> periods[i] != periods[j])
      && Distinct(qty) <= periods
      && (forall k :: 0 <= k < |trends.topProductTrends| ==> trends.topProductTrends[k].period in periods)
      && (forall l :: l in periods ==> l in qty || l in pts)
  {
    var qty, pts := QtyPeriods(trends.qtyTrend), PointPeriods(trends.topProductTrends);
    DistinctPrefix(qty, pts);
    var all := qty + pts;
    assert ChartPeriods(trends) == Distinct(all);
    forall k | 0 <= k < |trends.topProductTrends|
      ensures trends.topProductTrends[k].period in all
    {
      assert all[|qty| + k] == trends.topProductTrends[k].period;
    }
  }

  /** A point's quantity lands in its label's row under its product, unless a later point overwrites it. */
  lemma {:induction false} LastPointWins(points: seq<TopProductPoint>, k: nat)
    requires k < |points|
    requires forall m :: k < m < |points| ==>
      !(points[m].period == points[k].period && points[m].productId == points[k].productId)
    ensures points[k].productId in Columns(points, points[k].period)
    ensures Columns(points, points[k].period)[points[k].productId] == QtyOrZero(points[k])
  {
    var init := points[..|points| - 1];
    if k < |points| - 1 {
      assert forall m :: 0 <= m < |init| ==> init[m] == points[m];
      LastPointWins(init, k);
    }
  }

  /**
   * The legend has one entry per distinct product, in first-appearance
   * order, coloured `palette[i % 10]` and named after the product's last point.
   */
  lemma ConfigEntries(points: seq<TopProductPoint>, i: nat)
    requires i < |Distinct(PointIds(points))|
    ensures var ids, c := Distinct(PointIds(points)), Config(points)[i];
      && |Config(points)| == |ids|
      && c.productId == ids[i]
      && c.color == Palette[i % 10]
      && exists k ::
        && 0 <= k < |points| && points[k].productId == c.productId
        && c.name == PointName(points[k])
        && forall m :: k < m < |points| ==> points[m].productId != c.productId
  {
    var ids := Distinct(PointIds(points));
    assert ids[i] in PointIds(points);
    var k := LastPointOf(points, ids[i]).value;
    assert points[k].productId == ids[i];
  }

  /** The default legend name spelled out for one product. */
  lemma UnnamedProduct()
    ensures PointName(TopProductPoint("Wk 01", None, 42, "")) == "Product 42"
  {
    assert NatToDecimal(42) == "42";
  }
}
