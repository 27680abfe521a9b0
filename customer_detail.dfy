/**
 * The customer detail page: its `load` guard and the activity chart that
 * joins the invoice trend and the delivery trend on the period label.
 *
 * The `label` field of the source's records is spelled `period` here
 * (`label` is a Dafny keyword).
 */
module CustomerDetail {
  import opened Wrappers
  import opened DetailPage

  const InvalidIdMessage: string := "Invalid customer id"
  const FailureMessage: string := "Failed to load customer"

  /** A bucket of a count trend. */
  datatype TrendPoint = TrendPoint(period: string, count: int)

  /** A row of the activity chart. */
  datatype ActivityRow = ActivityRow(period: string, invoices: int, deliveries: int)

  /** The part of the customer detail the activity chart reads. */
  datatype CustomerTrends = CustomerTrends(invoiceTrend: seq<TrendPoint>, deliveryTrend: seq<TrendPoint>)

  function LoadCustomer(id: PageId): (r: LoadStart<CustomerTrends>)
    ensures id.NotInteger? ==> r == Rejected(Failed(InvalidIdMessage))
    ensures id.IntegerId? ==> r == Issued(id.n, Loading)
  {
    StartLoad(id, InvalidIdMessage)
  }

  function CustomerLoaded(outcome: Result<CustomerTrends, Option<string>>): (r: DetailState<CustomerTrends>)
    ensures outcome.Failure? && outcome.error.None? ==> r == Failed(FailureMessage)
    ensures outcome.Failure? && outcome.error.Some? ==> r == Failed(outcome.error.value)
    ensures outcome.Success? ==> r == Ready(outcome.value)
  {
    FinishLoad(outcome, FailureMessage)
  }

  /**
   * The last bucket of a trend with the given label. For the invoice trend
   * it is the index `labelIndex` holds, a later entry of the `Map`
   * overwriting an earlier one; for the delivery trend it is the bucket
   * whose count is written last.
   */
  function LastIndexOf(trend: seq<TrendPoint>, period: string): (r: Option<nat>)
    ensures r.None? <==> forall k :: 0 <= k < |trend| ==> trend[k].period != period
    ensures r.Some? ==>
      && r.value < |trend| && trend[r.value].period == period
      && forall k :: r.value < k < |trend| ==> trend[k].period != period
  {
    if trend == [] then None
    else if trend[|trend| - 1].period == period then Some(|trend| - 1)
    else LastIndexOf(trend[..|trend| - 1], period)
  }

  /**
   * The row the chart shows for invoice bucket `i`: its label and count, and
   * the count of the last delivery bucket with that label, but only on the
   * last invoice bucket with the label.
   */
  function InvoiceRow(invoices: seq<TrendPoint>, deliveries: seq<TrendPoint>, i: nat): (r: ActivityRow)
    requires i < |invoices|
    ensures r.period == invoices[i].period && r.invoices == invoices[i].count
    ensures (exists m :: i < m < |invoices| && invoices[m].period == invoices[i].period) ==> r.deliveries == 0
    ensures (forall k :: 0 <= k < |deliveries| ==> deliveries[k].period != invoices[i].period) ==> r.deliveries == 0
    ensures r.deliveries != 0 ==>
      exists k ::
        && 0 <= k < |deliveries| && deliveries[k].period == invoices[i].period && deliveries[k].count == r.deliveries
        && forall m :: k < m < |deliveries| ==> deliveries[m].period != invoices[i].period
    ensures (forall m :: i < m < |invoices| ==> invoices[m].period != invoices[i].period) ==>
      forall k ::
        (&& 0 <= k < |deliveries| && deliveries[k].period == invoices[i].period
         && forall m :: k < m < |deliveries| ==> deliveries[m].period != invoices[i].period)
        ==> r.deliveries == deliveries[k].count
  {
    var p := invoices[i];
    var delivered :=
      if LastIndexOf(invoices, p.period) == Some(i) then
        match LastIndexOf(deliveries, p.period)
        case Some(j) => deliveries[j].count
        case None => 0
      else 0;
    ActivityRow(p.period, p.count, delivered)
  }

  /** The delivery buckets whose label no invoice bucket has, as chart rows, in order. */
  function Appended(invoices: seq<TrendPoint>, deliveries: seq<TrendPoint>): (r: seq<ActivityRow>)
    ensures |r| <= |deliveries|
    ensures forall j :: 0 <= j < |r| ==> r[j].invoices == 0
  {
    if deliveries == [] then []
    else
      var d := deliveries[|deliveries| - 1];
      Appended(invoices, deliveries[..|deliveries| - 1]) +
        (if LastIndexOf(invoices, d.period).None? then [ActivityRow(d.period, 0, d.count)] else [])
  }

  /** The positions of the delivery buckets whose label no invoice bucket has, in increasing order. */
  function NewLabelIndices(invoices: seq<TrendPoint>, deliveries: seq<TrendPoint>): (r: seq<nat>)
    ensures forall j :: 0 <= j < |r| ==> r[j] < |deliveries| && LastIndexOf(invoices, deliveries[r[j]].period).None?
    ensures forall i, j :: 0 <= i < j < |r| ==> r[i] < r[j]
    ensures forall k :: 0 <= k < |deliveries| && LastIndexOf(invoices, deliveries[k].period).None? ==> k in r
  {
    if deliveries == [] then []
    else
      var n := |deliveries| - 1;
      var init := deliveries[..n];
      assert forall k :: 0 <= k < n ==> init[k] == deliveries[k];
      NewLabelIndices(invoices, init) + (if LastIndexOf(invoices, deliveries[n].period).None? then [n] else [])
  }

  /** How many delivery buckets carry a label no invoice bucket has. */
  function AbsentCount(invoices: seq<TrendPoint>, deliveries: seq<TrendPoint>): nat {
    if deliveries == [] then 0
    else
      AbsentCount(invoices, deliveries[1..]) +
        (if LastIndexOf(invoices, deliveries[0].period).None? then 1 else 0)
  }

  /**
   * The merged series, stated without the loop: one row per invoice bucket
   * (its deliveries filled in when it is the last bucket with its label),
   * then one row per delivery bucket whose label is new.
   */
  function MergedActivity(invoices: seq<TrendPoint>, deliveries: seq<TrendPoint>): (r: seq<ActivityRow>)
    ensures |r| >= |invoices|
    ensures forall i :: 0 <= i < |invoices| ==> r[i] == InvoiceRow(invoices, deliveries, i)
    ensures r[|invoices|..] == Appended(invoices, deliveries)
  {
    InvoiceRows(invoices, deliveries) + Appended(invoices, deliveries)
  }

  function InvoiceRows(invoices: seq<TrendPoint>, deliveries: seq<TrendPoint>): (r: seq<ActivityRow>)
    ensures |r| == |invoices|
    ensures forall i :: 0 <= i < |invoices| ==> r[i] == InvoiceRow(invoices, deliveries, i)
  {
    seq(|invoices|, i requires 0 <= i < |invoices| => InvoiceRow(invoices, deliveries, i))
  }

  /** The chart's data for a page state: nothing until the detail is ready. */
  function ActivityOf(state: DetailState<CustomerTrends>): (r: seq<ActivityRow>)
    ensures !state.Ready? ==> r == []
    ensures state.Ready? ==> |r| >= |state.data.invoiceTrend|
  {
    if state.Ready? then MergedActivity(state.data.invoiceTrend, state.data.deliveryTrend) else []
  }

  lemma LastIndexSnoc(trend: seq<TrendPoint>, d: TrendPoint, period: string)
    ensures LastIndexOf(trend + [d], period) == if d.period == period then Some(|trend|) else LastIndexOf(trend, period)
  {
    assert (trend + [d])[..|trend|] == trend;
  }

  /** One more delivery bucket changes at most the deliveries of the last invoice row with its label. */
  lemma InvoiceRowStep(invoices: seq<TrendPoint>, deliveries: seq<TrendPoint>, d: TrendPoint, i: nat)
    requires i < |invoices|
    ensures InvoiceRow(invoices, deliveries + [d], i) ==
      if LastIndexOf(invoices, d.period) == Some(i) then InvoiceRow(invoices, deliveries, i).(deliveries := d.count)
      else InvoiceRow(invoices, deliveries, i)
  {
    LastIndexSnoc(deliveries, d, invoices[i].period);
    assert (deliveries + [d])[|deliveries|] == d;
  }

  lemma AppendedSnoc(invoices: seq<TrendPoint>, deliveries: seq<TrendPoint>, d: TrendPoint)
    ensures Appended(invoices, deliveries + [d]) ==
      Appended(invoices, deliveries) + (if LastIndexOf(invoices, d.period).None? then [ActivityRow(d.period, 0, d.count)] else [])
  {
    assert (deliveries + [d])[..|deliveries|] == deliveries;
  }

  /** A delivery bucket whose label an invoice bucket has: the last such invoice row takes its count. */
  lemma MergeStepMatched(invoices: seq<TrendPoint>, deliveries: seq<TrendPoint>, d: TrendPoint, idx: nat)
    requires LastIndexOf(invoices, d.period) == Some(idx)
    ensures var before := MergedActivity(invoices, deliveries);
      idx < |before| && MergedActivity(invoices, deliveries + [d]) == before[idx := before[idx].(deliveries := d.count)]
  {
    var before, after := MergedActivity(invoices, deliveries), MergedActivity(invoices, deliveries + [d]);
    AppendedSnoc(invoices, deliveries, d);
    var rowsBefore, rowsAfter := InvoiceRows(invoices, deliveries), InvoiceRows(invoices, deliveries + [d]);
    forall i | 0 <= i < |invoices|
      ensures rowsAfter[i] == rowsBefore[idx := rowsBefore[idx].(deliveries := d.count)][i]
    {
      InvoiceRowStep(invoices, deliveries, d, i);
    }
    assert rowsAfter == rowsBefore[idx := rowsBefore[idx].(deliveries := d.count)];
  }

  /** A delivery bucket with a label no invoice bucket has appends a row. */
  lemma MergeStepNew(invoices: seq<TrendPoint>, deliveries: seq<TrendPoint>, d: TrendPoint)
    requires LastIndexOf(invoices, d.period).None?
    ensures MergedActivity(invoices, deliveries + [d]) == MergedActivity(invoices, deliveries) + [ActivityRow(d.period, 0, d.count)]
  {
    AppendedSnoc(invoices, deliveries, d);
    var rowsBefore, rowsAfter := InvoiceRows(invoices, deliveries), InvoiceRows(invoices, deliveries + [d]);
    forall i | 0 <= i < |invoices|
      ensures rowsAfter[i] == rowsBefore[i]
    {
      InvoiceRowStep(invoices, deliveries, d, i);
    }
    assert rowsAfter == rowsBefore;
  }

  /** The `activityData` memo: copy the invoice buckets, index their labels, fold in the deliveries. */
  method ActivityData(state: DetailState<CustomerTrends>) returns (rows: seq<ActivityRow>)
    ensures rows == ActivityOf(state)
  {
    if !state.Ready? {
      return [];
    }
    var invoices, deliveries := state.data.invoiceTrend, state.data.deliveryTrend;
    rows := seq(|invoices|, i requires 0 <= i < |invoices| => ActivityRow(invoices[i].period, invoices[i].count, 0));
    assert rows == MergedActivity(invoices, []);

    var labelIndex: map<string, nat> := map[];
    for i := 0 to |invoices|
      invariant forall p :: p in labelIndex <==> LastIndexOf(invoices[..i], p).Some?
      invariant forall p :: p in labelIndex ==> LastIndexOf(invoices[..i], p) == Some(labelIndex[p])
    {
      assert invoices[..i + 1][..i] == invoices[..i];
      labelIndex := labelIndex[invoices[i].period := i];
    }
    assert invoices[..|invoices|] == invoices;

    for k := 0 to |deliveries|
      invariant rows == MergedActivity(invoices, deliveries[..k])
    {
      var item := deliveries[k];
      assert deliveries[..k + 1] == deliveries[..k] + [item];
      if item.period in labelIndex {
        var idx := labelIndex[item.period];
        MergeStepMatched(invoices, deliveries[..k], item, idx);
        rows := rows[idx := rows[idx].(deliveries := item.count)];
      } else {
        MergeStepNew(invoices, deliveries[..k], item);
        rows := rows + [ActivityRow(item.period, 0, item.count)];
      }
    }
    assert deliveries[..|deliveries|] == deliveries;
  }

  lemma {:induction false} AppendedLength(invoices: seq<TrendPoint>, deliveries: seq<TrendPoint>)
    ensures |Appended(invoices, deliveries)| == AbsentCount(invoices, deliveries)
  {
    if deliveries != [] {
      var n := |deliveries|;
      var init := deliveries[..n - 1];
      AppendedLength(invoices, init);
      AbsentCountSnoc(invoices, init, deliveries[n - 1]);
      assert init + [deliveries[n - 1]] == deliveries;
    }
  }

  lemma {:induction false} AbsentCountSnoc(invoices: seq<TrendPoint>, deliveries: seq<TrendPoint>, d: TrendPoint)
    ensures AbsentCount(invoices, deliveries + [d]) ==
      AbsentCount(invoices, deliveries) + (if LastIndexOf(invoices, d.period).None? then 1 else 0)
  {
    if deliveries != [] {
      assert (deliveries + [d])[1..] == deliveries[1..] + [d];
      AbsentCountSnoc(invoices, deliveries[1..], d);
    } else {
      assert (deliveries + [d])[1..] == [];
    }
  }

  /** One row per invoice bucket plus one per delivery bucket with an unseen label. */
  lemma MergedLength(invoices: seq<TrendPoint>, deliveries: seq<TrendPoint>)
    ensures |MergedActivity(invoices, deliveries)| == |invoices| + AbsentCount(invoices, deliveries)
  {
    AppendedLength(invoices, deliveries);
  }

  /**
   * The first rows are the invoice buckets, labels and counts unchanged;
   * a bucket with no delivery under its label keeps 0 deliveries.
   */
  lemma InvoiceRowsKept(invoices: seq<TrendPoint>, deliveries: seq<TrendPoint>, i: nat)
    requires i < |invoices|
    ensures var r := MergedActivity(invoices, deliveries);
      && i < |r|
      && r[i].period == invoices[i].period && r[i].invoices == invoices[i].count
      && ((forall k :: 0 <= k < |deliveries| ==> deliveries[k].period != invoices[i].period) ==> r[i].deliveries == 0)
  {
  }

  /**
   * Over the whole series, the delivery count a label shows sits on the last
   * invoice row with that label and is the count of the last delivery
   * bucket with that label; every other invoice row with the label shows 0.
   */
  lemma LastDeliveryWins(invoices: seq<TrendPoint>, deliveries: seq<TrendPoint>, i: nat, k: nat)
    requires i < |invoices| && k < |deliveries| && deliveries[k].period == invoices[i].period
    requires forall m :: k < m < |deliveries| ==> deliveries[m].period != invoices[i].period
    ensures var r := MergedActivity(invoices, deliveries);
      && i < |r|
      && r[i].deliveries == if LastIndexOf(invoices, invoices[i].period) == Some(i) then deliveries[k].count else 0
  {
    var r := MergedActivity(invoices, deliveries);
    assert r[i] == InvoiceRow(invoices, deliveries, i);
    var last := LastIndexOf(invoices, invoices[i].period);
    if last != Some(i) {
      assert i < last.value;
    }
  }

  /**
   * A delivery bucket whose label an invoice bucket has adds no row and
   * sets the deliveries of the last invoice row with that label.
   */
  lemma MatchedDeliveryAddsNoRow(invoices: seq<TrendPoint>, deliveries: seq<TrendPoint>, d: TrendPoint, i: nat)
    requires i < |invoices| && invoices[i].period == d.period
    ensures |MergedActivity(invoices, deliveries + [d])| == |MergedActivity(invoices, deliveries)|
    ensures exists j ::
      && 0 <= j < |invoices| && invoices[j].period == d.period
      && (forall m :: j < m < |invoices| ==> invoices[m].period != d.period)
      && MergedActivity(invoices, deliveries + [d])[j] == ActivityRow(d.period, invoices[j].count, d.count)
  {
    var j := LastIndexOf(invoices, d.period).value;
    MergeStepMatched(invoices, deliveries, d, j);
    InvoiceRowsKept(invoices, deliveries, j);
  }

  /**
   * Every appended row comes from a delivery bucket whose label no invoice
   * bucket has, with 0 invoices and that bucket's count.
   */
  lemma {:induction false} AppendedRowsFromNewLabels(invoices: seq<TrendPoint>, deliveries: seq<TrendPoint>, j: nat)
    requires j < |Appended(invoices, deliveries)|
    ensures var row := Appended(invoices, deliveries)[j];
      && row.invoices == 0
      && (forall k :: 0 <= k < |invoices| ==> invoices[k].period != row.period)
      && TrendPoint(row.period, row.deliveries) in deliveries
  {
    var n := |deliveries|;
    var init := deliveries[..n - 1];
    if j < |Appended(invoices, init)| {
      AppendedRowsFromNewLabels(invoices, init, j);
    }
  }

  /**
   * The appended rows are the delivery buckets with a new label, one row
   * each, in delivery-trend order: row `j` comes from the `j`-th such bucket.
   */
  lemma {:induction false} AppendedFollowsDeliveries(invoices: seq<TrendPoint>, deliveries: seq<TrendPoint>)
    ensures var rows, idx := Appended(invoices, deliveries), NewLabelIndices(invoices, deliveries);
      && |rows| == |idx|
      && forall j :: 0 <= j < |rows| ==>
        rows[j] == ActivityRow(deliveries[idx[j]].period, 0, deliveries[idx[j]].count)
  {
    if deliveries != [] {
      var n := |deliveries| - 1;
      var init := deliveries[..n];
      AppendedFollowsDeliveries(invoices, init);
      var before, idxBefore := Appended(invoices, init), NewLabelIndices(invoices, init);
      var rows, idx := Appended(invoices, deliveries), NewLabelIndices(invoices, deliveries);
      assert rows[..|before|] == before && idx[..|idxBefore|] == idxBefore;
      forall j | 0 <= j < |before|
        ensures rows[j] == ActivityRow(deliveries[idx[j]].period, 0, deliveries[idx[j]].count)
      {
        assert rows[j] == before[j] && idx[j] == idxBefore[j];
        assert init[idx[j]] == deliveries[idx[j]];
      }
    }
  }
}
