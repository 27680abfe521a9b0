/**
 * The product detail page: its `load` guard, the inbound/outbound split of
 * the stock ledger, and when the margin percentage is shown at all.
 */
module ProductDetail {
  import opened Wrappers
  import opened DetailPage

  const InvalidIdMessage: string := "Invalid product id"
  const FailureMessage: string := "Failed to load product"

  /**
   * The kinds of ledger event. `Draw` is rendered by the page although the
   * shared `StockMovement` type lists only the other four.
   */
  datatype MovementKind = Purchase | Delivery | Adjustment | Match | Draw

  /** One ledger event; outbound events carry a negative quantity. */
  datatype StockMovement = StockMovement(date: string, kind: MovementKind, qty: int, description: Option<string>, ref: Option<string>)

  /** The product totals the page derives a percentage from. */
  datatype ProductTotals = ProductTotals(revenue: real, margin: real)

  /** The part of the product detail this model reads. */
  datatype ProductFigures = ProductFigures(totals: ProductTotals, stockMovements: seq<StockMovement>)

  datatype StockTotals = StockTotals(inbound: int, outbound: int)

  function LoadProduct(id: PageId): (r: LoadStart<ProductFigures>)
    ensures id.NotInteger? ==> r == Rejected(Failed(InvalidIdMessage))
    ensures id.IntegerId? ==> r == Issued(id.n, Loading)
  {
    StartLoad(id, InvalidIdMessage)
  }

  function ProductLoaded(outcome: Result<ProductFigures, Option<string>>): (r: DetailState<ProductFigures>)
    ensures outcome.Failure? && outcome.error.None? ==> r == Failed(FailureMessage)
    ensures outcome.Failure? && outcome.error.Some? ==> r == Failed(outcome.error.value)
    ensures outcome.Success? ==> r == Ready(outcome.value)
  {
    FinishLoad(outcome, FailureMessage)
  }

  /** The sum of the non-negative quantities: zero exactly when nothing came in. */
  function Inbound(moves: seq<StockMovement>): (r: nat)
    ensures r == 0 <==> forall k :: 0 <= k < |moves| ==> moves[k].qty <= 0
  {
    if moves == [] then 0
    else
      assert forall k :: 1 <= k < |moves| ==> moves[k] == moves[1..][k - 1];
      (if moves[0].qty >= 0 then moves[0].qty else 0) + Inbound(moves[1..])
  }

  /** The sum of the magnitudes of the negative quantities: zero exactly when nothing went out. */
  function Outbound(moves: seq<StockMovement>): (r: nat)
    ensures r == 0 <==> forall k :: 0 <= k < |moves| ==> moves[k].qty >= 0
  {
    if moves == [] then 0
    else
      assert forall k :: 1 <= k < |moves| ==> moves[k] == moves[1..][k - 1];
      (if moves[0].qty < 0 then -moves[0].qty else 0) + Outbound(moves[1..])
  }

  /** The net change of stock over the ledger. */
  function NetQty(moves: seq<StockMovement>): int {
    if moves == [] then 0 else moves[0].qty + NetQty(moves[1..])
  }

  /** The two totals the page shows: zero until the detail is ready. */
  function StockTotalsOf(state: DetailState<ProductFigures>): (r: StockTotals)
    ensures r.inbound >= 0 && r.outbound >= 0
    ensures !state.Ready? ==> r == StockTotals(0, 0)
    ensures state.Ready? ==> r.inbound - r.outbound == NetQty(state.data.stockMovements)
  {
    if state.Ready? then
      InboundMinusOutbound(state.data.stockMovements);
      StockTotals(Inbound(state.data.stockMovements), Outbound(state.data.stockMovements))
    else StockTotals(0, 0)
  }

  /** One more movement raises exactly one total, by the movement's magnitude. */
  lemma {:induction false} AppendMovement(moves: seq<StockMovement>, m: StockMovement)
    ensures Inbound(moves + [m]) == Inbound(moves) + (if m.qty >= 0 then m.qty else 0)
    ensures Outbound(moves + [m]) == Outbound(moves) + (if m.qty < 0 then -m.qty else 0)
  {
    if moves != [] {
      assert (moves + [m])[1..] == moves[1..] + [m];
      AppendMovement(moves[1..], m);
    } else {
      assert (moves + [m])[1..] == [];
    }
  }

  /** What goes in minus what goes out is the net movement. */
  lemma {:induction false} InboundMinusOutbound(moves: seq<StockMovement>)
    ensures Inbound(moves) - Outbound(moves) == NetQty(moves)
  {
    if moves != [] {
      InboundMinusOutbound(moves[1..]);
    }
  }

  /** The `stockTotals` memo: a reduce that adds each movement to one of two accumulators. */
  method ComputeStockTotals(state: DetailState<ProductFigures>) returns (totals: StockTotals)
    ensures totals == StockTotalsOf(state)
    ensures totals.inbound >= 0 && totals.outbound >= 0
  {
    if !state.Ready? {
      return StockTotals(0, 0);
    }
    var moves := state.data.stockMovements;
    var inbound, outbound := 0, 0;
    for k := 0 to |moves|
      invariant inbound == Inbound(moves[..k]) && outbound == Outbound(moves[..k])
    {
      var move := moves[k];
      AppendMovement(moves[..k], move);
      assert moves[..k + 1] == moves[..k] + [move];
      if move.qty >= 0 {
        inbound := inbound + move.qty;
      } else {
        outbound := outbound + (-move.qty);
      }
    }
    assert moves[..|moves|] == moves;
    totals := StockTotals(inbound, outbound);
  }

  /** An empty ledger, or no ledger yet, shows zero both ways. */
  lemma NoMovementsNoTotals(state: DetailState<ProductFigures>)
    requires !state.Ready? || state.data.stockMovements == []
    ensures StockTotalsOf(state) == StockTotals(0, 0)
  {
  }

  /**
   * The margin percentage: absent until the detail is ready and when there
   * is no revenue; otherwise margin over revenue (at least 1) times 100.
   */
  function MarginPercent(state: DetailState<ProductFigures>): (r: Option<real>)
    ensures r.None? <==> !state.Ready? || state.data.totals.revenue == 0.0
    ensures r.Some? && state.data.totals.revenue >= 1.0 ==>
      r.value * state.data.totals.revenue == state.data.totals.margin * 100.0
    ensures r.Some? && state.data.totals.revenue < 1.0 ==>
      r.value == state.data.totals.margin * 100.0
  {
    if !state.Ready? then None
    else if state.data.totals.revenue == 0.0 then None
    else
      var revenue := state.data.totals.revenue;
      var denominator := if revenue > 1.0 then revenue else 1.0;
      Some(state.data.totals.margin / denominator * 100.0)
  }
}
