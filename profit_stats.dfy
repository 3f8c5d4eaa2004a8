/** The profit cards: all-time and today's profit, and the average margin. The selected
    columns may be null, and a null counts as zero. The store's answers are inputs; the
    date window of "today" is not part of this model. */
module ProfitStats {

  import opened Common
  import opened Remote

  /** The two selected columns of a sales row, each possibly null. */
  datatype Row = Row(total_amount: Option<real>, total_profit: Option<real>)

  datatype Stats = Stats(totalProfit: real, todayProfit: real, avgMargin: real)

  const INITIAL := Stats(0.0, 0.0, 0.0)

  function Profit(r: Row): real {
    OrZero(r.total_profit)
  }

  function Revenue(r: Row): real {
    OrZero(r.total_amount)
  }

  /** The row a stored sale answers with. */
  function RowsOf(sales: seq<Sale>): (r: seq<Row>)
    ensures |r| == |sales|
    ensures forall i :: 0 <= i < |r| ==> r[i] == Row(Some(sales[i].total_amount), Some(sales[i].total_profit))
  {
    seq(|sales|, i requires 0 <= i < |sales| => Row(Some(sales[i].total_amount), Some(sales[i].total_profit)))
  }

  /** The average margin, in percent: defined through the ratio when there is revenue,
      and exactly zero otherwise. */
  function Margin(profit: real, revenue: real): (m: real)
    ensures revenue > 0.0 ==> m * revenue == 100.0 * profit
    ensures revenue <= 0.0 ==> m == 0.0
  {
    if revenue > 0.0 then (profit / revenue) * 100.0 else 0.0
  }

  /** With revenue, the margin has the sign of the profit, and a profit not above the
      revenue gives a margin of at most one hundred. */
  lemma MarginBounds(profit: real, revenue: real)
    requires revenue > 0.0
    ensures profit >= 0.0 <==> Margin(profit, revenue) >= 0.0
    ensures profit <= revenue <==> Margin(profit, revenue) <= 100.0
  {
    var m := Margin(profit, revenue);
    assert m * revenue == 100.0 * profit;
    if m < 0.0 {
      assert m * revenue < 0.0;
    }
    if m > 100.0 {
      assert m * revenue > 100.0 * revenue;
    }
  }

  function Compute(all: seq<Row>, today: seq<Row>): Stats {
    Stats(SumOf(all, Profit), SumOf(today, Profit), Margin(SumOf(all, Profit), SumOf(all, Revenue)))
  }

  /** A row with both columns null changes none of the figures. */
  lemma NullRowCountsAsZero(all: seq<Row>, today: seq<Row>)
    ensures Compute(all + [Row(None, None)], today + [Row(None, None)]) == Compute(all, today)
  {
    SumOfAppend(all, [Row(None, None)], Profit);
    SumOfAppend(all, [Row(None, None)], Revenue);
    SumOfAppend(today, [Row(None, None)], Profit);
  }

  /** When every sale's profit lies between zero and its amount, the average margin lies
      between 0 and 100. */
  lemma SalesMarginBounded(sales: seq<Sale>, today: seq<Row>)
    requires forall i :: 0 <= i < |sales| ==> 0.0 <= sales[i].total_profit <= sales[i].total_amount
    ensures 0.0 <= Compute(RowsOf(sales), today).avgMargin <= 100.0
  {
    var rows := RowsOf(sales);
    SumOfBetween(rows, Profit, Revenue);
    if SumOf(rows, Revenue) > 0.0 {
      MarginBounds(SumOf(rows, Profit), SumOf(rows, Revenue));
    }
  }

  /** The card component. */
  class Widget {
    var stats: Stats
    var loading: bool

    constructor ()
      ensures stats == INITIAL && loading
    {
      stats, loading := INITIAL, true;
    }

    /** `fetchStats`: both queries answered, or the figures stay as they were. */
    method FetchStats(all: Query<Row>, today: Query<Row>)
      modifies this
      ensures all.Rows? && today.Rows? ==> stats == Compute(all.rows, today.rows)
      ensures all.QueryError? || today.QueryError? ==> stats == old(stats)
      ensures !loading
    {
      loading := true;
      if all.QueryError? || today.QueryError? {
        loading := false;
        return;
      }
      stats := Compute(all.rows, today.rows);
      loading := false;
    }
  }
}
