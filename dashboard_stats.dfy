/** The three figures of the dashboard's summary cards: all-time sales, today's sales and
    the number of products at or below their stock alert. The store's answers to the three
    queries are inputs; the date window of "today" is a predicate on sales. */
module DashboardStats {

  import opened Common
  import opened Remote
  import Ledger

  datatype Stats = Stats(totalSales: real, todaySales: real, lowStockCount: nat)

  const INITIAL := Stats(0.0, 0.0, 0)

  function Amount(s: Sale): real {
    s.total_amount
  }

  /** The low-stock test: an alert above zero, and stock at or below it. A missing or zero
      alert never counts. */
  predicate IsLowStock(p: Product) {
    p.min_stock_alert.Some? && p.min_stock_alert.value > 0.0 && p.current_stock <= p.min_stock_alert.value
  }

  function LowStockCount(products: seq<Product>): nat {
    |Filter(products, IsLowStock)|
  }

  /** The figures computed from three successful answers. */
  function Compute(all: seq<Sale>, today: seq<Sale>, products: seq<Product>): Stats {
    Stats(SumOf(all, Amount), SumOf(today, Amount), LowStockCount(products))
  }

  /** The count never exceeds the number of products, and counts exactly the low ones:
      it grows by one with a low product and is untouched by any other. */
  lemma {:induction false} LowStockCountStep(products: seq<Product>, p: Product)
    ensures LowStockCount(products) <= |products|
    ensures LowStockCount(products + [p]) == LowStockCount(products) + (if IsLowStock(p) then 1 else 0)
  {
    FilterAppend(products, [p], IsLowStock);
    assert Filter([p], IsLowStock) == (if IsLowStock(p) then [p] else []) + Filter([p][1..], IsLowStock);
  }

  /** An alert of zero is never low, even with no stock; a product exactly at a positive
      alert is. */
  lemma AlertBoundary(p: Product)
    ensures p.min_stock_alert == Some(0.0) ==> !IsLowStock(p)
    ensures p.min_stock_alert.Some? && p.min_stock_alert.value > 0.0 && p.current_stock == p.min_stock_alert.value
      ==> IsLowStock(p)
  {
  }

  /** When today's answer is the all-time rows within a date window and no sale has a
      negative amount, today's figure never exceeds the all-time figure. */
  lemma TodayAtMostTotal(all: seq<Sale>, inWindow: Sale -> bool, products: seq<Product>)
    requires forall i :: 0 <= i < |all| ==> all[i].total_amount >= 0.0
    ensures var st := Compute(all, Filter(all, inWindow), products);
      0.0 <= st.todaySales <= st.totalSales
  {
    SumOfFilter(all, inWindow, Amount);
    var today := Filter(all, inWindow);
    SumOfBetween(today, (s: Sale) => 0.0, Amount);
  }

  /** A recorded sale adds its header's amount to the all-time figure; a sale whose items
      failed and whose header was deleted again leaves it as it was. */
  lemma RecordedSalesCounted(db: Db, header: Sale, rows: seq<SaleItem>, f: Ledger.Faults)
    requires db.Valid()
    ensures var out := Ledger.RecordSale(db, header, rows, f);
      && (out.out.Recorded? ==> SumOf(out.db.sales, Amount) == SumOf(db.sales, Amount) + header.total_amount)
      && (out.out == Ledger.ItemsFailed(true) ==> SumOf(out.db.sales, Amount) == SumOf(db.sales, Amount))
  {
    var out := Ledger.RecordSale(db, header, rows, f);
    if out.out.Recorded? {
      Ledger.RecordSaleSuccess(db, header, rows, f);
      SumOfAppend(db.sales, [header.(id := db.nextId)], Amount);
    } else if out.out == Ledger.ItemsFailed(true) {
      Ledger.RecordSaleCompensates(db, header, rows, f);
    }
  }

  /** A sale whose items failed and whose compensating delete also failed is still counted,
      although no item row belongs to it. */
  lemma OrphanedSaleCounted(db: Db, header: Sale, rows: seq<SaleItem>, f: Ledger.Faults)
    requires Ledger.RecordSale(db, header, rows, f).out == Ledger.ItemsFailed(false)
    ensures var d := Ledger.RecordSale(db, header, rows, f).db;
      SumOf(d.sales, Amount) == SumOf(db.sales, Amount) + header.total_amount && d.saleItems == db.saleItems
  {
    Ledger.RecordSaleOrphan(db, header, rows, f);
    SumOfAppend(db.sales, [header.(id := db.nextId)], Amount);
  }

  /** The card component. */
  class Widget {
    var stats: Stats
    var loading: bool

    constructor ()
      ensures stats == INITIAL && loading
    {
      stats, loading := INITIAL, true;
    }

    /** `fetchStats`: all three queries answered, or the figures stay as they were. */
    method FetchStats(all: Query<Sale>, today: Query<Sale>, products: Query<Product>)
      modifies this
      ensures all.Rows? && today.Rows? && products.Rows? ==> stats == Compute(all.rows, today.rows, products.rows)
      ensures all.QueryError? || today.QueryError? || products.QueryError? ==> stats == old(stats)
      ensures !loading
    {
      loading := true;
      if all.QueryError? || today.QueryError? || products.QueryError? {
        loading := false;
        return;
      }
      stats := Compute(all.rows, today.rows, products.rows);
      loading := false;
    }
  }
}
