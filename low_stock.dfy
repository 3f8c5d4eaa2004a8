/** The dashboard's low-stock list: the store returns the products with a positive alert,
    by ascending stock; the component keeps those at or below their alert and shows the
    first five. */
module LowStock {

  import opened Common
  import opened Remote
  import DashboardStats

  const LIMIT := 5

  /** The server-side condition `min_stock_alert > 0`; a missing alert never matches. */
  predicate HasAlert(p: Product) {
    p.min_stock_alert.Some? && p.min_stock_alert.value > 0.0
  }

  /** The client-side condition `current_stock <= min_stock_alert`, where a missing alert
      compares as zero. */
  predicate AtOrBelowAlert(p: Product) {
    p.current_stock <= OrZero(p.min_stock_alert)
  }

  predicate AscendingStock(rows: seq<Product>) {
    forall i, j :: 0 <= i < j < |rows| ==> rows[i].current_stock <= rows[j].current_stock
  }

  /** What the query may answer for a products table: exactly its rows with an alert, in
      some order of ascending stock (ties in any order). */
  predicate ServerAnswer(products: seq<Product>, rows: seq<Product>) {
    multiset(rows) == multiset(Filter(products, HasAlert)) && AscendingStock(rows)
  }

  /** The list the component keeps; a query error empties it. */
  function Listed(q: Query<Product>): (r: seq<Product>)
    ensures |r| <= LIMIT
    ensures q.QueryError? ==> r == []
  {
    if q.QueryError? then [] else Take(Filter(q.rows, AtOrBelowAlert), LIMIT)
  }

  lemma {:induction false} FilterKeepsAscending(rows: seq<Product>)
    requires AscendingStock(rows)
    ensures AscendingStock(Filter(rows, AtOrBelowAlert))
  {
    if |rows| > 0 {
      assert AscendingStock(rows[1..]);
      FilterKeepsAscending(rows[1..]);
      var rest := Filter(rows[1..], AtOrBelowAlert);
      if AtOrBelowAlert(rows[0]) {
        assert Filter(rows, AtOrBelowAlert) == [rows[0]] + rest;
        forall k | 0 <= k < |rest|
          ensures rows[0].current_stock <= rest[k].current_stock
        {
          var m :| 0 <= m < |rows[1..]| && rows[1..][m] == rest[k];
          assert rows[m + 1] == rest[k];
        }
      } else {
        assert Filter(rows, AtOrBelowAlert) == [] + rest;
      }
    }
  }

  /** Given a server answer, every listed product is one of the store's products and is
      low in the dashboard's sense: a positive alert and stock at or below it. */
  lemma ListedAreLow(products: seq<Product>, rows: seq<Product>)
    requires ServerAnswer(products, rows)
    ensures var listed := Listed(Rows(rows));
      forall i :: 0 <= i < |listed| ==> DashboardStats.IsLowStock(listed[i]) && listed[i] in products
  {
    var listed := Listed(Rows(rows));
    forall i | 0 <= i < |listed|
      ensures DashboardStats.IsLowStock(listed[i]) && listed[i] in products
    {
      var x := listed[i];
      assert x in Filter(rows, AtOrBelowAlert);
      assert x in multiset(rows);
      assert x in multiset(Filter(products, HasAlert));
      assert x in Filter(products, HasAlert);
    }
  }

  /** The list keeps the query's order, and is the start of it: a qualifying row left out
      has at least the stock of every listed product. */
  lemma ListedAreLowest(rows: seq<Product>)
    requires AscendingStock(rows)
    ensures var listed := Listed(Rows(rows));
      && AscendingStock(listed)
      && SubsequenceOf(listed, rows)
      && forall j :: 0 <= j < |rows| && AtOrBelowAlert(rows[j]) && rows[j] !in listed ==>
           forall i :: 0 <= i < |listed| ==> listed[i].current_stock <= rows[j].current_stock
  {
    var f := Filter(rows, AtOrBelowAlert);
    var listed := Listed(Rows(rows));
    FilterKeepsAscending(rows);
    FilterIsSubsequence(rows, AtOrBelowAlert);
    PrefixSubsequence(f, rows, |listed|);
    assert listed == f[..|listed|];
    forall j | 0 <= j < |rows| && AtOrBelowAlert(rows[j]) && rows[j] !in listed
      ensures forall i :: 0 <= i < |listed| ==> listed[i].current_stock <= rows[j].current_stock
    {
      var k :| 0 <= k < |f| && f[k] == rows[j];
    }
  }

  /** When at most five rows qualify, all of them are listed. */
  lemma FewAllListed(rows: seq<Product>)
    requires |Filter(rows, AtOrBelowAlert)| <= LIMIT
    ensures forall j :: 0 <= j < |rows| && AtOrBelowAlert(rows[j]) ==> rows[j] in Listed(Rows(rows))
  {
  }

  /** The list and the summary card agree: given a server answer, the list holds as many
      products as the low-stock count, capped at five. */
  lemma ListedMatchesCount(products: seq<Product>, rows: seq<Product>)
    requires ServerAnswer(products, rows)
    ensures |Listed(Rows(rows))| == if DashboardStats.LowStockCount(products) < LIMIT then DashboardStats.LowStockCount(products) else LIMIT
  {
    var withAlert := Filter(products, HasAlert);
    FilterPermutation(rows, withAlert, AtOrBelowAlert);
    FilterMultiset(products, HasAlert);
    FilterMultiset(withAlert, AtOrBelowAlert);
    FilterMultiset(products, DashboardStats.IsLowStock);
    assert multiset(Filter(withAlert, AtOrBelowAlert)) == multiset(Filter(products, DashboardStats.IsLowStock));
    assert |multiset(Filter(withAlert, AtOrBelowAlert))| == |multiset(Filter(products, DashboardStats.IsLowStock))|;
  }

  /** The list component. */
  class Widget {
    var products: seq<Product>
    var loading: bool

    constructor ()
      ensures products == [] && loading
    {
      products, loading := [], true;
    }

    method Fetch(q: Query<Product>)
      modifies this
      ensures products == Listed(q) && !loading
    {
      loading := true;
      if q.QueryError? {
        products := [];
      } else {
        products := Take(Filter(q.rows, AtOrBelowAlert), LIMIT);
      }
      loading := false;
    }
  }
}
