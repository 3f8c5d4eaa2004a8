/** The purchases card: the total cost of all purchases and how many there are. */
module PurchasesStats {

  import opened Common
  import opened Remote
  import Ledger

  datatype Stats = Stats(totalCost: real, purchaseCount: nat)

  const INITIAL := Stats(0.0, 0)

  function Cost(p: Purchase): real {
    p.total_cost
  }

  function Compute(rows: seq<Purchase>): Stats {
    Stats(SumOf(rows, Cost), |rows|)
  }

  /** The figures add up over a split of the rows, so they do not depend on how the
      store batches them; with no purchases they are the initial ones. */
  lemma ComputeAppend(a: seq<Purchase>, b: seq<Purchase>)
    ensures Compute(a + b) == Stats(Compute(a).totalCost + Compute(b).totalCost, Compute(a).purchaseCount + Compute(b).purchaseCount)
    ensures Compute([]) == INITIAL
  {
    SumOfAppend(a, b, Cost);
  }

  /** A recorded purchase adds its header's cost and one to the count; a compensated
      failure leaves both figures as they were. */
  lemma RecordedPurchasesCounted(db: Db, header: Purchase, rows: seq<PurchaseItem>, f: Ledger.Faults)
    requires db.Valid()
    ensures var out := Ledger.RecordPurchase(db, header, rows, f);
      && (out.out.Recorded? ==>
            Compute(out.db.purchases) == Stats(Compute(db.purchases).totalCost + header.total_cost, |db.purchases| + 1))
      && (out.out == Ledger.ItemsFailed(true) ==> Compute(out.db.purchases) == Compute(db.purchases))
  {
    var out := Ledger.RecordPurchase(db, header, rows, f);
    if out.out.Recorded? {
      Ledger.RecordPurchaseSuccess(db, header, rows, f);
      ComputeAppend(db.purchases, [header.(id := db.nextId)]);
      assert SumOf([header.(id := db.nextId)], Cost) == header.total_cost + SumOf([header.(id := db.nextId)][1..], Cost);
    } else if out.out == Ledger.ItemsFailed(true) {
      Ledger.RecordPurchaseCompensates(db, header, rows, f);
    }
  }

  /** The card component. */
  class Widget {
    var stats: Stats
    var loading: bool

    constructor ()
      ensures stats == INITIAL && loading
    {
      stats, loading := INITIAL, true;
    }

    /** An error leaves the figures as they were. */
    method FetchStats(q: Query<Purchase>)
      modifies this
      ensures q.Rows? ==> stats == Compute(q.rows)
      ensures q.QueryError? ==> stats == old(stats)
      ensures !loading
    {
      loading := true;
      if q.Rows? {
        stats := Stats(SumOf(q.rows, Cost), |q.rows|);
      }
      loading := false;
    }
  }
}
