/** The two-step write that the checkout dialog, the sale form and the purchase form share:
    insert a header row, then insert its line items in one batch, and when the batch
    fails delete that header again. The delete is awaited but its result is not looked at. */
module Ledger {

  import opened Common
  import opened Remote

  /** How a submission ended. `Invalid` is a form the schema refused (nothing is sent);
      `ItemsFailed(undone)` tells whether the compensating delete succeeded. */
  datatype Outcome = Invalid | NotAuthenticated | HeaderFailed | ItemsFailed(undone: bool) | Recorded(id: Id)

  /** Which of the three writes the service refuses. */
  datatype Faults = Faults(header: bool, items: bool, undo: bool)

  // ---- sales ----

  /** The line rows, each pointing at the header `id`. */
  function WithSaleId(rows: seq<SaleItem>, id: Id): (r: seq<SaleItem>)
    ensures |r| == |rows|
    ensures forall i :: 0 <= i < |r| ==> r[i] == rows[i].(sale_id := id)
  {
    seq(|rows|, i requires 0 <= i < |rows| => rows[i].(sale_id := id))
  }

  function RecordSale(db: Db, header: Sale, rows: seq<SaleItem>, f: Faults): Step<Outcome> {
    var h := db.InsertSale(header, f.header);
    if h.out.None? then Step(h.db, HeaderFailed)
    else
      var it := h.db.InsertSaleItems(WithSaleId(rows, h.out.value), f.items);
      if it.out then Step(it.db, Recorded(h.out.value))
      else
        var d := it.db.DeleteSale(h.out.value, f.undo);
        Step(d.db, ItemsFailed(d.out))
  }

  /** Which outcome each combination of refusals gives. */
  lemma RecordSaleOutcome(db: Db, header: Sale, rows: seq<SaleItem>, f: Faults)
    ensures RecordSale(db, header, rows, f).out == HeaderFailed <==> f.header
    ensures RecordSale(db, header, rows, f).out.Recorded? <==> !f.header && !f.items
    ensures RecordSale(db, header, rows, f).out.ItemsFailed? <==> !f.header && f.items
    ensures RecordSale(db, header, rows, f).out.ItemsFailed? ==> RecordSale(db, header, rows, f).out.undone == !f.undo
    ensures !RecordSale(db, header, rows, f).out.Invalid? && !RecordSale(db, header, rows, f).out.NotAuthenticated?
  {
  }

  /** A refused header leaves every table as it was and sends no items. */
  lemma RecordSaleHeaderFailure(db: Db, header: Sale, rows: seq<SaleItem>, f: Faults)
    requires RecordSale(db, header, rows, f).out == HeaderFailed
    ensures RecordSale(db, header, rows, f).db == db.(log := db.log + [Insert(Sales)])
    ensures Insert(SaleItems) !in RecordSale(db, header, rows, f).db.log[|db.log|..]
  {
    assert RecordSale(db, header, rows, f).db.log[|db.log|..] == [Insert(Sales)];
  }

  /** On success the header, with a fresh id, and one row per line pointing at it are
      appended; nothing else changes. */
  lemma RecordSaleSuccess(db: Db, header: Sale, rows: seq<SaleItem>, f: Faults)
    requires RecordSale(db, header, rows, f).out.Recorded?
    ensures RecordSale(db, header, rows, f).out.id == db.nextId
    ensures RecordSale(db, header, rows, f).db == db.(
      sales := db.sales + [header.(id := db.nextId)],
      saleItems := db.saleItems + WithSaleId(rows, db.nextId),
      nextId := db.nextId + 1,
      log := db.log + [Insert(Sales), Insert(SaleItems)])
  {
  }

  /** Removing rows with an id not yet handed out, after appending one with that id,
      gives the original rows back. */
  lemma {:induction false} UndoSaleInsert(sales: seq<Sale>, row: Sale, id: Id)
    requires forall i :: 0 <= i < |sales| ==> sales[i].id < id
    requires row.id == id
    ensures Filter(sales + [row], SaleIdIsNot(id)) == sales
  {
    FilterAppend(sales, [row], SaleIdIsNot(id));
    FilterAll(sales, SaleIdIsNot(id));
    assert Filter([row], SaleIdIsNot(id)) == [] + Filter([row][1..], SaleIdIsNot(id));
  }

  /** When the items are refused and the compensating delete succeeds, the sales and
      sale-item tables are exactly as before; only the id counter and the log moved. */
  lemma RecordSaleCompensates(db: Db, header: Sale, rows: seq<SaleItem>, f: Faults)
    requires db.Valid()
    requires RecordSale(db, header, rows, f).out == ItemsFailed(true)
    ensures RecordSale(db, header, rows, f).db == db.(
      nextId := db.nextId + 1,
      log := db.log + [Insert(Sales), Insert(SaleItems), Delete(Sales, db.nextId)])
  {
    UndoSaleInsert(db.sales, header.(id := db.nextId), db.nextId);
  }

  /** When the compensating delete is refused as well, the header stays without items. */
  lemma RecordSaleOrphan(db: Db, header: Sale, rows: seq<SaleItem>, f: Faults)
    requires RecordSale(db, header, rows, f).out == ItemsFailed(false)
    ensures RecordSale(db, header, rows, f).db.sales == db.sales + [header.(id := db.nextId)]
    ensures RecordSale(db, header, rows, f).db.saleItems == db.saleItems
  {
  }

  lemma RecordSaleKeepsValid(db: Db, header: Sale, rows: seq<SaleItem>, f: Faults)
    requires db.Valid()
    ensures RecordSale(db, header, rows, f).db.Valid()
  {
    var r := RecordSale(db, header, rows, f);
    if r.out == ItemsFailed(true) {
      RecordSaleCompensates(db, header, rows, f);
    }
  }

  // ---- purchases ----

  function WithPurchaseId(rows: seq<PurchaseItem>, id: Id): (r: seq<PurchaseItem>)
    ensures |r| == |rows|
    ensures forall i :: 0 <= i < |r| ==> r[i] == rows[i].(purchase_id := id)
  {
    seq(|rows|, i requires 0 <= i < |rows| => rows[i].(purchase_id := id))
  }

  function RecordPurchase(db: Db, header: Purchase, rows: seq<PurchaseItem>, f: Faults): Step<Outcome> {
    var h := db.InsertPurchase(header, f.header);
    if h.out.None? then Step(h.db, HeaderFailed)
    else
      var it := h.db.InsertPurchaseItems(WithPurchaseId(rows, h.out.value), f.items);
      if it.out then Step(it.db, Recorded(h.out.value))
      else
        var d := it.db.DeletePurchase(h.out.value, f.undo);
        Step(d.db, ItemsFailed(d.out))
  }

  lemma RecordPurchaseOutcome(db: Db, header: Purchase, rows: seq<PurchaseItem>, f: Faults)
    ensures RecordPurchase(db, header, rows, f).out == HeaderFailed <==> f.header
    ensures RecordPurchase(db, header, rows, f).out.Recorded? <==> !f.header && !f.items
    ensures RecordPurchase(db, header, rows, f).out.ItemsFailed? <==> !f.header && f.items
    ensures RecordPurchase(db, header, rows, f).out.ItemsFailed? ==> RecordPurchase(db, header, rows, f).out.undone == !f.undo
    ensures !RecordPurchase(db, header, rows, f).out.Invalid? && !RecordPurchase(db, header, rows, f).out.NotAuthenticated?
  {
  }

  lemma RecordPurchaseHeaderFailure(db: Db, header: Purchase, rows: seq<PurchaseItem>, f: Faults)
    requires RecordPurchase(db, header, rows, f).out == HeaderFailed
    ensures RecordPurchase(db, header, rows, f).db == db.(log := db.log + [Insert(Purchases)])
    ensures Insert(PurchaseItems) !in RecordPurchase(db, header, rows, f).db.log[|db.log|..]
  {
    assert RecordPurchase(db, header, rows, f).db.log[|db.log|..] == [Insert(Purchases)];
  }

  lemma RecordPurchaseSuccess(db: Db, header: Purchase, rows: seq<PurchaseItem>, f: Faults)
    requires RecordPurchase(db, header, rows, f).out.Recorded?
    ensures RecordPurchase(db, header, rows, f).out.id == db.nextId
    ensures RecordPurchase(db, header, rows, f).db == db.(
      purchases := db.purchases + [header.(id := db.nextId)],
      purchaseItems := db.purchaseItems + WithPurchaseId(rows, db.nextId),
      nextId := db.nextId + 1,
      log := db.log + [Insert(Purchases), Insert(PurchaseItems)])
  {
  }

  lemma {:induction false} UndoPurchaseInsert(purchases: seq<Purchase>, row: Purchase, id: Id)
    requires forall i :: 0 <= i < |purchases| ==> purchases[i].id < id
    requires row.id == id
    ensures Filter(purchases + [row], PurchaseIdIsNot(id)) == purchases
  {
    FilterAppend(purchases, [row], PurchaseIdIsNot(id));
    FilterAll(purchases, PurchaseIdIsNot(id));
    assert Filter([row], PurchaseIdIsNot(id)) == [] + Filter([row][1..], PurchaseIdIsNot(id));
  }

  lemma RecordPurchaseCompensates(db: Db, header: Purchase, rows: seq<PurchaseItem>, f: Faults)
    requires db.Valid()
    requires RecordPurchase(db, header, rows, f).out == ItemsFailed(true)
    ensures RecordPurchase(db, header, rows, f).db == db.(
      nextId := db.nextId + 1,
      log := db.log + [Insert(Purchases), Insert(PurchaseItems), Delete(Purchases, db.nextId)])
  {
    UndoPurchaseInsert(db.purchases, header.(id := db.nextId), db.nextId);
  }

  lemma RecordPurchaseOrphan(db: Db, header: Purchase, rows: seq<PurchaseItem>, f: Faults)
    requires RecordPurchase(db, header, rows, f).out == ItemsFailed(false)
    ensures RecordPurchase(db, header, rows, f).db.purchases == db.purchases + [header.(id := db.nextId)]
    ensures RecordPurchase(db, header, rows, f).db.purchaseItems == db.purchaseItems
  {
  }

  lemma RecordPurchaseKeepsValid(db: Db, header: Purchase, rows: seq<PurchaseItem>, f: Faults)
    requires db.Valid()
    ensures RecordPurchase(db, header, rows, f).db.Valid()
  {
    var r := RecordPurchase(db, header, rows, f);
    if r.out == ItemsFailed(true) {
      RecordPurchaseCompensates(db, header, rows, f);
    }
  }
}
