/** The dashboard's purchase form: the line and purchase schemas, the product picker, the
    total cost, and the submission through the shared two-step write. */
module PurchaseForm {

  import opened Common
  import opened Remote
  import opened Ledger

  /** One entry of the `items` field array. */
  datatype Line = Line(product_id: Id, product_name: string, quantity: real, cost_per_item: real)

  /** The form's values; the purchase date is not part of this model. */
  datatype Values = Values(supplier_name: Option<string>, notes: Option<string>, items: seq<Line>)

  const DEFAULTS := Values(None, None, [])

  /** `purchaseItemSchema`: a positive whole quantity and no negative cost; unlike a sale
      line there is no stock bound. */
  predicate LineValid(l: Line) {
    IsInt(l.quantity) && l.quantity > 0.0 && l.cost_per_item >= 0.0
  }

  /** `purchaseSchema`: at least one line, every line valid. */
  predicate PurchaseValid(v: Values) {
    |v.items| >= 1 && forall i :: 0 <= i < |v.items| ==> LineValid(v.items[i])
  }

  /** The line appended when a product is picked; the picker lists every product. */
  function NewLine(p: Product): (l: Line)
    ensures l.product_id == p.id && l.quantity == 1.0 && l.cost_per_item == 0.0
  {
    Line(p.id, p.name, 1.0, 0.0)
  }

  /** Whatever product is picked, its new line passes the schema. */
  lemma PickedLineValid(p: Product)
    ensures LineValid(NewLine(p))
  {
  }

  function LineCost(l: Line): real {
    l.quantity * l.cost_per_item
  }

  /** `totalCost`, shown under the table and stored in the header. */
  function TotalCost(items: seq<Line>): real {
    SumOf(items, LineCost)
  }

  lemma TotalCostNonNegative(items: seq<Line>)
    requires forall i :: 0 <= i < |items| ==> LineValid(items[i])
    ensures TotalCost(items) >= 0.0
  {
    SumOfBetween(items, (l: Line) => 0.0, LineCost);
  }

  function Header(user: Id, v: Values): Purchase {
    Purchase(0, user, v.supplier_name, v.notes, TotalCost(v.items))
  }

  function ItemRows(items: seq<Line>): (r: seq<PurchaseItem>)
    ensures |r| == |items|
    ensures forall i :: 0 <= i < |r| ==>
      r[i].product_id == items[i].product_id && r[i].quantity == items[i].quantity &&
      r[i].cost_per_item == items[i].cost_per_item
  {
    seq(|items|, i requires 0 <= i < |items| =>
      PurchaseItem(0, items[i].product_id, items[i].quantity, items[i].cost_per_item))
  }

  function RowCost(row: PurchaseItem): real {
    row.quantity * row.cost_per_item
  }

  /** The header's total cost is the sum of quantity times cost over the rows written. */
  lemma {:induction false} RowsCost(items: seq<Line>, id: Id)
    ensures SumOf(WithPurchaseId(ItemRows(items), id), RowCost) == TotalCost(items)
  {
    if |items| > 0 {
      RowsCost(items[1..], id);
      assert WithPurchaseId(ItemRows(items), id)[1..] == WithPurchaseId(ItemRows(items[1..]), id);
    }
  }

  function SubmitEffect(db: Db, v: Values, getUserFails: bool, f: Faults): Step<Outcome> {
    if !PurchaseValid(v) then Step(db, Invalid)
    else
      var u := db.GetUser(getUserFails);
      if u.out.None? then Step(u.db, NotAuthenticated)
      else RecordPurchase(u.db, Header(u.out.value, v), ItemRows(v.items), f)
  }

  lemma SubmitInvalid(db: Db, v: Values, getUserFails: bool, f: Faults)
    ensures !PurchaseValid(v) <==> SubmitEffect(db, v, getUserFails, f) == Step(db, Invalid)
  {
    var u := db.GetUser(getUserFails);
    if PurchaseValid(v) && u.out.Some? {
      RecordPurchaseOutcome(u.db, Header(u.out.value, v), ItemRows(v.items), f);
    }
  }

  lemma SubmitWithoutUser(db: Db, v: Values, getUserFails: bool, f: Faults)
    requires PurchaseValid(v) && (getUserFails || db.session.None?)
    ensures SubmitEffect(db, v, getUserFails, f) == Step(db.(log := db.log + [GetUser]), NotAuthenticated)
  {
  }

  /** A recorded purchase stores the form's total cost, and the rows written add up to it. */
  lemma SubmitRecords(db: Db, v: Values, getUserFails: bool, f: Faults)
    requires SubmitEffect(db, v, getUserFails, f).out.Recorded?
    ensures PurchaseValid(v) && db.session.Some?
    ensures SubmitEffect(db, v, getUserFails, f).db.purchases == db.purchases +
      [Purchase(db.nextId, db.session.value, v.supplier_name, v.notes, TotalCost(v.items))]
    ensures SubmitEffect(db, v, getUserFails, f).db.purchaseItems == db.purchaseItems + WithPurchaseId(ItemRows(v.items), db.nextId)
    ensures SumOf(WithPurchaseId(ItemRows(v.items), db.nextId), RowCost) == TotalCost(v.items)
  {
    var u := db.GetUser(getUserFails);
    RecordPurchaseSuccess(u.db, Header(u.out.value, v), ItemRows(v.items), f);
    RowsCost(v.items, db.nextId);
  }

  lemma SubmitCompensates(db: Db, v: Values, getUserFails: bool, f: Faults)
    requires db.Valid()
    requires SubmitEffect(db, v, getUserFails, f).out == ItemsFailed(true)
    ensures SubmitEffect(db, v, getUserFails, f).db.purchases == db.purchases
    ensures SubmitEffect(db, v, getUserFails, f).db.purchaseItems == db.purchaseItems
  {
    var u := db.GetUser(getUserFails);
    RecordPurchaseCompensates(u.db, Header(u.out.value, v), ItemRows(v.items), f);
  }

  /** The form component; `isOpen` is the parent's dialog state. */
  class Form {
    var isOpen: bool
    var values: Values
    var products: seq<Product>

    constructor (isOpen: bool)
      ensures this.isOpen == isOpen && values == DEFAULTS && products == []
    {
      this.isOpen, values, products := isOpen, DEFAULTS, [];
    }

    /** The products query run once on mount; an error keeps the old list. */
    method LoadProducts(q: Query<Product>)
      modifies this
      ensures q.Rows? ==> products == q.rows
      ensures q.QueryError? ==> products == old(products)
      ensures isOpen == old(isOpen) && values == old(values)
    {
      if q.Rows? {
        products := q.rows;
      }
    }

    method Pick(k: nat)
      requires k < |products|
      modifies this
      ensures values == old(values).(items := old(values).items + [NewLine(old(products)[k])])
      ensures isOpen == old(isOpen) && products == old(products)
    {
      values := values.(items := values.items + [NewLine(products[k])]);
    }

    method Remove(index: nat)
      requires index < |values.items|
      modifies this
      ensures values == old(values).(items := old(values).items[..index] + old(values).items[index + 1..])
      ensures isOpen == old(isOpen) && products == old(products)
    {
      values := values.(items := values.items[..index] + values.items[index + 1..]);
    }

    /** Submitting the form. `onSuccess` is called exactly when the outcome is `Recorded`. */
    method Submit(store: Store, getUserFails: bool, f: Faults) returns (out: Outcome)
      modifies this, store
      ensures Step(store.db, out) == SubmitEffect(old(store.db), old(values), getUserFails, f)
      ensures out.Recorded? ==> !isOpen && values == DEFAULTS
      ensures !out.Recorded? ==> isOpen == old(isOpen) && values == old(values)
      ensures products == old(products)
    {
      if !PurchaseValid(values) {
        return Invalid;
      }
      var user := store.GetUser(getUserFails);
      if user.None? {
        return NotAuthenticated;
      }
      var purchaseId := store.InsertPurchase(Header(user.value, values), f.header);
      if purchaseId.None? {
        return HeaderFailed;
      }
      var itemsOk := store.InsertPurchaseItems(WithPurchaseId(ItemRows(values.items), purchaseId.value), f.items);
      if !itemsOk {
        var undone := store.DeletePurchase(purchaseId.value, f.undo);
        return ItemsFailed(undone);
      }
      isOpen := false;
      values := DEFAULTS;
      out := Recorded(purchaseId.value);
    }
  }
}
