/** The dashboard's sale form: the line and sale schemas, the product picker, the totals,
    and the submission, which records the sale through the shared two-step write. */
module SaleForm {

  import opened Common
  import opened Remote
  import opened Ledger

  const PAYMENT_METHODS: seq<string> := ["efectivo", "tarjeta", "transferencia"]
  const DEFAULT_PAYMENT := "efectivo"

  /** One entry of the `items` field array. */
  datatype Line = Line(
    product_id: Id, product_name: string, quantity: real, price_per_item: real,
    cost_per_item: real, available_stock: real)

  /** The form's values; the sale date is not part of this model. */
  datatype Values = Values(customer_name: Option<string>, payment_method: string, notes: Option<string>, items: seq<Line>)

  const DEFAULTS := Values(None, DEFAULT_PAYMENT, None, [])

  /** `saleItemSchema`: a positive whole quantity, no negative price or cost, a whole
      stock snapshot, and no more than that snapshot. */
  predicate LineValid(l: Line) {
    && IsInt(l.quantity) && l.quantity > 0.0
    && l.price_per_item >= 0.0
    && l.cost_per_item >= 0.0
    && IsInt(l.available_stock)
    && l.quantity <= l.available_stock
  }

  /** `saleSchema`: a listed payment method and at least one line, every line valid. */
  predicate SaleValid(v: Values) {
    && v.payment_method in PAYMENT_METHODS
    && |v.items| >= 1
    && forall i :: 0 <= i < |v.items| ==> LineValid(v.items[i])
  }

  /** The picker lists only products with stock. */
  function Offered(products: seq<Product>): (r: seq<Product>)
    ensures forall i :: 0 <= i < |r| ==> r[i].current_stock > 0.0 && r[i] in products
    ensures forall i :: 0 <= i < |products| && products[i].current_stock > 0.0 ==> products[i] in r
    ensures SubsequenceOf(r, products)
  {
    FilterIsSubsequence(products, (p: Product) => p.current_stock > 0.0);
    Filter(products, (p: Product) => p.current_stock > 0.0)
  }

  /** The line appended when a product is picked. */
  function NewLine(p: Product): (l: Line)
    ensures l.product_id == p.id && l.quantity == 1.0 && l.price_per_item == p.sale_price
    ensures l.cost_per_item == OrZero(p.purchase_cost) && l.available_stock == p.current_stock
  {
    Line(p.id, p.name, 1.0, p.sale_price, OrZero(p.purchase_cost), p.current_stock)
  }

  /** A picked product with a whole stock and no negative price or cost gives a line the
      schema accepts: the stock snapshot is at least 1, the quantity is 1. */
  lemma PickedLineValid(products: seq<Product>, k: nat)
    requires k < |Offered(products)|
    requires IsInt(Offered(products)[k].current_stock)
    requires Offered(products)[k].sale_price >= 0.0
    requires Offered(products)[k].purchase_cost.Some? ==> Offered(products)[k].purchase_cost.value >= 0.0
    ensures LineValid(NewLine(Offered(products)[k]))
  {
    var p := Offered(products)[k];
    assert p.current_stock > 0.0;
    assert p.current_stock.Floor >= 1;
  }

  /** Picking the same product twice gives two lines, each checked against the stock on
      its own: two lines of one unit each pass for a product with a single unit left. */
  lemma DuplicateLinesCheckedSeparately(p: Product)
    requires p.current_stock == 1.0 && p.sale_price >= 0.0 && p.purchase_cost.None?
    ensures SaleValid(Values(None, DEFAULT_PAYMENT, None, [NewLine(p), NewLine(p)]))
    ensures NewLine(p).quantity + NewLine(p).quantity > p.current_stock
  {
    assert LineValid(NewLine(p));
  }

  function LineAmount(l: Line): real {
    l.quantity * l.price_per_item
  }

  function LineProfit(l: Line): real {
    (l.price_per_item - l.cost_per_item) * l.quantity
  }

  /** `totalAmount`, shown under the table and stored in the header. */
  function TotalAmount(items: seq<Line>): real {
    SumOf(items, LineAmount)
  }

  function TotalProfit(items: seq<Line>): real {
    SumOf(items, LineProfit)
  }

  /** For lines the schema accepts, the profit never exceeds the amount, and the amount
      is not negative. */
  lemma ProfitAtMostAmount(items: seq<Line>)
    requires forall i :: 0 <= i < |items| ==> LineValid(items[i])
    ensures TotalProfit(items) <= TotalAmount(items)
    ensures TotalAmount(items) >= 0.0
  {
    SumOfMonotone(items, LineProfit, LineAmount);
    SumOfBetween(items, (l: Line) => 0.0, LineAmount);
  }

  function Header(user: Id, v: Values): Sale {
    Sale(0, user, v.customer_name, v.notes, TotalAmount(v.items), TotalProfit(v.items), v.payment_method)
  }

  function ItemRows(items: seq<Line>): (r: seq<SaleItem>)
    ensures |r| == |items|
    ensures forall i :: 0 <= i < |r| ==>
      r[i].product_id == items[i].product_id && r[i].quantity == items[i].quantity &&
      r[i].price_per_item == items[i].price_per_item && r[i].cost_per_item == Some(items[i].cost_per_item)
  {
    seq(|items|, i requires 0 <= i < |items| =>
      SaleItem(0, items[i].product_id, items[i].quantity, items[i].price_per_item, Some(items[i].cost_per_item)))
  }

  /** `handleSubmit(onSubmit)`: the schema first, then the user, then the two-step write. */
  function SubmitEffect(db: Db, v: Values, getUserFails: bool, f: Faults): Step<Outcome> {
    if !SaleValid(v) then Step(db, Invalid)
    else
      var u := db.GetUser(getUserFails);
      if u.out.None? then Step(u.db, NotAuthenticated)
      else RecordSale(u.db, Header(u.out.value, v), ItemRows(v.items), f)
  }

  /** A form the schema refuses sends nothing, and only such a form ends as `Invalid`. */
  lemma SubmitInvalid(db: Db, v: Values, getUserFails: bool, f: Faults)
    ensures !SaleValid(v) <==> SubmitEffect(db, v, getUserFails, f) == Step(db, Invalid)
  {
    var u := db.GetUser(getUserFails);
    if SaleValid(v) && u.out.Some? {
      RecordSaleOutcome(u.db, Header(u.out.value, v), ItemRows(v.items), f);
    }
  }

  lemma SubmitWithoutUser(db: Db, v: Values, getUserFails: bool, f: Faults)
    requires SaleValid(v) && (getUserFails || db.session.None?)
    ensures SubmitEffect(db, v, getUserFails, f) == Step(db.(log := db.log + [GetUser]), NotAuthenticated)
  {
  }

  /** A recorded sale holds the form's total, profit, method, customer and notes, and one
      row per line. */
  lemma SubmitRecords(db: Db, v: Values, getUserFails: bool, f: Faults)
    requires SubmitEffect(db, v, getUserFails, f).out.Recorded?
    ensures SaleValid(v) && db.session.Some?
    ensures SubmitEffect(db, v, getUserFails, f).db.sales == db.sales +
      [Sale(db.nextId, db.session.value, v.customer_name, v.notes, TotalAmount(v.items), TotalProfit(v.items), v.payment_method)]
    ensures SubmitEffect(db, v, getUserFails, f).db.saleItems == db.saleItems + WithSaleId(ItemRows(v.items), db.nextId)
  {
    var u := db.GetUser(getUserFails);
    RecordSaleSuccess(u.db, Header(u.out.value, v), ItemRows(v.items), f);
  }

  lemma SubmitCompensates(db: Db, v: Values, getUserFails: bool, f: Faults)
    requires db.Valid()
    requires SubmitEffect(db, v, getUserFails, f).out == ItemsFailed(true)
    ensures SubmitEffect(db, v, getUserFails, f).db.sales == db.sales
    ensures SubmitEffect(db, v, getUserFails, f).db.saleItems == db.saleItems
  {
    var u := db.GetUser(getUserFails);
    RecordSaleCompensates(u.db, Header(u.out.value, v), ItemRows(v.items), f);
  }

  /** The form component. `isOpen` is the dialog state the parent passes in, changed
      through `setIsOpen`. */
  class Form {
    var isOpen: bool
    var values: Values
    var products: seq<Product>

    constructor (isOpen: bool)
      ensures this.isOpen == isOpen && values == DEFAULTS && products == []
    {
      this.isOpen, values, products := isOpen, DEFAULTS, [];
    }

    /** The products query run when the dialog opens; an error keeps the old list. */
    method LoadProducts(q: Query<Product>)
      modifies this
      ensures q.Rows? ==> products == q.rows
      ensures q.QueryError? ==> products == old(products)
      ensures isOpen == old(isOpen) && values == old(values)
    {
      if q.Rows? {
        products := q.rows;
      }
    }

    /** Selecting the `k`-th offered product appends a new line, even for a product that
        already has one. */
    method Pick(k: nat)
      requires k < |Offered(products)|
      modifies this
      ensures values == old(values).(items := old(values).items + [NewLine(Offered(old(products))[k])])
      ensures Offered(old(products))[k].current_stock > 0.0
      ensures isOpen == old(isOpen) && products == old(products)
    {
      values := values.(items := values.items + [NewLine(Offered(products)[k])]);
    }

    /** The trash button of line `index`. */
    method Remove(index: nat)
      requires index < |values.items|
      modifies this
      ensures values == old(values).(items := old(values).items[..index] + old(values).items[index + 1..])
      ensures isOpen == old(isOpen) && products == old(products)
    {
      values := values.(items := values.items[..index] + values.items[index + 1..]);
    }

    /** Submitting the form. `onSuccess` is called exactly when the outcome is `Recorded`. */
    method Submit(store: Store, getUserFails: bool, f: Faults) returns (out: Outcome)
      modifies this, store
      ensures Step(store.db, out) == SubmitEffect(old(store.db), old(values), getUserFails, f)
      ensures out.Recorded? ==> !isOpen && values == DEFAULTS
      ensures !out.Recorded? ==> isOpen == old(isOpen) && values == old(values)
      ensures products == old(products)
    {
      if !SaleValid(values) {
        return Invalid;
      }
      var user := store.GetUser(getUserFails);
      if user.None? {
        return NotAuthenticated;
      }
      var saleId := store.InsertSale(Header(user.value, values), f.header);
      if saleId.None? {
        return HeaderFailed;
      }
      var itemsOk := store.InsertSaleItems(WithSaleId(ItemRows(values.items), saleId.value), f.items);
      if !itemsOk {
        var undone := store.DeleteSale(saleId.value, f.undo);
        return ItemsFailed(undone);
      }
      isOpen := false;
      values := DEFAULTS;
      out := Recorded(saleId.value);
    }
  }
}
