/** The checkout dialog of the point of sale: the change to hand back, the profit of the
    cart, and `handleCheckout`, which records the sale and its lines. */
module Checkout {

  import opened Common
  import opened Remote
  import opened Ledger
  import opened CurrentSale

  const DEFAULT_PAYMENT := "efectivo"
  const WALK_IN := "Mostrador"

  /** The change owed: what was received beyond the total, and never negative. */
  function Change(amountReceived: real, total: real): (c: real)
    ensures c >= 0.0 && c >= amountReceived - total
    ensures c == 0.0 || c == amountReceived - total
    ensures amountReceived >= total ==> total + c == amountReceived
  {
    if amountReceived > total then amountReceived - total else 0.0
  }

  function ItemProfit(item: CartItem): real {
    (item.price_per_item - OrZero(item.cost_per_item)) * item.quantity
  }

  function ItemCost(item: CartItem): real {
    OrZero(item.cost_per_item) * item.quantity
  }

  /** The profit stored with the sale: per line, price less cost (absent cost counts as 0),
      times the quantity. */
  function TotalProfit(cart: seq<CartItem>): real {
    SumOf(cart, ItemProfit)
  }

  /** The profit is the cart total less the cost of what was sold. */
  lemma {:induction false} ProfitIsTotalLessCost(cart: seq<CartItem>)
    ensures TotalProfit(cart) == Total(cart) - SumOf(cart, ItemCost)
  {
    if |cart| > 0 {
      ProfitIsTotalLessCost(cart[1..]);
    }
  }

  /** The customer stored in the header: the typed name, or the walk-in customer. */
  function Customer(customerName: string): (c: string)
    ensures customerName != "" ==> c == customerName
    ensures customerName == "" ==> c == WALK_IN
    ensures c != ""
  {
    if customerName == "" then WALK_IN else customerName
  }

  function Header(user: Id, customerName: string, total: real, cart: seq<CartItem>, paymentMethod: string): Sale {
    Sale(0, user, Some(Customer(customerName)), None, total, TotalProfit(cart), paymentMethod)
  }

  /** One item row per cart line, carrying that line's product, quantity, price and cost. */
  function ItemRows(cart: seq<CartItem>): (r: seq<SaleItem>)
    ensures |r| == |cart|
    ensures forall i :: 0 <= i < |r| ==>
      r[i].product_id == cart[i].product_id && r[i].quantity == cart[i].quantity &&
      r[i].price_per_item == cart[i].price_per_item && r[i].cost_per_item == cart[i].cost_per_item
  {
    seq(|cart|, i requires 0 <= i < |cart| =>
      SaleItem(0, cart[i].product_id, cart[i].quantity, cart[i].price_per_item, cart[i].cost_per_item))
  }

  /** What `handleCheckout` does to the store and how it ends. */
  function CheckoutEffect(db: Db, cart: seq<CartItem>, total: real, customerName: string, paymentMethod: string,
                          getUserFails: bool, f: Faults): Step<Outcome>
  {
    var u := db.GetUser(getUserFails);
    if u.out.None? then Step(u.db, NotAuthenticated)
    else RecordSale(u.db, Header(u.out.value, customerName, total, cart, paymentMethod), ItemRows(cart), f)
  }

  /** Without an authenticated user nothing is written. */
  lemma CheckoutWithoutUser(db: Db, cart: seq<CartItem>, total: real, customerName: string, paymentMethod: string,
                            getUserFails: bool, f: Faults)
    requires getUserFails || db.session.None?
    ensures CheckoutEffect(db, cart, total, customerName, paymentMethod, getUserFails, f)
      == Step(db.(log := db.log + [GetUser]), NotAuthenticated)
  {
  }

  /** A recorded sale appends the header, holding the given total, the cart's profit and
      the chosen payment method, and one row per cart line pointing at it. */
  lemma CheckoutRecordsCart(db: Db, cart: seq<CartItem>, total: real, customerName: string, paymentMethod: string,
                            getUserFails: bool, f: Faults)
    requires CheckoutEffect(db, cart, total, customerName, paymentMethod, getUserFails, f).out.Recorded?
    ensures db.session.Some? && !getUserFails
    ensures CheckoutEffect(db, cart, total, customerName, paymentMethod, getUserFails, f).db.sales
      == db.sales + [Sale(db.nextId, db.session.value, Some(Customer(customerName)), None, total, TotalProfit(cart), paymentMethod)]
    ensures CheckoutEffect(db, cart, total, customerName, paymentMethod, getUserFails, f).db.saleItems
      == db.saleItems + WithSaleId(ItemRows(cart), db.nextId)
  {
    var u := db.GetUser(getUserFails);
    RecordSaleSuccess(u.db, Header(u.out.value, customerName, total, cart, paymentMethod), ItemRows(cart), f);
  }

  /** An items failure whose compensating delete goes through leaves no sale behind. */
  lemma CheckoutCompensates(db: Db, cart: seq<CartItem>, total: real, customerName: string, paymentMethod: string,
                            getUserFails: bool, f: Faults)
    requires db.Valid()
    requires CheckoutEffect(db, cart, total, customerName, paymentMethod, getUserFails, f).out == ItemsFailed(true)
    ensures CheckoutEffect(db, cart, total, customerName, paymentMethod, getUserFails, f).db.sales == db.sales
    ensures CheckoutEffect(db, cart, total, customerName, paymentMethod, getUserFails, f).db.saleItems == db.saleItems
  {
    var u := db.GetUser(getUserFails);
    RecordSaleCompensates(u.db, Header(u.out.value, customerName, total, cart, paymentMethod), ItemRows(cart), f);
  }

  function RowAmount(row: SaleItem): real {
    row.quantity * row.price_per_item
  }

  lemma {:induction false} RowsAmount(cart: seq<CartItem>, id: Id)
    ensures SumOf(WithSaleId(ItemRows(cart), id), RowAmount) == Total(cart)
  {
    if |cart| > 0 {
      RowsAmount(cart[1..], id);
      assert WithSaleId(ItemRows(cart), id)[1..] == WithSaleId(ItemRows(cart[1..]), id);
    }
  }

  /** With the total the cart panel computes, the header's amount is the sum of quantity
      times price over the item rows written for it. */
  lemma CheckoutHeaderMatchesItems(db: Db, cart: seq<CartItem>, customerName: string, paymentMethod: string,
                                   getUserFails: bool, f: Faults)
    requires CheckoutEffect(db, cart, Total(cart), customerName, paymentMethod, getUserFails, f).out.Recorded?
    ensures var r := CheckoutEffect(db, cart, Total(cart), customerName, paymentMethod, getUserFails, f);
      r.db.sales[|r.db.sales| - 1].total_amount
        == SumOf(r.db.saleItems[|db.saleItems|..], RowAmount)
  {
    CheckoutRecordsCart(db, cart, Total(cart), customerName, paymentMethod, getUserFails, f);
    var r := CheckoutEffect(db, cart, Total(cart), customerName, paymentMethod, getUserFails, f);
    assert r.db.saleItems[|db.saleItems|..] == WithSaleId(ItemRows(cart), db.nextId);
    RowsAmount(cart, db.nextId);
  }

  /** The dialog's own state. Whether it is open is the cart panel's state, reached
      through `setIsOpen`. */
  class CheckoutDialog {
    var paymentMethod: string
    var amountReceived: real
    var customerName: string
    var loading: bool

    constructor ()
      ensures paymentMethod == DEFAULT_PAYMENT && amountReceived == 0.0 && customerName == "" && !loading
    {
      paymentMethod, amountReceived, customerName, loading := DEFAULT_PAYMENT, 0.0, "", false;
    }

    /** `handleCheckout`. `onSuccess` is called exactly when the outcome is `Recorded`. */
    method HandleCheckout(store: Store, panel: Panel, cart: seq<CartItem>, total: real, getUserFails: bool, f: Faults)
      returns (out: Outcome)
      modifies this, store, panel
      ensures Step(store.db, out)
        == CheckoutEffect(old(store.db), cart, total, old(customerName), old(paymentMethod), getUserFails, f)
      ensures !loading && paymentMethod == old(paymentMethod)
      ensures out.Recorded? ==> !panel.isCheckoutOpen && amountReceived == 0.0 && customerName == ""
      ensures !out.Recorded? ==>
        panel.isCheckoutOpen == old(panel.isCheckoutOpen) &&
        amountReceived == old(amountReceived) && customerName == old(customerName)
    {
      loading := true;
      var user := store.GetUser(getUserFails);
      if user.None? {
        loading := false;
        return NotAuthenticated;
      }
      var header := Header(user.value, customerName, total, cart, paymentMethod);
      var saleId := store.InsertSale(header, f.header);
      if saleId.None? {
        loading := false;
        return HeaderFailed;
      }
      var itemsOk := store.InsertSaleItems(WithSaleId(ItemRows(cart), saleId.value), f.items);
      if !itemsOk {
        var undone := store.DeleteSale(saleId.value, f.undo);
        loading := false;
        return ItemsFailed(undone);
      }
      panel.SetCheckoutOpen(false);
      amountReceived := 0.0;
      customerName := "";
      loading := false;
      out := Recorded(saleId.value);
    }
  }
}
