/** The point-of-sale cart panel: its total, the quantity inputs and the two buttons that
    are enabled only for a non-empty cart. The cart itself belongs to the sales page,
    which is not part of this model; here it is an input. */
module CurrentSale {

  import opened Common
  import opened Text
  import Remote

  /** One cart line as the panel receives it. */
  datatype CartItem = CartItem(
    product_id: Remote.Id, product_name: string, quantity: real, price_per_item: real,
    cost_per_item: Option<real>, available_stock: real)

  function Subtotal(item: CartItem): real {
    item.quantity * item.price_per_item
  }

  /** The `reduce` that computes the panel's total. */
  function Total(cart: seq<CartItem>): real {
    SumOf(cart, Subtotal)
  }

  /** The subtotal shown on each row, in row order. */
  function RowSubtotals(cart: seq<CartItem>): (r: seq<real>)
    ensures |r| == |cart|
    ensures forall i :: 0 <= i < |r| ==> r[i] == cart[i].quantity * cart[i].price_per_item
  {
    seq(|cart|, i requires 0 <= i < |cart| => Subtotal(cart[i]))
  }

  function Sum(xs: seq<real>): real {
    if |xs| == 0 then 0.0 else xs[0] + Sum(xs[1..])
  }

  /** The total shown under the table is the sum of the subtotals shown in its rows. */
  lemma {:induction false} TotalIsSumOfRows(cart: seq<CartItem>)
    ensures Total(cart) == Sum(RowSubtotals(cart))
  {
    if |cart| > 0 {
      TotalIsSumOfRows(cart[1..]);
      assert RowSubtotals(cart)[1..] == RowSubtotals(cart[1..]);
    }
  }

  /** Adding a line adds its subtotal to the total. */
  lemma TotalAppend(cart: seq<CartItem>, item: CartItem)
    ensures Total(cart + [item]) == Total(cart) + item.quantity * item.price_per_item
  {
    SumOfAppend(cart, [item], Subtotal);
  }

  /** With no negative quantity or price, the total is not negative. */
  lemma TotalNonNegative(cart: seq<CartItem>)
    requires forall i :: 0 <= i < |cart| ==> cart[i].quantity >= 0.0 && cart[i].price_per_item >= 0.0
    ensures Total(cart) >= 0.0
  {
    SumOfBetween(cart, (c: CartItem) => 0.0, Subtotal);
    assert SumOf(cart, (c: CartItem) => 0.0) >= 0.0;
  }

  /** What a quantity input reports: `parseInt(text) || 0`. */
  function QuantityFromInput(text: string): (q: int)
    ensures ParseInt(text).None? ==> q == 0
  {
    match ParseInt(text)
    case None => 0
    case Some(n) => n
  }

  /** Every integer typed in is reported as itself: the input's `min` and `max` are not
      enforced here, so negative quantities and quantities above the stock pass through. */
  lemma QuantityFromInputReadsBack(n: int)
    ensures QuantityFromInput(IntToString(n)) == n
  {
    ParseIntOfIntToString(n);
  }

  /** "Limpiar" and "Cobrar" share one enabling rule. */
  predicate ButtonsEnabled(cart: seq<CartItem>) {
    |cart| != 0
  }

  /** The panel's own state: whether the checkout dialog is open. */
  class Panel {
    var isCheckoutOpen: bool

    constructor ()
      ensures !isCheckoutOpen
    {
      isCheckoutOpen := false;
    }

    /** Pressing "Cobrar": a disabled button does nothing. */
    method PressCheckout(cart: seq<CartItem>)
      modifies this
      ensures isCheckoutOpen == (old(isCheckoutOpen) || ButtonsEnabled(cart))
    {
      if ButtonsEnabled(cart) {
        isCheckoutOpen := true;
      }
    }

    /** The dialog's `setIsOpen`. */
    method SetCheckoutOpen(open: bool)
      modifies this
      ensures isCheckoutOpen == open
    {
      isCheckoutOpen := open;
    }
  }
}
