/** The inventory's product dialog: `productSchema`, and the insert of a new product or the
    update of the one being edited. The number fields are taken as already coerced. */
module ProductForm {

  import opened Common
  import opened Remote

  /** The form's values. `sku` and `description` are `None` when they hold the null of an
      edited product's column. The number fields hold what `z.coerce.number()` makes of the
      input: a null column coerces to 0, and an input always has a value, so `.optional()`
      never sees `undefined`. */
  datatype Values = Values(
    name: string, sku: Option<string>, description: Option<string>,
    sale_price: real, purchase_cost: real, current_stock: real, min_stock_alert: real)

  /** The values the dialog opens with when no product is being edited. */
  const DEFAULTS := Values("", Some(""), Some(""), 0.0, 0.0, 0.0, 0.0)

  datatype Field = Name | Sku | Description | SalePrice | PurchaseCost | CurrentStock | MinStockAlert

  /** The fields `productSchema` reports; `z.string().optional()` refuses null. */
  function Errors(v: Values): set<Field> {
    (if |v.name| < 1 then {Name} else {})
    + (if v.sku.None? then {Sku} else {})
    + (if v.description.None? then {Description} else {})
    + (if v.sale_price < 0.0 then {SalePrice} else {})
    + (if v.purchase_cost < 0.0 then {PurchaseCost} else {})
    + (if !IsInt(v.current_stock) || v.current_stock < 0.0 then {CurrentStock} else {})
    + (if !IsInt(v.min_stock_alert) || v.min_stock_alert < 0.0 then {MinStockAlert} else {})
  }

  /** The schema accepts exactly: a name, a SKU and a description that are not null, a price
      and a cost of at least zero, and a whole stock and a whole alert of at least zero. */
  lemma ErrorsExactly(v: Values)
    ensures Errors(v) == {} <==>
      && |v.name| >= 1
      && v.sku.Some? && v.description.Some?
      && v.sale_price >= 0.0
      && v.purchase_cost >= 0.0
      && IsInt(v.current_stock) && v.current_stock >= 0.0
      && IsInt(v.min_stock_alert) && v.min_stock_alert >= 0.0
  {
    if |v.name| < 1 {
      assert Name in Errors(v);
    } else if v.sku.None? {
      assert Sku in Errors(v);
    } else if v.description.None? {
      assert Description in Errors(v);
    } else if v.sale_price < 0.0 {
      assert SalePrice in Errors(v);
    } else if v.purchase_cost < 0.0 {
      assert PurchaseCost in Errors(v);
    } else if !IsInt(v.current_stock) || v.current_stock < 0.0 {
      assert CurrentStock in Errors(v);
    } else if !IsInt(v.min_stock_alert) || v.min_stock_alert < 0.0 {
      assert MinStockAlert in Errors(v);
    }
  }

  /** Of the defaults only the empty name is refused. */
  lemma DefaultsNeedAName()
    ensures Errors(DEFAULTS) == {Name}
  {
    assert IsInt(0.0);
  }

  /** `Number(null)` is 0. */
  function CoerceNumber(x: Option<real>): real {
    if x.Some? then x.value else 0.0
  }

  /** `form.reset(productToEdit)`: the dialog shows the edited product's own values. */
  function Seed(edit: Option<Product>): Values {
    if edit.None? then DEFAULTS
    else
      var p := edit.value;
      Values(p.name, p.sku, p.description, p.sale_price, CoerceNumber(p.purchase_cost), p.current_stock,
             CoerceNumber(p.min_stock_alert))
  }

  /** `{...values, user_id}`; the id is the store's to choose or the edited one's. */
  function RowOf(user: Id, v: Values): Product {
    Product(0, user, v.name, v.sku, v.description, v.sale_price, Some(v.purchase_cost), v.current_stock,
            Some(v.min_stock_alert))
  }

  datatype Result = Invalid | NotAuthenticated | Refused | Saved

  /** `handleSubmit(onSubmit)`: look the user up, then one update by the edited product's
      id, or one insert. */
  function SubmitEffect(db: Db, v: Values, editing: Option<Id>, getUserFails: bool, fails: bool): Step<Result> {
    if Errors(v) != {} then Step(db, Invalid)
    else
      var u := db.GetUser(getUserFails);
      if u.out.None? then Step(u.db, NotAuthenticated)
      else
        var w := if editing.Some? then u.db.UpdateProduct(editing.value, RowOf(u.out.value, v), fails)
                 else u.db.InsertProduct(RowOf(u.out.value, v), fails);
        Step(w.db, if w.out then Saved else Refused)
  }

  /** Without a user nothing is written; with one, exactly one write is made, an update of
      the edited id or an insert. */
  lemma OneWrite(db: Db, v: Values, editing: Option<Id>, getUserFails: bool, fails: bool)
    requires Errors(v) == {}
    ensures var r := SubmitEffect(db, v, editing, getUserFails, fails);
      if getUserFails || db.session.None? then
        r == Step(db.(log := db.log + [GetUser]), NotAuthenticated)
      else
        r.db.log == db.log + [GetUser, if editing.Some? then Update(Products, editing.value) else Insert(Products)]
        && (r.out == Saved <==> !fails)
  {
  }

  /** A saved new product is appended with a fresh id and the user as owner; a saved edit
      gives every row with the edited id the form's values and keeps the rest; a refused
      write changes no product. */
  lemma SavedRows(db: Db, v: Values, editing: Option<Id>, getUserFails: bool, fails: bool)
    requires SubmitEffect(db, v, editing, getUserFails, fails).out in {Saved, Refused}
    ensures db.session.Some?
    ensures var ps := SubmitEffect(db, v, editing, getUserFails, fails).db.products;
      var out := SubmitEffect(db, v, editing, getUserFails, fails).out;
      && (out == Refused ==> ps == db.products)
      && (out == Saved && editing.None? ==> ps == db.products + [RowOf(db.session.value, v).(id := db.nextId)])
      && (out == Saved && editing.Some? ==>
            |ps| == |db.products| &&
            forall i :: 0 <= i < |ps| ==>
              ps[i] == if db.products[i].id == editing.value then RowOf(db.session.value, v).(id := editing.value) else db.products[i])
  {
  }

  /** An edited product with a null SKU or description cannot be saved before those
      fields are filled in. */
  lemma NullTextRefused(p: Product)
    requires p.sku.None? || p.description.None?
    ensures Errors(Seed(Some(p))) * {Sku, Description} != {}
  {
    if p.sku.None? {
      assert Sku in Errors(Seed(Some(p)));
    } else {
      assert Description in Errors(Seed(Some(p)));
    }
  }

  /** The edited product as an unchanged save writes it back: a null cost or alert
      becomes 0. */
  function Resaved(p: Product): (r: Product)
    ensures r.purchase_cost.Some? && r.min_stock_alert.Some?
    ensures (p.purchase_cost.Some? && p.min_stock_alert.Some?) <==> r == p
  {
    p.(purchase_cost := Some(CoerceNumber(p.purchase_cost)), min_stock_alert := Some(CoerceNumber(p.min_stock_alert)))
  }

  /** Saving an edited product without changing anything, when it is the only row with its
      id and belongs to the signed-in user, rewrites it with a null cost or alert as 0 and
      keeps every other row; with both set, the products stay as they were. */
  lemma UnchangedEditKeepsProducts(db: Db, p: Product, fails: bool)
    requires p in db.products && db.session == Some(p.user_id)
    requires forall i :: 0 <= i < |db.products| && db.products[i].id == p.id ==> db.products[i] == p
    requires Errors(Seed(Some(p))) == {} && !fails
    ensures SubmitEffect(db, Seed(Some(p)), Some(p.id), false, fails).out == Saved
    ensures var ps := SubmitEffect(db, Seed(Some(p)), Some(p.id), false, fails).db.products;
      |ps| == |db.products| &&
      forall i :: 0 <= i < |ps| ==> ps[i] == if db.products[i] == p then Resaved(p) else db.products[i]
    ensures p.purchase_cost.Some? && p.min_stock_alert.Some? ==>
      SubmitEffect(db, Seed(Some(p)), Some(p.id), false, fails).db.products == db.products
  {
    var ps := SubmitEffect(db, Seed(Some(p)), Some(p.id), false, fails).db.products;
    assert RowOf(p.user_id, Seed(Some(p))).(id := p.id) == Resaved(p);
    SavedRows(db, Seed(Some(p)), Some(p.id), false, fails);
    assert forall i :: 0 <= i < |ps| ==> ps[i] == if db.products[i] == p then Resaved(p) else db.products[i];
    if p.purchase_cost.Some? && p.min_stock_alert.Some? {
      assert forall i :: 0 <= i < |ps| ==> ps[i] == db.products[i];
    }
  }

  /** The dialog; `isOpen` is the parent's state. */
  class Form {
    var isOpen: bool
    var values: Values

    constructor (isOpen: bool, edit: Option<Product>)
      ensures this.isOpen == isOpen && values == Seed(edit)
    {
      this.isOpen, values := isOpen, Seed(edit);
    }

    /** The effect that reseeds the form when the edited product changes. */
    method Reseed(edit: Option<Product>)
      modifies this
      ensures values == Seed(edit) && isOpen == old(isOpen)
    {
      values := Seed(edit);
    }

    /** `onSuccess` is called and the dialog closed exactly when the write succeeded. */
    method Submit(store: Store, editing: Option<Id>, getUserFails: bool, fails: bool) returns (r: Result)
      modifies this, store
      ensures Step(store.db, r) == SubmitEffect(old(store.db), old(values), editing, getUserFails, fails)
      ensures r == Saved ==> !isOpen
      ensures r != Saved ==> isOpen == old(isOpen)
      ensures values == old(values)
    {
      if Errors(values) != {} {
        return Invalid;
      }
      var user := store.GetUser(getUserFails);
      if user.None? {
        return NotAuthenticated;
      }
      var ok;
      if editing.Some? {
        ok := store.UpdateProduct(editing.value, RowOf(user.value, values), fails);
      } else {
        ok := store.InsertProduct(RowOf(user.value, values), fails);
      }
      if !ok {
        return Refused;
      }
      isOpen := false;
      r := Saved;
    }
  }
}
