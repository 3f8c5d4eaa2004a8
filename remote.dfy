/** The remote store behind the Supabase client: the tables the components read and write,
    the authentication accounts and the current session, and a log of the calls made.
    Every call that can fail takes a `fails` flag standing for the outcome the service
    chooses; row-level security, triggers and the network are not part of this model.
    Generated identifiers (uuids in the service) are drawn from the counter `nextId`. */
module Remote {

  import opened Common

  type Id = nat

  datatype Table = Sales | SaleItems | Purchases | PurchaseItems | Products | Profiles | WorkerRequests

  /** One call to the service, as the log records it. */
  datatype Call =
    | GetUser | SignIn(email: string) | SignOut | UpdateAuthUser
    | Insert(table: Table) | Update(table: Table, id: Id) | Delete(table: Table, id: Id)
    | Select(table: Table)
    | CreateUser(email: string) | DeleteUser(id: Id)

  datatype Sale = Sale(
    id: Id, user_id: Id, customer_name: Option<string>, notes: Option<string>,
    total_amount: real, total_profit: real, payment_method: string)

  datatype SaleItem = SaleItem(
    sale_id: Id, product_id: Id, quantity: real, price_per_item: real, cost_per_item: Option<real>)

  datatype Purchase = Purchase(
    id: Id, user_id: Id, supplier_name: Option<string>, notes: Option<string>, total_cost: real)

  datatype PurchaseItem = PurchaseItem(purchase_id: Id, product_id: Id, quantity: real, cost_per_item: real)

  datatype Product = Product(
    id: Id, user_id: Id, name: string, sku: Option<string>, description: Option<string>,
    sale_price: real, purchase_cost: Option<real>, current_stock: real, min_stock_alert: Option<real>)

  datatype ProfileRow = ProfileRow(
    id: Id, full_name: Option<string>, commerce_name: Option<string>, phone: Option<string>, role: string)

  datatype WorkerRequest = WorkerRequest(
    id: Id, jefe_id: Id, worker_full_name: string, worker_email: string,
    worker_temp_password: string, status: string)

  /** An authentication account with its user metadata. */
  datatype Account = Account(
    id: Id, email: string, password: string,
    full_name: Option<string>, commerce_name: Option<string>, phone: Option<string>)

  /** The status a new worker request gets from the table's default. */
  const PENDING := "pending"

  predicate Registered(accounts: seq<Account>, email: string) {
    exists i :: 0 <= i < |accounts| && accounts[i].email == email
  }

  function FindAccount(accounts: seq<Account>, email: string, password: string): (r: Option<Account>)
    ensures r.Some? ==> r.value in accounts && r.value.email == email && r.value.password == password
    ensures r.None? ==> forall i :: 0 <= i < |accounts| ==> !(accounts[i].email == email && accounts[i].password == password)
  {
    if |accounts| == 0 then None
    else if accounts[0].email == email && accounts[0].password == password then Some(accounts[0])
    else FindAccount(accounts[1..], email, password)
  }

  function FindProfile(profiles: seq<ProfileRow>, id: Id): (r: Option<ProfileRow>)
    ensures r.Some? ==> r.value in profiles && r.value.id == id
    ensures r.None? ==> forall i :: 0 <= i < |profiles| ==> profiles[i].id != id
  {
    if |profiles| == 0 then None
    else if profiles[0].id == id then Some(profiles[0])
    else FindProfile(profiles[1..], id)
  }

  function SaleIdIsNot(id: Id): Sale -> bool { (s: Sale) => s.id != id }
  function PurchaseIdIsNot(id: Id): Purchase -> bool { (p: Purchase) => p.id != id }
  function AccountIdIsNot(id: Id): Account -> bool { (a: Account) => a.id != id }
  function IsPending(): WorkerRequest -> bool { (r: WorkerRequest) => r.status == PENDING }

  /** What a call returns, together with the store after it. */
  datatype Step<+T> = Step(db: Db, out: T)

  datatype Db = Db(
    sales: seq<Sale>, saleItems: seq<SaleItem>,
    purchases: seq<Purchase>, purchaseItems: seq<PurchaseItem>,
    products: seq<Product>, profiles: seq<ProfileRow>, requests: seq<WorkerRequest>,
    accounts: seq<Account>, session: Option<Id>, nextId: nat, log: seq<Call>)
  {
    /** Every generated identifier is below the counter, so the next one is fresh. */
    predicate Valid() {
      && (forall i :: 0 <= i < |sales| ==> sales[i].id < nextId)
      && (forall i :: 0 <= i < |purchases| ==> purchases[i].id < nextId)
      && (forall i :: 0 <= i < |accounts| ==> accounts[i].id < nextId)
    }

    function Record(c: Call): Db {
      this.(log := log + [c])
    }

    // ---- authentication ----

    /** `auth.getUser()`: the signed-in user, or none when there is no session or the call fails. */
    function GetUser(fails: bool): Step<Option<Id>> {
      Step(Record(Call.GetUser), if fails then None else session)
    }

    /** `auth.signInWithPassword`: succeeds when an account has exactly this email and password. */
    function SignIn(email: string, password: string, fails: bool): Step<Option<Id>> {
      var a := FindAccount(accounts, email, password);
      if fails || a.None? then Step(Record(Call.SignIn(email)), None)
      else Step(Record(Call.SignIn(email)).(session := Some(a.value.id)), Some(a.value.id))
    }

    /** `auth.signOut()` ends the local session whatever the service answers. */
    function SignOut(): Db {
      Record(Call.SignOut).(session := None)
    }

    function SetAccounts(id: Id, f: Account -> Account): seq<Account> {
      seq(|accounts|, i requires 0 <= i < |accounts| => if accounts[i].id == id then f(accounts[i]) else accounts[i])
    }

    /** `auth.updateUser({password})` on the signed-in account. */
    function UpdatePassword(password: string, fails: bool): Step<bool> {
      if fails || session.None? then Step(Record(Call.UpdateAuthUser), false)
      else Step(Record(Call.UpdateAuthUser).(accounts := SetAccounts(session.value, (a: Account) => a.(password := password))), true)
    }

    /** `auth.updateUser({data})`: replaces the signed-in account's metadata. */
    function UpdateMetadata(full_name: string, commerce_name: string, phone: Option<string>, fails: bool): Step<bool> {
      if fails || session.None? then Step(Record(Call.UpdateAuthUser), false)
      else Step(Record(Call.UpdateAuthUser).(accounts := SetAccounts(session.value,
        (a: Account) => a.(full_name := Some(full_name), commerce_name := Some(commerce_name), phone := phone))), true)
    }

    /** `auth.admin.createUser`: a new confirmed account, refused when the email is
        already registered. */
    function CreateUser(email: string, password: string, full_name: string, fails: bool): Step<Option<Id>> {
      if fails || Registered(accounts, email) then Step(Record(Call.CreateUser(email)), None)
      else Step(Record(Call.CreateUser(email)).(
        accounts := accounts + [Account(nextId, email, password, Some(full_name), None, None)],
        nextId := nextId + 1), Some(nextId))
    }

    /** `auth.admin.deleteUser(id)`. */
    function DeleteUser(id: Id, fails: bool): Step<bool> {
      if fails then Step(Record(Call.DeleteUser(id)), false)
      else Step(Record(Call.DeleteUser(id)).(accounts := Filter(accounts, AccountIdIsNot(id))), true)
    }

    // ---- sales ----

    /** `from("sales").insert(row).select().single()`: the row gets a fresh id, returned. */
    function InsertSale(row: Sale, fails: bool): Step<Option<Id>> {
      if fails then Step(Record(Insert(Sales)), None)
      else Step(Record(Insert(Sales)).(sales := sales + [row.(id := nextId)], nextId := nextId + 1), Some(nextId))
    }

    /** `from("sale_items").insert(rows)`: all rows or none. */
    function InsertSaleItems(rows: seq<SaleItem>, fails: bool): Step<bool> {
      if fails then Step(Record(Insert(SaleItems)), false)
      else Step(Record(Insert(SaleItems)).(saleItems := saleItems + rows), true)
    }

    /** `from("sales").delete().eq("id", id)`. */
    function DeleteSale(id: Id, fails: bool): Step<bool> {
      if fails then Step(Record(Delete(Sales, id)), false)
      else Step(Record(Delete(Sales, id)).(sales := Filter(sales, SaleIdIsNot(id))), true)
    }

    // ---- purchases ----

    function InsertPurchase(row: Purchase, fails: bool): Step<Option<Id>> {
      if fails then Step(Record(Insert(Purchases)), None)
      else Step(Record(Insert(Purchases)).(purchases := purchases + [row.(id := nextId)], nextId := nextId + 1), Some(nextId))
    }

    function InsertPurchaseItems(rows: seq<PurchaseItem>, fails: bool): Step<bool> {
      if fails then Step(Record(Insert(PurchaseItems)), false)
      else Step(Record(Insert(PurchaseItems)).(purchaseItems := purchaseItems + rows), true)
    }

    function DeletePurchase(id: Id, fails: bool): Step<bool> {
      if fails then Step(Record(Delete(Purchases, id)), false)
      else Step(Record(Delete(Purchases, id)).(purchases := Filter(purchases, PurchaseIdIsNot(id))), true)
    }

    // ---- products ----

    function InsertProduct(row: Product, fails: bool): Step<bool> {
      if fails then Step(Record(Insert(Products)), false)
      else Step(Record(Insert(Products)).(products := products + [row.(id := nextId)], nextId := nextId + 1), true)
    }

    /** `from("products").update(row).eq("id", id)`: every row with that id takes the new
        values and keeps its id; no matching row is not an error. */
    function UpdateProduct(id: Id, row: Product, fails: bool): Step<bool> {
      if fails then Step(Record(Update(Products, id)), false)
      else Step(Record(Update(Products, id)).(products :=
        seq(|products|, i requires 0 <= i < |products| => if products[i].id == id then row.(id := id) else products[i])), true)
    }

    // ---- profiles ----

    /** `from("profiles").select(...).eq("id", id).single()`: an error unless the row exists. */
    function SelectProfile(id: Id, fails: bool): Step<Option<ProfileRow>> {
      Step(Record(Select(Profiles)), if fails then None else FindProfile(profiles, id))
    }

    function SelectProfiles(fails: bool): Step<Query<ProfileRow>> {
      Step(Record(Select(Profiles)), if fails then QueryError else Rows(profiles))
    }

    function InsertProfile(row: ProfileRow, fails: bool): Step<bool> {
      if fails then Step(Record(Insert(Profiles)), false)
      else Step(Record(Insert(Profiles)).(profiles := profiles + [row]), true)
    }

    function SetProfiles(id: Id, f: ProfileRow -> ProfileRow): seq<ProfileRow> {
      seq(|profiles|, i requires 0 <= i < |profiles| => if profiles[i].id == id then f(profiles[i]) else profiles[i])
    }

    function UpdateRole(id: Id, role: string, fails: bool): Step<bool> {
      if fails then Step(Record(Update(Profiles, id)), false)
      else Step(Record(Update(Profiles, id)).(profiles := SetProfiles(id, (p: ProfileRow) => p.(role := role))), true)
    }

    function UpdateProfileFields(id: Id, full_name: string, commerce_name: string, phone: Option<string>, fails: bool): Step<bool> {
      if fails then Step(Record(Update(Profiles, id)), false)
      else Step(Record(Update(Profiles, id)).(profiles := SetProfiles(id,
        (p: ProfileRow) => p.(full_name := Some(full_name), commerce_name := Some(commerce_name), phone := phone))), true)
    }

    // ---- worker requests ----

    /** A new request; its id is generated and its status is the column default. */
    function InsertRequest(jefe_id: Id, full_name: string, email: string, password: string, fails: bool): Step<bool> {
      if fails then Step(Record(Insert(WorkerRequests)), false)
      else Step(Record(Insert(WorkerRequests)).(
        requests := requests + [WorkerRequest(nextId, jefe_id, full_name, email, password, PENDING)],
        nextId := nextId + 1), true)
    }

    function SelectPendingRequests(fails: bool): Step<Query<WorkerRequest>> {
      Step(Record(Select(WorkerRequests)), if fails then QueryError else Rows(Filter(requests, IsPending())))
    }

    function UpdateRequestStatus(id: Id, status: string, fails: bool): Step<bool> {
      if fails then Step(Record(Update(WorkerRequests, id)), false)
      else Step(Record(Update(WorkerRequests, id)).(requests :=
        seq(|requests|, i requires 0 <= i < |requests| => if requests[i].id == id then requests[i].(status := status) else requests[i])), true)
    }
  }

  /** The client object the components hold. Each method performs one call. */
  class Store {
    var db: Db

    constructor (init: Db)
      ensures db == init
    {
      db := init;
    }

    method GetUser(fails: bool) returns (user: Option<Id>)
      modifies this
      ensures Step(db, user) == old(db).GetUser(fails)
    {
      var r := db.GetUser(fails);
      db, user := r.db, r.out;
    }

    method SignIn(email: string, password: string, fails: bool) returns (user: Option<Id>)
      modifies this
      ensures Step(db, user) == old(db).SignIn(email, password, fails)
    {
      var r := db.SignIn(email, password, fails);
      db, user := r.db, r.out;
    }

    method SignOut()
      modifies this
      ensures db == old(db).SignOut()
    {
      db := db.SignOut();
    }

    method UpdatePassword(password: string, fails: bool) returns (ok: bool)
      modifies this
      ensures Step(db, ok) == old(db).UpdatePassword(password, fails)
    {
      var r := db.UpdatePassword(password, fails);
      db, ok := r.db, r.out;
    }

    method UpdateMetadata(full_name: string, commerce_name: string, phone: Option<string>, fails: bool) returns (ok: bool)
      modifies this
      ensures Step(db, ok) == old(db).UpdateMetadata(full_name, commerce_name, phone, fails)
    {
      var r := db.UpdateMetadata(full_name, commerce_name, phone, fails);
      db, ok := r.db, r.out;
    }

    method CreateUser(email: string, password: string, full_name: string, fails: bool) returns (user: Option<Id>)
      modifies this
      ensures Step(db, user) == old(db).CreateUser(email, password, full_name, fails)
    {
      var r := db.CreateUser(email, password, full_name, fails);
      db, user := r.db, r.out;
    }

    method DeleteUser(id: Id, fails: bool) returns (ok: bool)
      modifies this
      ensures Step(db, ok) == old(db).DeleteUser(id, fails)
    {
      var r := db.DeleteUser(id, fails);
      db, ok := r.db, r.out;
    }

    method InsertSale(row: Sale, fails: bool) returns (id: Option<Id>)
      modifies this
      ensures Step(db, id) == old(db).InsertSale(row, fails)
    {
      var r := db.InsertSale(row, fails);
      db, id := r.db, r.out;
    }

    method InsertSaleItems(rows: seq<SaleItem>, fails: bool) returns (ok: bool)
      modifies this
      ensures Step(db, ok) == old(db).InsertSaleItems(rows, fails)
    {
      var r := db.InsertSaleItems(rows, fails);
      db, ok := r.db, r.out;
    }

    method DeleteSale(id: Id, fails: bool) returns (ok: bool)
      modifies this
      ensures Step(db, ok) == old(db).DeleteSale(id, fails)
    {
      var r := db.DeleteSale(id, fails);
      db, ok := r.db, r.out;
    }

    method InsertPurchase(row: Purchase, fails: bool) returns (id: Option<Id>)
      modifies this
      ensures Step(db, id) == old(db).InsertPurchase(row, fails)
    {
      var r := db.InsertPurchase(row, fails);
      db, id := r.db, r.out;
    }

    method InsertPurchaseItems(rows: seq<PurchaseItem>, fails: bool) returns (ok: bool)
      modifies this
      ensures Step(db, ok) == old(db).InsertPurchaseItems(rows, fails)
    {
      var r := db.InsertPurchaseItems(rows, fails);
      db, ok := r.db, r.out;
    }

    method DeletePurchase(id: Id, fails: bool) returns (ok: bool)
      modifies this
      ensures Step(db, ok) == old(db).DeletePurchase(id, fails)
    {
      var r := db.DeletePurchase(id, fails);
      db, ok := r.db, r.out;
    }

    method InsertProduct(row: Product, fails: bool) returns (ok: bool)
      modifies this
      ensures Step(db, ok) == old(db).InsertProduct(row, fails)
    {
      var r := db.InsertProduct(row, fails);
      db, ok := r.db, r.out;
    }

    method UpdateProduct(id: Id, row: Product, fails: bool) returns (ok: bool)
      modifies this
      ensures Step(db, ok) == old(db).UpdateProduct(id, row, fails)
    {
      var r := db.UpdateProduct(id, row, fails);
      db, ok := r.db, r.out;
    }

    method SelectProfile(id: Id, fails: bool) returns (row: Option<ProfileRow>)
      modifies this
      ensures Step(db, row) == old(db).SelectProfile(id, fails)
    {
      var r := db.SelectProfile(id, fails);
      db, row := r.db, r.out;
    }

    method SelectProfiles(fails: bool) returns (q: Query<ProfileRow>)
      modifies this
      ensures Step(db, q) == old(db).SelectProfiles(fails)
    {
      var r := db.SelectProfiles(fails);
      db, q := r.db, r.out;
    }

    method InsertProfile(row: ProfileRow, fails: bool) returns (ok: bool)
      modifies this
      ensures Step(db, ok) == old(db).InsertProfile(row, fails)
    {
      var r := db.InsertProfile(row, fails);
      db, ok := r.db, r.out;
    }

    method UpdateRole(id: Id, role: string, fails: bool) returns (ok: bool)
      modifies this
      ensures Step(db, ok) == old(db).UpdateRole(id, role, fails)
    {
      var r := db.UpdateRole(id, role, fails);
      db, ok := r.db, r.out;
    }

    method UpdateProfileFields(id: Id, full_name: string, commerce_name: string, phone: Option<string>, fails: bool)
      returns (ok: bool)
      modifies this
      ensures Step(db, ok) == old(db).UpdateProfileFields(id, full_name, commerce_name, phone, fails)
    {
      var r := db.UpdateProfileFields(id, full_name, commerce_name, phone, fails);
      db, ok := r.db, r.out;
    }

    method InsertRequest(jefe_id: Id, full_name: string, email: string, password: string, fails: bool)
      returns (ok: bool)
      modifies this
      ensures Step(db, ok) == old(db).InsertRequest(jefe_id, full_name, email, password, fails)
    {
      var r := db.InsertRequest(jefe_id, full_name, email, password, fails);
      db, ok := r.db, r.out;
    }

    method SelectPendingRequests(fails: bool) returns (q: Query<WorkerRequest>)
      modifies this
      ensures Step(db, q) == old(db).SelectPendingRequests(fails)
    {
      var r := db.SelectPendingRequests(fails);
      db, q := r.db, r.out;
    }

    method UpdateRequestStatus(id: Id, status: string, fails: bool) returns (ok: bool)
      modifies this
      ensures Step(db, ok) == old(db).UpdateRequestStatus(id, status, fails)
    {
      var r := db.UpdateRequestStatus(id, status, fails);
      db, ok := r.db, r.out;
    }
  }
}
