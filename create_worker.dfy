/** The `create-worker` edge function: it provisions a cashier account for an approved
    worker request with the service's admin rights, and deletes the new account again when
    a later step fails. Its responses are modelled by kind and status code only. */
module CreateWorker {

  import opened Common
  import opened Remote
  import Session

  /** The JSON body. Absent fields are `None`; the checks treat an empty string as absent. */
  datatype Body = Body(
    request_id: Option<Id>, worker_email: Option<string>, worker_temp_password: Option<string>,
    worker_full_name: Option<string>, jefe_id: Option<Id>)

  /** An incoming request; `body` is `None` when it does not parse as JSON. */
  datatype HttpRequest = HttpRequest(verb: string, body: Option<Body>)

  datatype Failure = BadBody | MissingParameters | AccountRefused | OwnerNotFound | ProfileRefused

  datatype Reply = Preflight | Created | Failed(reason: Failure)

  function Status(r: Reply): (code: nat)
    ensures code == 400 <==> r.Failed?
    ensures code == 200 <==> !r.Failed?
  {
    if r.Failed? then 400 else 200
  }

  /** Which of the service calls are refused. */
  datatype Faults = Faults(createUser: bool, ownerLookup: bool, profileInsert: bool, statusUpdate: bool, deleteUser: bool)

  const APPROVED := "approved"

  predicate Present(s: Option<string>) {
    s.Some? && s.value != ""
  }

  predicate HasAllParameters(b: Body) {
    b.request_id.Some? && Present(b.worker_email) && Present(b.worker_temp_password)
    && Present(b.worker_full_name) && b.jefe_id.Some?
  }

  /** The profile given to the new account: the cashier role and the owner's commerce. */
  function WorkerProfile(id: Id, b: Body, owner: ProfileRow): ProfileRow
    requires HasAllParameters(b)
  {
    ProfileRow(id, Some(b.worker_full_name.value), owner.commerce_name, None, Session.CAJERO)
  }

  /** What one request does to the store and what it answers. */
  function Handle(db: Db, req: HttpRequest, f: Faults): Step<Reply> {
    if req.verb == "OPTIONS" then Step(db, Preflight)
    else if req.body.None? then Step(db, Failed(BadBody))
    else if !HasAllParameters(req.body.value) then Step(db, Failed(MissingParameters))
    else
      var b := req.body.value;
      var c := db.CreateUser(b.worker_email.value, b.worker_temp_password.value, b.worker_full_name.value, f.createUser);
      if c.out.None? then Step(c.db, Failed(AccountRefused))
      else
        var uid := c.out.value;
        var o := c.db.SelectProfile(b.jefe_id.value, f.ownerLookup);
        if o.out.None? then Step(o.db.DeleteUser(uid, f.deleteUser).db, Failed(OwnerNotFound))
        else
          var p := o.db.InsertProfile(WorkerProfile(uid, b, o.out.value), f.profileInsert);
          if !p.out then Step(p.db.DeleteUser(uid, f.deleteUser).db, Failed(ProfileRefused))
          else Step(p.db.UpdateRequestStatus(b.request_id.value, APPROVED, f.statusUpdate).db, Created)
  }

  /** The preflight answers "ok" and touches nothing. */
  lemma PreflightHasNoEffect(db: Db, req: HttpRequest, f: Faults)
    requires req.verb == "OPTIONS"
    ensures Handle(db, req, f) == Step(db, Preflight)
  {
  }

  /** A missing or empty parameter is refused before any call is made. */
  lemma MissingParametersRefusedFirst(db: Db, req: HttpRequest, f: Faults)
    requires req.verb != "OPTIONS" && req.body.Some? && !HasAllParameters(req.body.value)
    ensures Handle(db, req, f) == Step(db, Failed(MissingParameters))
    ensures Status(Handle(db, req, f).out) == 400
  {
  }

  /** An email that is already registered is refused like any other account error: 400,
      and nothing but the attempt is recorded. */
  lemma RegisteredEmailRefused(db: Db, req: HttpRequest, f: Faults)
    requires req.verb != "OPTIONS" && req.body.Some? && HasAllParameters(req.body.value)
    requires Registered(db.accounts, req.body.value.worker_email.value)
    ensures Handle(db, req, f) == Step(db.(log := db.log + [CreateUser(req.body.value.worker_email.value)]), Failed(AccountRefused))
  {
  }

  /** Exactly which combinations end in a created worker. The request-status update and
      the compensating deletes play no part: a refused status update is only logged. */
  lemma CreatedExactlyWhen(db: Db, req: HttpRequest, f: Faults)
    ensures Handle(db, req, f).out == Created <==>
      && req.verb != "OPTIONS" && req.body.Some? && HasAllParameters(req.body.value)
      && !f.createUser && !Registered(db.accounts, req.body.value.worker_email.value)
      && !f.ownerLookup && FindProfile(db.profiles, req.body.value.jefe_id.value).Some?
      && !f.profileInsert
  {
  }

  /** A created worker has exactly one new account and one new profile: the cashier role,
      the requested name, and the owner's commerce. */
  lemma CreatedWorker(db: Db, req: HttpRequest, f: Faults)
    requires Handle(db, req, f).out == Created
    ensures req.body.Some? && HasAllParameters(req.body.value)
    ensures var b := req.body.value;
      var owner := FindProfile(db.profiles, b.jefe_id.value);
      && owner.Some?
      && Handle(db, req, f).db.accounts == db.accounts +
           [Account(db.nextId, b.worker_email.value, b.worker_temp_password.value, Some(b.worker_full_name.value), None, None)]
      && Handle(db, req, f).db.profiles == db.profiles +
           [ProfileRow(db.nextId, Some(b.worker_full_name.value), owner.value.commerce_name, None, Session.CAJERO)]
  {
  }

  lemma {:induction false} UndoAccount(accounts: seq<Account>, a: Account)
    requires forall i :: 0 <= i < |accounts| ==> accounts[i].id < a.id
    ensures Filter(accounts + [a], AccountIdIsNot(a.id)) == accounts
  {
    FilterAppend(accounts, [a], AccountIdIsNot(a.id));
    FilterAll(accounts, AccountIdIsNot(a.id));
    assert Filter([a], AccountIdIsNot(a.id)) == [] + Filter([a][1..], AccountIdIsNot(a.id));
  }

  /** Every failure answers 400, and once the account exists a failure deletes it: when
      that delete goes through, the accounts are as before and no profile was added. */
  lemma FailureLeavesNoAccount(db: Db, req: HttpRequest, f: Faults)
    requires db.Valid()
    requires Handle(db, req, f).out.Failed? && !f.deleteUser
    ensures Status(Handle(db, req, f).out) == 400
    ensures Handle(db, req, f).db.accounts == db.accounts
    ensures Handle(db, req, f).db.profiles == db.profiles
  {
    var r := Handle(db, req, f);
    if r.out.reason == OwnerNotFound || r.out.reason == ProfileRefused {
      var b := req.body.value;
      UndoAccount(db.accounts,
        Account(db.nextId, b.worker_email.value, b.worker_temp_password.value, Some(b.worker_full_name.value), None, None));
    }
  }

  /** The handler run against the store, one awaited call after another. */
  method Serve(store: Store, req: HttpRequest, f: Faults) returns (reply: Reply)
    modifies store
    ensures Step(store.db, reply) == Handle(old(store.db), req, f)
  {
    if req.verb == "OPTIONS" {
      return Preflight;
    }
    if req.body.None? {
      return Failed(BadBody);
    }
    var b := req.body.value;
    if !HasAllParameters(b) {
      return Failed(MissingParameters);
    }
    var uid := store.CreateUser(b.worker_email.value, b.worker_temp_password.value, b.worker_full_name.value, f.createUser);
    if uid.None? {
      return Failed(AccountRefused);
    }
    var owner := store.SelectProfile(b.jefe_id.value, f.ownerLookup);
    if owner.None? {
      var _ := store.DeleteUser(uid.value, f.deleteUser);
      return Failed(OwnerNotFound);
    }
    var inserted := store.InsertProfile(WorkerProfile(uid.value, b, owner.value), f.profileInsert);
    if !inserted {
      var _ := store.DeleteUser(uid.value, f.deleteUser);
      return Failed(ProfileRefused);
    }
    var _ := store.UpdateRequestStatus(b.request_id.value, APPROVED, f.statusUpdate);
    reply := Created;
  }
}
