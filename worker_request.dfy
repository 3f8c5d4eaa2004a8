/** The form an owner uses to ask for a cashier account: its schema and the insert of the
    request row. The email format check is a parameter (`isEmail`). */
module WorkerRequestForm {

  import opened Common
  import opened Remote

  datatype Values = Values(worker_full_name: string, worker_email: string, worker_temp_password: string)

  const DEFAULTS := Values("", "", "")
  const MIN_PASSWORD := 6

  datatype Field = FullName | Email | TempPassword

  /** The fields `requestSchema` reports. */
  function Errors(v: Values, isEmail: string -> bool): set<Field> {
    (if |v.worker_full_name| < 1 then {FullName} else {})
    + (if !isEmail(v.worker_email) then {Email} else {})
    + (if |v.worker_temp_password| < MIN_PASSWORD then {TempPassword} else {})
  }

  /** The schema accepts exactly a non-empty name, a well-formed email and a password of
      at least six characters. */
  lemma ErrorsExactly(v: Values, isEmail: string -> bool)
    ensures Errors(v, isEmail) == {} <==>
      |v.worker_full_name| >= 1 && isEmail(v.worker_email) && |v.worker_temp_password| >= MIN_PASSWORD
  {
    if |v.worker_full_name| < 1 {
      assert FullName in Errors(v, isEmail);
    } else if !isEmail(v.worker_email) {
      assert Email in Errors(v, isEmail);
    } else if |v.worker_temp_password| < MIN_PASSWORD {
      assert TempPassword in Errors(v, isEmail);
    }
  }

  /** The empty form the dialog starts with cannot be sent. */
  lemma DefaultsRefused(isEmail: string -> bool)
    ensures FullName in Errors(DEFAULTS, isEmail) && TempPassword in Errors(DEFAULTS, isEmail)
  {
  }

  datatype Result = Invalid | NotAuthenticated | Refused | Sent

  /** `handleSubmit(onSubmit)`; the user comes from the auth context, so no call is made
      to find it. */
  function SubmitEffect(db: Db, v: Values, user: Option<Id>, isEmail: string -> bool, fails: bool): Step<Result> {
    if Errors(v, isEmail) != {} then Step(db, Invalid)
    else if user.None? then Step(db, NotAuthenticated)
    else
      var r := db.InsertRequest(user.value, v.worker_full_name, v.worker_email, v.worker_temp_password, fails);
      Step(r.db, if r.out then Sent else Refused)
  }

  /** Only a valid form with a user reaches the store; what it writes is the user as
      owner and exactly the three fields, with the default status. */
  lemma SubmitWritesRequest(db: Db, v: Values, user: Option<Id>, isEmail: string -> bool, fails: bool)
    ensures SubmitEffect(db, v, user, isEmail, fails).out in {Invalid, NotAuthenticated} ==>
      SubmitEffect(db, v, user, isEmail, fails).db == db
    ensures SubmitEffect(db, v, user, isEmail, fails).out == Sent ==>
      SubmitEffect(db, v, user, isEmail, fails).db.requests == db.requests +
        [WorkerRequest(db.nextId, user.value, v.worker_full_name, v.worker_email, v.worker_temp_password, PENDING)]
    ensures SubmitEffect(db, v, user, isEmail, fails).out == Refused ==>
      SubmitEffect(db, v, user, isEmail, fails).db.requests == db.requests
    ensures SubmitEffect(db, v, user, isEmail, fails).out == Sent <==>
      Errors(v, isEmail) == {} && user.Some? && !fails
  {
  }

  /** The dialog; `isOpen` is the parent's state. */
  class Form {
    var isOpen: bool
    var values: Values

    constructor (isOpen: bool)
      ensures this.isOpen == isOpen && values == DEFAULTS
    {
      this.isOpen, values := isOpen, DEFAULTS;
    }

    /** `onSuccess` is called exactly when the result is `Sent`. */
    method Submit(store: Store, user: Option<Id>, isEmail: string -> bool, fails: bool) returns (r: Result)
      modifies this, store
      ensures Step(store.db, r) == SubmitEffect(old(store.db), old(values), user, isEmail, fails)
      ensures r == Sent ==> !isOpen && values == DEFAULTS
      ensures r != Sent ==> isOpen == old(isOpen) && values == old(values)
    {
      if Errors(values, isEmail) != {} {
        return Invalid;
      }
      if user.None? {
        return NotAuthenticated;
      }
      var ok := store.InsertRequest(user.value, values.worker_full_name, values.worker_email, values.worker_temp_password, fails);
      if !ok {
        return Refused;
      }
      isOpen := false;
      values := DEFAULTS;
      r := Sent;
    }
  }
}
