/** The settings form that changes the signed-in user's password. */
module PasswordForm {

  import opened Common
  import opened Remote

  datatype Values = Values(password: string, confirmPassword: string)

  const DEFAULTS := Values("", "")
  const MIN_PASSWORD := 6

  datatype Field = Password | ConfirmPassword

  /** The fields `passwordSchema` reports: the length check on the password, and the
      cross-field check, which is reported on the confirmation and runs even when the
      length check has failed. */
  function Errors(v: Values): set<Field> {
    (if |v.password| < MIN_PASSWORD then {Password} else {})
    + (if v.password != v.confirmPassword then {ConfirmPassword} else {})
  }

  /** The form is accepted exactly when the password has six characters or more and the
      confirmation repeats it; a mismatch is never reported on the password itself. */
  lemma ErrorsExactly(v: Values)
    ensures Errors(v) == {} <==> |v.password| >= MIN_PASSWORD && v.password == v.confirmPassword
    ensures Password in Errors(v) <==> |v.password| < MIN_PASSWORD
    ensures ConfirmPassword in Errors(v) <==> v.password != v.confirmPassword
  {
  }

  datatype Result = Invalid | Refused | Changed

  function SubmitEffect(db: Db, v: Values, fails: bool): Step<Result> {
    if Errors(v) != {} then Step(db, Invalid)
    else
      var u := db.UpdatePassword(v.password, fails);
      Step(u.db, if u.out then Changed else Refused)
  }

  /** After a change, the signed-in account signs in with its email and the new password. */
  lemma ChangedPasswordSignsIn(db: Db, v: Values, fails: bool, signInFails: bool)
    requires SubmitEffect(db, v, fails).out == Changed
    ensures var d := SubmitEffect(db, v, fails).db;
      forall i :: 0 <= i < |db.accounts| && Some(db.accounts[i].id) == db.session ==>
        d.SignIn(db.accounts[i].email, v.password, false).out.Some?
  {
    var d := SubmitEffect(db, v, fails).db;
    forall i | 0 <= i < |db.accounts| && Some(db.accounts[i].id) == db.session
      ensures d.SignIn(db.accounts[i].email, v.password, false).out.Some?
    {
      assert d.accounts[i] == db.accounts[i].(password := v.password);
    }
  }

  /** A change rewrites the password of the signed-in account only; a refused one
      changes no account. */
  lemma ChangeTouchesOnlyTheUser(db: Db, v: Values, fails: bool)
    requires SubmitEffect(db, v, fails).out in {Changed, Refused}
    ensures var d := SubmitEffect(db, v, fails);
      && |d.db.accounts| == |db.accounts|
      && (d.out == Refused ==> d.db.accounts == db.accounts)
      && (d.out == Changed ==> db.session.Some? && forall i :: 0 <= i < |db.accounts| ==>
            d.db.accounts[i] == if db.accounts[i].id == db.session.value then db.accounts[i].(password := v.password) else db.accounts[i])
  {
  }

  class Form {
    var values: Values
    var loading: bool

    constructor ()
      ensures values == DEFAULTS && !loading
    {
      values, loading := DEFAULTS, false;
    }

    /** `onSubmit`: `loading` ends false whatever the answer, and the form is reset only
        after a change. */
    method Submit(store: Store, fails: bool) returns (r: Result)
      modifies this, store
      ensures Step(store.db, r) == SubmitEffect(old(store.db), old(values), fails)
      ensures r == Changed ==> values == DEFAULTS
      ensures r != Changed ==> values == old(values)
      ensures r == Invalid ==> loading == old(loading)
      ensures r != Invalid ==> !loading
    {
      if Errors(values) != {} {
        return Invalid;
      }
      loading := true;
      var ok := store.UpdatePassword(values.password, fails);
      loading := false;
      if ok {
        values := DEFAULTS;
        r := Changed;
      } else {
        r := Refused;
      }
    }
  }
}
