/** The administrators' login page: sign in, look up the role, then either enter the admin
    area or sign out again. The email format check is a parameter (`isEmail`). */
module AdminLogin {

  import opened Common
  import opened Session
  import opened Remote
  import opened Navigation

  datatype Values = Values(email: string, password: string)

  /** `loginSchema`: a well-formed email and a non-empty password. */
  predicate Valid(v: Values, isEmail: string -> bool) {
    isEmail(v.email) && |v.password| >= 1
  }

  datatype Result = Invalid | SignInRefused | RoleUnknown | NotAdmin | Admitted

  function LoginEffect(db: Db, v: Values, isEmail: string -> bool, signInFails: bool, lookupFails: bool): Step<Result> {
    if !Valid(v, isEmail) then Step(db, Invalid)
    else
      var s := db.SignIn(v.email, v.password, signInFails);
      if s.out.None? then Step(s.db, SignInRefused)
      else
        var p := s.db.SelectProfile(s.out.value, lookupFails);
        if p.out.None? then Step(p.db.SignOut(), RoleUnknown)
        else if p.out.value.role == ADMIN then Step(p.db, Admitted)
        else Step(p.db.SignOut(), NotAdmin)
  }

  /** A refused sign-in looks nothing up and leaves the session as it was. */
  lemma SignInRefusedStops(db: Db, v: Values, isEmail: string -> bool, signInFails: bool, lookupFails: bool)
    requires LoginEffect(db, v, isEmail, signInFails, lookupFails).out == SignInRefused
    ensures LoginEffect(db, v, isEmail, signInFails, lookupFails).db == db.(log := db.log + [Call.SignIn(v.email)])
  {
  }

  /** Exactly an account with these credentials whose profile says admin is let in, and
      it stays signed in. */
  lemma AdmittedExactlyWhen(db: Db, v: Values, isEmail: string -> bool, signInFails: bool, lookupFails: bool)
    ensures var a := FindAccount(db.accounts, v.email, v.password);
      LoginEffect(db, v, isEmail, signInFails, lookupFails).out == Admitted <==>
        && Valid(v, isEmail) && !signInFails && a.Some? && !lookupFails
        && FindProfile(db.profiles, a.value.id).Some? && FindProfile(db.profiles, a.value.id).value.role == ADMIN
    ensures LoginEffect(db, v, isEmail, signInFails, lookupFails).out == Admitted ==>
      LoginEffect(db, v, isEmail, signInFails, lookupFails).db.session == Some(FindAccount(db.accounts, v.email, v.password).value.id)
  {
  }

  /** Whoever signed in without being confirmed as an admin is signed out again. */
  lemma OthersSignedOut(db: Db, v: Values, isEmail: string -> bool, signInFails: bool, lookupFails: bool)
    requires LoginEffect(db, v, isEmail, signInFails, lookupFails).out in {RoleUnknown, NotAdmin}
    ensures LoginEffect(db, v, isEmail, signInFails, lookupFails).db.session.None?
    ensures Call.SignOut in LoginEffect(db, v, isEmail, signInFails, lookupFails).db.log
  {
  }

  class Page {
    var loading: bool

    constructor ()
      ensures !loading
    {
      loading := false;
    }

    /** `onSubmit` behind the schema check: only an admitted login navigates, and once
        submitted, `loading` is false on every exit. */
    method Submit(store: Store, router: Router, v: Values, isEmail: string -> bool, signInFails: bool, lookupFails: bool)
      returns (r: Result)
      modifies this, store, router
      ensures Step(store.db, r) == LoginEffect(old(store.db), v, isEmail, signInFails, lookupFails)
      ensures router.history == old(router.history) + (if r == Admitted then [ADMIN_DASHBOARD] else [])
      ensures if r == Invalid then loading == old(loading) else !loading
    {
      if !Valid(v, isEmail) {
        return Invalid;
      }
      loading := true;
      var user := store.SignIn(v.email, v.password, signInFails);
      if user.None? {
        loading := false;
        return SignInRefused;
      }
      var profile := store.SelectProfile(user.value, lookupFails);
      if profile.None? {
        loading := false;
        store.SignOut();
        return RoleUnknown;
      }
      if profile.value.role == ADMIN {
        router.Navigate(ADMIN_DASHBOARD);
        r := Admitted;
      } else {
        store.SignOut();
        r := NotAdmin;
      }
      loading := false;
    }
  }
}
