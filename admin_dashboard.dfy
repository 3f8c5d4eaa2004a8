/** The administration page: it loads all profiles and the pending worker requests, changes
    roles, approves requests through the `create-worker` function or rejects them, and
    deletes users through the `delete-user-and-data` function (one admin account delete). */
module AdminDashboard {

  import opened Common
  import opened Session
  import opened Remote
  import opened Navigation
  import CreateWorker
  import WorkerRequestForm

  /** The roles the selector offers. */
  const ROLE_OPTIONS: seq<string> := [APROBADO, CAJERO, PENDIENTE, ADMIN]
  const REJECTED := "rejected"

  /** The selector cannot set a user to rejected. */
  lemma RoleOptionsExcludeRejected()
    ensures RECHAZADO !in ROLE_OPTIONS && Distinct(ROLE_OPTIONS)
  {
  }

  /** The two queries of `fetchData`, one after the other; the lists, when both answered. */
  function FetchEffect(db: Db, profilesFail: bool, requestsFail: bool): Step<Option<(seq<ProfileRow>, seq<WorkerRequest>)>> {
    var p := db.SelectProfiles(profilesFail);
    var r := p.db.SelectPendingRequests(requestsFail);
    if p.out.QueryError? || r.out.QueryError? then Step(r.db, None)
    else Step(r.db, Some((p.out.rows, r.out.rows)))
  }

  /** Both queries are always sent; the lists come only when neither failed, and then
      they are every profile and exactly the pending requests, in table order. */
  lemma FetchLists(db: Db, profilesFail: bool, requestsFail: bool)
    ensures FetchEffect(db, profilesFail, requestsFail).db
      == db.(log := db.log + [Select(Profiles), Select(WorkerRequests)])
    ensures FetchEffect(db, profilesFail, requestsFail).out.Some? <==> !profilesFail && !requestsFail
    ensures FetchEffect(db, profilesFail, requestsFail).out.Some? ==>
      var (ps, rs) := FetchEffect(db, profilesFail, requestsFail).out.value;
      && ps == db.profiles
      && (forall i :: 0 <= i < |rs| ==> rs[i].status == PENDING && rs[i] in db.requests)
      && (forall i :: 0 <= i < |db.requests| && db.requests[i].status == PENDING ==> db.requests[i] in rs)
      && SubsequenceOf(rs, db.requests)
  {
    FilterIsSubsequence(db.requests, IsPending());
  }

  /** The body sent to `create-worker` to approve a request. */
  function ApprovalRequest(r: WorkerRequest): CreateWorker.HttpRequest {
    CreateWorker.HttpRequest("POST", Some(CreateWorker.Body(
      Some(r.id), Some(r.worker_email), Some(r.worker_temp_password), Some(r.worker_full_name), Some(r.jefe_id))))
  }

  /** A request written by the request form carries every parameter the function needs,
      as long as a well-formed email is never empty. */
  lemma ApprovalRequestComplete(db: Db, v: WorkerRequestForm.Values, user: Option<Id>, isEmail: string -> bool, fails: bool)
    requires forall e :: isEmail(e) ==> e != ""
    requires WorkerRequestForm.SubmitEffect(db, v, user, isEmail, fails).out == WorkerRequestForm.Sent
    ensures var rs := WorkerRequestForm.SubmitEffect(db, v, user, isEmail, fails).db.requests;
      CreateWorker.HasAllParameters(ApprovalRequest(rs[|rs| - 1]).body.value)
  {
    WorkerRequestForm.ErrorsExactly(v, isEmail);
    WorkerRequestForm.SubmitWritesRequest(db, v, user, isEmail, fails);
  }

  /** What `handleRequest` does before it reloads: approving leaves everything to the
      function; rejecting writes the one status. */
  function DecideEffect(db: Db, r: WorkerRequest, approve: bool, f: CreateWorker.Faults, rejectFails: bool): Step<bool> {
    if approve then
      var h := CreateWorker.Handle(db, ApprovalRequest(r), f);
      Step(h.db, !h.out.Failed?)
    else db.UpdateRequestStatus(r.id, REJECTED, rejectFails)
  }

  /** Approving writes nothing from the page itself: the store changes exactly as the
      function changes it, and the outcome is its answer. */
  lemma ApproveIsCreateWorker(db: Db, r: WorkerRequest, f: CreateWorker.Faults, rejectFails: bool)
    ensures DecideEffect(db, r, true, f, rejectFails).db == CreateWorker.Handle(db, ApprovalRequest(r), f).db
    ensures DecideEffect(db, r, true, f, rejectFails).out <==> CreateWorker.Status(CreateWorker.Handle(db, ApprovalRequest(r), f).out) == 200
  {
  }

  /** Rejecting sets that request's status to rejected and touches no other row. */
  lemma RejectTouchesOnlyThatRequest(db: Db, r: WorkerRequest, f: CreateWorker.Faults)
    ensures var d := DecideEffect(db, r, false, f, false).db;
      && |d.requests| == |db.requests|
      && (forall i :: 0 <= i < |d.requests| ==>
            d.requests[i] == if db.requests[i].id == r.id then db.requests[i].(status := REJECTED) else db.requests[i])
      && d == db.(requests := d.requests, log := db.log + [Update(WorkerRequests, r.id)])
  {
  }

  class Page {
    var profiles: seq<ProfileRow>
    var requests: seq<WorkerRequest>
    var loading: bool
    var userToDelete: Option<ProfileRow>

    constructor ()
      ensures profiles == [] && requests == [] && loading && userToDelete.None?
    {
      profiles, requests, loading, userToDelete := [], [], true, None;
    }

    /** `fetchData`: a failed query leaves both lists alone; `loading` ends false. */
    method FetchData(store: Store, profilesFail: bool, requestsFail: bool)
      modifies this, store
      ensures store.db == FetchEffect(old(store.db), profilesFail, requestsFail).db
      ensures var out := FetchEffect(old(store.db), profilesFail, requestsFail).out;
        if out.Some? then profiles == out.value.0 && requests == out.value.1
        else profiles == old(profiles) && requests == old(requests)
      ensures !loading && userToDelete == old(userToDelete)
    {
      loading := true;
      var ps := store.SelectProfiles(profilesFail);
      var rs := store.SelectPendingRequests(requestsFail);
      if ps.Rows? && rs.Rows? {
        profiles := ps.rows;
        requests := rs.rows;
      }
      loading := false;
    }

    /** `handleRoleChange`: the page reloads only after a successful update. */
    method HandleRoleChange(store: Store, userId: Id, newRole: string, fails: bool, profilesFail: bool, requestsFail: bool)
      returns (ok: bool)
      modifies this, store
      ensures ok == old(store.db).UpdateRole(userId, newRole, fails).out
      ensures ok ==> store.db == FetchEffect(old(store.db).UpdateRole(userId, newRole, fails).db, profilesFail, requestsFail).db
      ensures !ok ==> (store.db == old(store.db).UpdateRole(userId, newRole, fails).db
        && profiles == old(profiles) && requests == old(requests) && loading == old(loading))
      ensures userToDelete == old(userToDelete)
    {
      ok := store.UpdateRole(userId, newRole, fails);
      if ok {
        FetchData(store, profilesFail, requestsFail);
      }
    }

    /** `handleRequest`: approve or reject, then reload whatever the outcome. */
    method HandleRequest(store: Store, r: WorkerRequest, approve: bool, f: CreateWorker.Faults, rejectFails: bool,
                         profilesFail: bool, requestsFail: bool)
      returns (ok: bool)
      modifies this, store
      ensures var d := DecideEffect(old(store.db), r, approve, f, rejectFails);
        ok == d.out && store.db == FetchEffect(d.db, profilesFail, requestsFail).db
      ensures var out := FetchEffect(DecideEffect(old(store.db), r, approve, f, rejectFails).db, profilesFail, requestsFail).out;
        if out.Some? then profiles == out.value.0 && requests == out.value.1
        else profiles == old(profiles) && requests == old(requests)
      ensures !loading && userToDelete == old(userToDelete)
    {
      if approve {
        var reply := CreateWorker.Serve(store, ApprovalRequest(r), f);
        ok := !reply.Failed?;
      } else {
        ok := store.UpdateRequestStatus(r.id, REJECTED, rejectFails);
      }
      FetchData(store, profilesFail, requestsFail);
    }

    /** The trash button of a profile row. */
    method SelectForDeletion(p: ProfileRow)
      modifies this
      ensures userToDelete == Some(p)
      ensures profiles == old(profiles) && requests == old(requests) && loading == old(loading)
    {
      userToDelete := Some(p);
    }

    /** `handleDeleteUser`: nothing without a selection; otherwise delete the account,
        clear the selection and reload, whatever the outcome. */
    method HandleDeleteUser(store: Store, fails: bool, profilesFail: bool, requestsFail: bool)
      modifies this, store
      ensures old(userToDelete).None? ==> (store.db == old(store.db) && profiles == old(profiles)
        && requests == old(requests) && loading == old(loading) && userToDelete.None?)
      ensures old(userToDelete).Some? ==>
        (store.db == FetchEffect(old(store.db).DeleteUser(old(userToDelete).value.id, fails).db, profilesFail, requestsFail).db
        && userToDelete.None? && !loading)
    {
      if userToDelete.None? {
        return;
      }
      var _ := store.DeleteUser(userToDelete.value.id, fails);
      userToDelete := None;
      FetchData(store, profilesFail, requestsFail);
    }

    /** `handleLogout`: sign out first, then go to the admin login. */
    method HandleLogout(store: Store, router: Router)
      modifies store, router
      ensures store.db == old(store.db).SignOut()
      ensures router.history == old(router.history) + [ADMIN_LOGIN]
    {
      store.SignOut();
      router.Navigate(ADMIN_LOGIN);
    }
  }
}
