/** The guard around the admin area. */
module AdminRoute {

  import opened Common
  import opened Session

  /** The admin area (`/admin/dashboard`). */
  function Decide(s: AuthState): (v: View)
    ensures v == Placeholder <==> s.loading
    ensures v == Content <==> !s.loading && RoleOf(s) == Some(ADMIN)
    ensures v == Redirect(LOGIN) <==> !s.loading && RoleOf(s) != Some(ADMIN)
  {
    if s.loading then Placeholder
    else if s.user.None? || s.profile.None? || s.profile.value.role != ADMIN then Redirect(LOGIN)
    else Content
  }

  /** The guard's only redirect leaves the admin area, so it cannot send a non-admin
      back into itself. */
  lemma RedirectLeavesAdminArea(s: AuthState)
    requires Decide(s).Redirect?
    ensures !(ADMIN_DASHBOARD <= Decide(s).to) && !("/admin/" <= Decide(s).to)
  {
  }
}
