/** The guard around the anonymous-only pages. */
module PublicRoute {

  import opened Common
  import opened Session

  /** Anonymous-only pages (`/`, `/login`, `/registro`). */
  function Decide(s: AuthState): (v: View)
    ensures v == Placeholder <==> s.loading
    ensures v == Content <==> !s.loading && RoleOf(s).None?
    ensures v == Redirect(ADMIN_DASHBOARD) <==> !s.loading && RoleOf(s) == Some(ADMIN)
    ensures v == Redirect(PENDING_APPROVAL) <==> !s.loading && RoleOf(s) == Some(PENDIENTE)
    ensures v == Redirect(DASHBOARD) <==>
      !s.loading && RoleOf(s).Some? && RoleOf(s).value != ADMIN && RoleOf(s).value != PENDIENTE
  {
    if s.loading then Placeholder
    else if s.user.Some? && s.profile.Some? then
      if s.profile.value.role == ADMIN then Redirect(ADMIN_DASHBOARD)
      else if s.profile.value.role == PENDIENTE then Redirect(PENDING_APPROVAL)
      else Redirect(DASHBOARD)
    else Content
  }
}
