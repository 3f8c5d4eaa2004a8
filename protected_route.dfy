/** The guard around the general authenticated area. It yields exactly one view for
    every `{user, profile, loading}`. */
module ProtectedRoute {

  import opened Common
  import opened Session

  /** The general authenticated area (`/dashboard`). */
  function Decide(s: AuthState): (v: View)
    ensures v == Placeholder <==> s.loading
    ensures v == Redirect(LOGIN) <==> !s.loading && RoleOf(s).None?
    ensures v == Redirect(ADMIN_DASHBOARD) <==> !s.loading && RoleOf(s) == Some(ADMIN)
    ensures v == Redirect(PENDING_APPROVAL) <==> !s.loading && RoleOf(s) == Some(PENDIENTE)
    ensures v == Content <==>
      !s.loading && RoleOf(s).Some? && RoleOf(s).value != ADMIN && RoleOf(s).value != PENDIENTE
  {
    if s.loading then Placeholder
    else if s.user.None? || s.profile.None? then Redirect(LOGIN)
    else if s.profile.value.role == ADMIN then Redirect(ADMIN_DASHBOARD)
    else if s.profile.value.role == PENDIENTE then Redirect(PENDING_APPROVAL)
    else Content
  }

  /** Every role other than admin and pendiente sees the content: the two other
      documented roles, the rejected role, and any unrecognised text. */
  lemma OtherRolesSeeContent(u: UserId, p: Profile)
    requires p.role != ADMIN && p.role != PENDIENTE
    ensures Decide(AuthState(false, Some(u), Some(p))) == Content
  {
  }
}
