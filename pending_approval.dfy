/** The pending-approval page: a navigation effect and a choice between two cards. */
module PendingApproval {

  import opened Common
  import opened Session
  import opened Navigation

  /** Where the page's effect navigates, if anywhere. */
  function EffectTarget(s: AuthState): (t: Option<string>)
    ensures s.loading ==> t.None?
    ensures t == Some(LOGIN) <==> !s.loading && s.user.None?
    ensures t == Some(DASHBOARD) <==>
      !s.loading && s.user.Some? && s.profile.Some? && s.profile.value.role != PENDIENTE
    ensures t.None? <==>
      s.loading || (s.user.Some? && (s.profile.None? || s.profile.value.role == PENDIENTE))
  {
    if !s.loading then
      if s.user.None? then Some(LOGIN)
      else if s.profile.Some? && s.profile.value.role != PENDIENTE then Some(DASHBOARD)
      else None
    else None
  }

  /** The effect, as it runs after a render: it calls `navigate` at most once. */
  method RunEffect(s: AuthState, router: Router)
    modifies router
    ensures EffectTarget(s).Some? ==> router.history == old(router.history) + [EffectTarget(s).value]
    ensures EffectTarget(s).None? ==> router.history == old(router.history)
  {
    if !s.loading {
      if s.user.None? {
        router.Navigate(LOGIN);
      } else if s.profile.Some? && s.profile.value.role != PENDIENTE {
        router.Navigate(DASHBOARD);
      }
    }
  }

  /** The two cards the page renders. */
  datatype Card = Verifying | AwaitingApproval

  function CardShown(s: AuthState): (c: Card)
    ensures c == AwaitingApproval <==> !s.loading && s.profile.Some?
  {
    if s.loading || s.profile.None? then Verifying else AwaitingApproval
  }

  /** A signed-in user without a profile is neither moved nor shown the approval
      message: the verifying card stays up. */
  lemma NoProfileStaysVerifying(u: UserId)
    ensures EffectTarget(AuthState(false, Some(u), None)).None?
    ensures CardShown(AuthState(false, Some(u), None)) == Verifying
  {
  }
}
