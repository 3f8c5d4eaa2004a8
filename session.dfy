/** The values the authentication context hands to every page: `{user, profile, loading}`.
    How the context obtains them is not part of this model; they are plain inputs. */
module Session {

  import opened Common

  type UserId = nat

  const ADMIN := "admin"
  const PENDIENTE := "pendiente"
  const APROBADO := "aprobado"
  const CAJERO := "cajero"
  const RECHAZADO := "rechazado"

  /** A profile row as the context exposes it. The role is the stored text, which need
      not be one of the five documented values. */
  datatype Profile = Profile(
    role: string,
    full_name: Option<string>,
    commerce_name: Option<string>,
    phone: Option<string>)

  datatype AuthState = AuthState(loading: bool, user: Option<UserId>, profile: Option<Profile>)

  /** The role, when both a user and a profile are present. */
  function RoleOf(s: AuthState): Option<string> {
    if s.user.Some? && s.profile.Some? then Some(s.profile.value.role) else None
  }

  /** What a guard or page shows: the loading placeholder, its own content, or a
      `<Navigate>` to another path. */
  datatype View = Placeholder | Content | Redirect(to: string)

  const LOGIN := "/login"
  const DASHBOARD := "/dashboard"
  const PENDING_APPROVAL := "/pending-approval"
  const ADMIN_LOGIN := "/admin/login"
  const ADMIN_DASHBOARD := "/admin/dashboard"
}
