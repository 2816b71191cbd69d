/** Users, their single optional role, and the role check `user_has_role`. */
module Accounts {
  import opened Wrappers

  /** The three values of `RoleName`. */
  datatype RoleName = Admin | Technician | Reporter

  /**
   * A user as the core sees it: Django's superuser and staff flags and the
   * role named by the user's one `UserRole` row, or None when it has none.
   */
  datatype User = User(id: nat, username: string, isSuperuser: bool, isStaff: bool, role: Option<RoleName>)

  /**
   * `user_has_role`: a superuser counts as Admin; otherwise a role holds
   * only when the user's `UserRole` names it.
   */
  function UserHasRole(u: User, r: RoleName): (b: bool)
    ensures u.isSuperuser && r == Admin ==> b
    ensures !(u.isSuperuser && r == Admin) ==> (b <==> u.role == Some(r))
    ensures u.role.None? ==> (b <==> u.isSuperuser && r == Admin)
  {
    (u.isSuperuser && r == Admin) || (u.role.Some? && u.role.value == r)
  }

  /** A user without a `UserRole` holds no role, not even Reporter, unless a superuser asks for Admin. */
  lemma NoRoleNoPrivilege(u: User, r: RoleName)
    requires u.role.None?
    ensures UserHasRole(u, r) <==> r == Admin && u.isSuperuser
  {
  }

  /** Superuser and staff flags never make a user a Technician on their own. */
  lemma FlagsDoNotMakeTechnician(u: User)
    ensures UserHasRole(u, Technician) <==> u.role == Some(Technician)
  {
  }
}
