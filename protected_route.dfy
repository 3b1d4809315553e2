/**
 * The route guard (src/components/ProtectedRoute.tsx): a pure decision over the signed-in user
 * and the optional allow-list of roles a route names.
 */
module ProtectedRoute {
  import opened Wrappers
  import opened Users

  datatype Decision = RedirectToLogin | RedirectToDashboard | RenderOutlet

  /**
   * No user: go to `/login`. A present allow-list (even an empty one, which JavaScript treats as
   * truthy) that lacks the user's role: go to `/dashboard`. Otherwise render the nested route.
   */
  function Decide(user: Option<User>, allowedRoles: Option<seq<Role>>): (d: Decision)
    ensures d == RedirectToLogin <==> user.None?
    ensures d == RenderOutlet <==>
              user.Some? && (allowedRoles.None? || user.value.role in allowedRoles.value)
  {
    if user.None? then RedirectToLogin
    else if allowedRoles.Some? && user.value.role !in allowedRoles.value then RedirectToDashboard
    else RenderOutlet
  }

  /** A present but empty allow-list turns every signed-in user away. */
  lemma EmptyAllowListDeniesAll(u: User)
    ensures Decide(Some(u), Some([])) == RedirectToDashboard
  {
  }

  /** Roles are tags, not a hierarchy: an administrator is refused a manager-only route. */
  lemma NoRoleHierarchy(u: User)
    requires u.role == ADMIN
    ensures Decide(Some(u), Some([MANAGER])) == RedirectToDashboard
  {
  }

  /** Only the role is consulted: name, e-mail, status and token never change the decision. */
  lemma OnlyRoleMatters(u: User, v: User, allowedRoles: Option<seq<Role>>)
    requires u.role == v.role
    ensures Decide(Some(u), allowedRoles) == Decide(Some(v), allowedRoles)
  {
  }

  /** An inactive account with an allowed role is let through. */
  lemma InactiveUserAdmitted(u: User, allowedRoles: seq<Role>)
    requires u.status == INACTIVE && u.role in allowedRoles
    ensures Decide(Some(u), Some(allowedRoles)) == RenderOutlet
  {
  }
}
