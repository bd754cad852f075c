/**
 * The route guard (src/components/auth/ProtectedRoute.tsx) and the role
 * lists the route table (src/routes/AppRoutes.tsx) hands to it.
 */
module ProtectedRoute {
  import opened Wrappers
  import opened Domain

  /** What the guard renders. */
  datatype Outcome =
    | Spinner
    | RedirectToLogin(from: string)   // `<Navigate to="/login" state={{ from: location }} />`
    | RedirectHome                    // `<Navigate to="/" />`
    | RenderChildren
    | RenderOutlet

  predicate Admits(o: Outcome)
  {
    o.RenderChildren? || o.RenderOutlet?
  }

  /**
   * The guard's decision: loading first, then authentication, then role.
   * `allowedRoles` is `None` when the route gives no list.
   */
  function Guard(loading: bool, user: Option<User>, allowedRoles: Option<seq<Role>>, hasChildren: bool, location: string): (o: Outcome)
    ensures o == Spinner <==> loading
    ensures o.RedirectToLogin? <==> !loading && user.None?
    ensures o.RedirectToLogin? ==> o.from == location
    ensures o == RedirectHome <==> !loading && user.Some? && allowedRoles.Some? && user.value.role !in allowedRoles.value
    ensures Admits(o) ==> (o == RenderChildren <==> hasChildren)
  {
    if loading then Spinner
    else if user.None? then RedirectToLogin(location)
    else if allowedRoles.Some? && user.value.role !in allowedRoles.value then RedirectHome
    else if hasChildren then RenderChildren
    else RenderOutlet
  }

  /** An authenticated user is admitted exactly when the route has no role list or lists the user's role. */
  lemma AdmittedIff(user: User, allowedRoles: Option<seq<Role>>, hasChildren: bool, location: string)
    ensures Admits(Guard(false, Some(user), allowedRoles, hasChildren, location))
      <==> allowedRoles.None? || user.role in allowedRoles.value
  {
  }

  /** A visitor without a session is never sent to `/`: authentication is checked before roles. */
  lemma UnauthenticatedNeverSentHome(loading: bool, allowedRoles: Option<seq<Role>>, hasChildren: bool, location: string)
    ensures Guard(loading, None, allowedRoles, hasChildren, location) != RedirectHome
  {
  }

  // The role lists of the guarded routes.
  const CreateTaskRoles: seq<Role> := [Owner, Manager]
  const CreateOrderRoles: seq<Role> := [Owner, Manager, Operator]
  const TimeOffRequestsRoles: seq<Role> := [Owner]
  const InvitationsRoles: seq<Role> := [Owner, Manager]

  /** The pending time-off requests page only admits owners. */
  lemma OnlyOwnersReviewTimeOff(user: User, hasChildren: bool, location: string)
    ensures Admits(Guard(false, Some(user), Some(TimeOffRequestsRoles), hasChildren, location)) <==> user.role == Owner
  {
  }
}
