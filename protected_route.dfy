/**
 * The route guard (src/components/ProtectedRoute.js): what a protected
 * route shows for the signed-in user the auth context holds.
 */
module ProtectedRoute {
  import opened Common

  /** What the guard returns. */
  datatype Outcome = ShowLoading | RedirectTo(path: string) | RenderChildren

  /** `roles && !roles.includes(user.role)`: a role list is given and the
      user's role, possibly missing, is not in it. */
  predicate RoleRefused(roles: Option<seq<string>>, role: Option<string>)
  {
    roles.Some? && !(role.Some? && role.value in roles.value)
  }

  /** The guard's chain of early returns. */
  function Guard(userLoading: bool, user: Option<User>, roles: Option<seq<string>>): (outcome: Outcome)
    ensures userLoading ==> outcome == ShowLoading
    ensures !userLoading && user.None? ==> outcome == RedirectTo("/login")
    ensures !userLoading && user.Some? && RoleRefused(roles, user.value.role) ==> outcome == RedirectTo("/")
    ensures outcome == RenderChildren <==>
              !userLoading && user.Some?
              && (roles.None? || (user.value.role.Some? && user.value.role.value in roles.value))
  {
    if userLoading then ShowLoading
    else if user.None? then RedirectTo("/login")
    else if RoleRefused(roles, user.value.role) then RedirectTo("/")
    else RenderChildren
  }

  /** Without a role list any loaded user sees the children, whatever their role. */
  lemma AnyRoleWithoutRoleList(user: User)
    ensures Guard(false, Some(user), None) == RenderChildren
  {
  }

  /** A user without a role never passes a role list, even an empty one. */
  lemma MissingRoleRefused(user: User, roles: seq<string>)
    requires user.role.None?
    ensures Guard(false, Some(user), Some(roles)) == RedirectTo("/")
  {
  }

  /** The guard never leaves the three answers: children, loading, or one of the two redirects. */
  lemma OutcomeKinds(userLoading: bool, user: Option<User>, roles: Option<seq<string>>)
    ensures Guard(userLoading, user, roles) in {ShowLoading, RedirectTo("/login"), RedirectTo("/"), RenderChildren}
  {
  }
}
