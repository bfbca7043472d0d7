/** RoleGuard.canActivate (role-guard.guard.ts): membership of the user's role
    name in the roles a route declares. It reads `request.user` only and never
    verifies a token itself. */
module RoleGuard {
  import opened Common
  import opened Jwt

  const Insufficient := "权限不足"

  /** `@Role('admin')`: the pendings, approve-request and reject-request routes. */
  const AdminOnly: seq<string> := ["admin"]
  /** `@Role('admin', 'super')`: the user update, delete and list routes. */
  const AdminOrSuper: seq<string> := ["admin", "super"]

  /** `required` is the route's role metadata (absent when the route declares
      none); `user` is whatever `request.user` holds. */
  function CanActivate(required: Option<seq<string>>, user: Option<Payload>): (r: Result<bool>)
    ensures r.Ok? ==> r.value
    ensures r.Err? ==> r.error == Unauthorized(Insufficient)
    ensures r.Ok? <==>
              || required.None?
              || (user.Some? && RoleName(user.value.user.role).Some?
                  && RoleName(user.value.user.role).value in required.value)
  {
    match required
    case None => Ok(true)
    case Some(roles) =>
      if user.None? then Err(Unauthorized(Insufficient))
      else match RoleName(user.value.user.role)
        case None => Err(Unauthorized(Insufficient))
        case Some(name) => if name in roles then Ok(true) else Err(Unauthorized(Insufficient))
  }

  /** Membership is by exact name, not by rank: a super user is turned away
      from an admin-only route, and let through where 'super' is listed. */
  lemma SuperIsNotAdmin(p: Payload)
    requires p.user.role == SuperRole
    ensures CanActivate(Some(AdminOnly), Some(p)) == Err(Unauthorized(Insufficient))
    ensures CanActivate(Some(AdminOrSuper), Some(p)) == Ok(true)
  {
  }

  /** A route that declares roles, even an empty list, turns away a request
      without a user. */
  lemma NoUserNoEntry(roles: seq<string>)
    ensures CanActivate(Some(roles), None) == Err(Unauthorized(Insufficient))
  {
  }
}
