/**
 * The role gate of the backend (middleware/authorize.js): a request goes
 * on to its handler only when it carries a user whose role is one of the
 * allowed roles; otherwise it is answered 403.
 */
module Authorize {
  import opened Types

  /** `req.user` as set by the token check: an id and a role string. */
  datatype RequestUser = RequestUser(id: string, role: string)

  /** What the middleware does with a request. */
  datatype Decision = Forbidden(status: int, msg: string) | Next

  const ForbiddenStatus: int := 403
  const ForbiddenMessage: string := "Acceso prohibido. No tienes los permisos necesarios."

  /** `authorize(...allowedRoles)` applied to a request. */
  function Authorize(allowedRoles: seq<string>, user: Option<RequestUser>): (d: Decision)
    ensures d.Next? <==> user.Some? && user.value.role in allowedRoles
    ensures d.Forbidden? ==> d.status == ForbiddenStatus && d.msg == ForbiddenMessage
  {
    if user.None? || user.value.role !in allowedRoles then Forbidden(ForbiddenStatus, ForbiddenMessage)
    else Next
  }

  /** With no allowed roles every request is refused. */
  lemma NoRolesDeniesAll(user: Option<RequestUser>)
    ensures Authorize([], user) == Forbidden(ForbiddenStatus, ForbiddenMessage)
  {
  }

  /** Allowing more roles never turns a passing request away. */
  lemma MoreRolesAllowMore(allowed: seq<string>, extra: seq<string>, user: Option<RequestUser>)
    requires Authorize(allowed, user).Next?
    ensures Authorize(allowed + extra, user).Next? && Authorize(extra + allowed, user).Next?
  {
  }

  /** The admin-only routes let through exactly the users whose role is "admin". */
  lemma AdminOnly(user: RequestUser)
    ensures Authorize([RoleName(Admin)], Some(user)).Next? <==> user.role == "admin"
  {
  }
}
