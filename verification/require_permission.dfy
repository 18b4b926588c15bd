/**
  The `requirePermission(perm)` middleware: the decision it takes for a
  request, given the authenticated user attached to it (if any).
 */
module RequirePermission {
  import opened Js

  /** `req.user`: its `role` and `permissions` as they were attached. */
  datatype User = User(role: Json, permissions: Json)

  /** Passing to the next handler, or the JSON error response sent. */
  datatype Decision = Next | Refused(status: nat, message: string)

  /** `perms.includes(x)`: element membership on an array, substring
      search on a string, and a `TypeError` on any other value. */
  function Includes(perms: Json, x: string): Result<bool> {
    if perms.Arr? then Ok(Str(x) in perms.items)
    else if perms.Str? then Ok(Contains(perms.s, x))
    else Err("TypeError")
  }

  /** `req.user?.permissions || []` */
  function Permissions(user: Option<User>): Json {
    if user.None? then Arr([]) else Or(user.value.permissions, Arr([]))
  }

  /** The middleware's decision for permission `perm`. */
  function Decide(perm: string, user: Option<User>): (d: Decision)
    ensures d.Refused? ==> d.status in {403, 500}
    ensures d.Refused? && d.status == 403 ==> d.message == "Permissão insuficiente"
    ensures d.Refused? && d.status == 500 ==> d.message == "Erro interno"
  {
    var admin := user.Some? && user.value.role == Str("admin");
    if admin then Next
    else
      var perms := Permissions(user);
      match Includes(perms, "*")
      case Err(_) => Refused(500, "Erro interno")
      case Ok(star) =>
        if star then Next
        else
          match Includes(perms, perm)
          case Err(_) => Refused(500, "Erro interno")
          case Ok(exact) => if exact then Next else Refused(403, "Permissão insuficiente")
  }

  /** An administrator passes whatever the permission. */
  lemma AdminAllowed(perm: string, permissions: Json)
    ensures Decide(perm, Some(User(Str("admin"), permissions))) == Next
  {
  }

  /** A request without a user is refused with 403. */
  lemma MissingUserDenied(perm: string)
    ensures Decide(perm, None) == Refused(403, "Permissão insuficiente")
  {
    assert Str("*") !in Permissions(None).items;
  }

  /** For a list of permissions: the request passes exactly when the user
      is an administrator, holds `*` or holds `perm`, and is otherwise
      refused with 403. */
  lemma ListDecision(perm: string, role: Json, perms: seq<Json>)
    ensures Decide(perm, Some(User(role, Arr(perms)))) == Next <==>
      role == Str("admin") || Str("*") in perms || Str(perm) in perms
    ensures Decide(perm, Some(User(role, Arr(perms)))) != Next ==>
      Decide(perm, Some(User(role, Arr(perms)))) == Refused(403, "Permissão insuficiente")
  {
  }

  /** A falsy permissions value is read as the empty list, so only an
      administrator passes. */
  lemma FalsyPermissions(perm: string, role: Json, permissions: Json)
    requires !Truthy(permissions)
    ensures Decide(perm, Some(User(role, permissions))) == Next <==> role == Str("admin")
  {
    assert Str("*") !in Arr([]).items && Str(perm) !in Arr([]).items;
  }
}
