/** The fixed role table and the guard every protected route runs first
    (app/utils.py). */
module Roles {
  import opened Common

  const ADMIN: string := "administrador"
  const ANALYST: string := "analista"
  const VIEWER: string := "visualizador"

  /** `ROLES`: symbolic name to the role text stored on accounts. */
  const ROLES: map<string, string> := map["ADMIN" := ADMIN, "ANALYST" := ANALYST, "VIEWER" := VIEWER]

  /** Membership in `ROLES.values()`, the test registration and account
      update use to accept a role. */
  predicate IsRole(role: string) {
    role in ROLES.Values
  }

  lemma RolesTable()
    ensures ROLES.Keys == {"ADMIN", "ANALYST", "VIEWER"}
    ensures ROLES.Values == {ADMIN, ANALYST, VIEWER}
    ensures ADMIN != ANALYST && ANALYST != VIEWER && ADMIN != VIEWER
    ensures forall role :: IsRole(role) <==> role == ADMIN || role == ANALYST || role == VIEWER
  {
    assert ROLES["ADMIN"] == ADMIN && ROLES["ANALYST"] == ANALYST && ROLES["VIEWER"] == VIEWER;
  }

  /** What `role_required` decides before the wrapped handler may run: the
      caller's account is looked up first, then its role is tested. */
  datatype Decision = Deny(status: Status) | Admit(caller: User)

  function RoleRequired(users: map<Id, User>, callerId: Id, requiredRoles: seq<string>): (d: Decision)
    ensures d == Deny(NotFound404) <==> callerId !in users
    ensures d == Deny(Forbidden403) <==> callerId in users && users[callerId].role !in requiredRoles
    ensures d.Admit? <==> callerId in users && users[callerId].role in requiredRoles
    ensures d.Admit? ==> d.caller == users[callerId]
  {
    if callerId !in users then Deny(NotFound404)
    else if users[callerId].role !in requiredRoles then Deny(Forbidden403)
    else Admit(users[callerId])
  }

  /** The outcome of a decorated handler: refused by the guard, or whatever
      the handler returned. */
  datatype Guarded<T> = Refused(status: Status) | Ran(result: T)

  /** The decorator itself: `handler` only runs on an admitted caller, and its
      result is passed through untouched. */
  function Wrapper<T>(users: map<Id, User>, callerId: Id, requiredRoles: seq<string>, handler: User -> T): (r: Guarded<T>)
    ensures r == Refused(NotFound404) <==> callerId !in users
    ensures r == Refused(Forbidden403) <==> callerId in users && users[callerId].role !in requiredRoles
    ensures r.Ran? <==> callerId in users && users[callerId].role in requiredRoles
    ensures r.Ran? ==> r.result == handler(users[callerId])
  {
    match RoleRequired(users, callerId, requiredRoles)
    case Deny(s) => Refused(s)
    case Admit(u) => Ran(handler(u))
  }

  /** The missing-account test comes before any role test: an unknown caller
      gets 404 whatever roles the route admits, even when it admits them all. */
  lemma UnknownCallerBeforeRoleTest(users: map<Id, User>, callerId: Id, rolesA: seq<string>, rolesB: seq<string>)
    requires callerId !in users
    ensures RoleRequired(users, callerId, rolesA) == RoleRequired(users, callerId, rolesB) == Deny(NotFound404)
  {
  }
}
