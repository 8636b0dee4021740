/** Account registration, login and the administrator's account routes
    (app/routes/user_routes.py), over an in-memory identity store. */
module Accounts {
  import opened Common
  import opened Roles

  /** Roles admitted by the account-administration routes. */
  const ADMIN_ONLY: seq<string> := [ADMIN]

  /** A payload text field that is present and not empty (`if not x` fails). */
  predicate Filled(payload: map<string, string>, key: string) {
    key in payload && payload[key] != ""
  }

  /** Index in `order` of the first account named `name`, or `|order|`. */
  function FirstNamed(order: seq<Id>, users: map<Id, User>, name: string): (k: nat)
    requires forall id :: id in order ==> id in users
    ensures k <= |order|
    ensures k < |order| ==> users[order[k]].username == name
    ensures forall j :: 0 <= j < k ==> users[order[j]].username != name
  {
    if order == [] then 0
    else if users[order[0]].username == name then 0
    else 1 + FirstNamed(order[1..], users, name)
  }

  /** `find_one({"username": name})`: the first account in collection order
      with that name. */
  function FindByUsername(order: seq<Id>, users: map<Id, User>, name: string): (r: Option<Id>)
    requires forall id :: id in order ==> id in users
    ensures r.None? <==> forall id :: id in order ==> users[id].username != name
    ensures r.Some? ==> r.value in order && users[r.value].username == name
  {
    var k := FirstNamed(order, users, name);
    if k < |order| then Some(order[k]) else None
  }

  predicate NameTaken(users: map<Id, User>, name: string) {
    exists id :: id in users && users[id].username == name
  }

  predicate UniqueNames(users: map<Id, User>) {
    forall a, b :: a in users && b in users && a != b ==> users[a].username != users[b].username
  }

  function Public(id: Id, u: User): PublicUser {
    PublicUser(id, u.username, u.role)
  }

  /** The `update_data` an administrator's update collects; a field left
      `None` is not written. */
  datatype UserPatch = UserPatch(username: Option<string>, role: Option<string>, passwordHash: Option<string>)
  {
    predicate IsEmpty() { username.None? && role.None? && passwordHash.None? }
  }

  /** The account after `$set` of the collected fields. */
  function Patched(u: User, p: UserPatch): User {
    User(
      if p.username.Some? then p.username.value else u.username,
      if p.passwordHash.Some? then p.passwordHash.value else u.passwordHash,
      if p.role.Some? then p.role.value else u.role)
  }

  /** The identity store: the accounts collection in insertion order, and the
      one-way password hash it is configured with. */
  class IdentityStore {
    var users: map<Id, User>
    var order: seq<Id>
    const hash: string -> string

    ghost predicate Valid()
      reads this
    {
      && Distinct(order)
      && (forall id :: id in users <==> id in order)
      && (forall id :: id in users ==> IsRole(users[id].role))
      && (forall id :: id in users ==> CanonicalId(id))
    }

    constructor (hash: string -> string)
      ensures Valid()
      ensures users == map[] && order == [] && this.hash == hash
    {
      users := map[];
      order := [];
      this.hash := hash;
    }

    /** `POST /register`. Missing or empty name or password: 400; a taken name:
        409; a role outside the table: 400; otherwise the account is stored with
        the hash of the password, under the fresh id the database assigns. */
    method Register(payload: map<string, string>, newId: Id) returns (status: Status, created: Option<PublicUser>)
      requires Valid() && CanonicalId(newId) && newId !in users
      modifies this
      ensures Valid()
      ensures !Filled(payload, "username") || !Filled(payload, "password") ==>
                status == BadRequest400
      ensures Filled(payload, "username") && Filled(payload, "password") && NameTaken(old(users), payload["username"]) ==>
                status == Conflict409
      ensures Filled(payload, "username") && Filled(payload, "password") && !NameTaken(old(users), payload["username"])
              && !IsRole(GetText(payload, "role", VIEWER)) ==>
                status == BadRequest400
      ensures status == Created201 <==>
                Filled(payload, "username") && Filled(payload, "password")
                && !NameTaken(old(users), payload["username"]) && IsRole(GetText(payload, "role", VIEWER))
      ensures status == Created201 ==>
                && users == old(users)[newId := User(payload["username"], hash(payload["password"]), GetText(payload, "role", VIEWER))]
                && order == old(order) + [newId]
                && created == Some(PublicUser(newId, payload["username"], GetText(payload, "role", VIEWER)))
      ensures status != Created201 ==> users == old(users) && order == old(order) && created == None
      ensures UniqueNames(old(users)) ==> UniqueNames(users)
    {
      var role := GetText(payload, "role", VIEWER);
      if !Filled(payload, "username") || !Filled(payload, "password") {
        return BadRequest400, None;
      }
      var name := payload["username"];
      if FindByUsername(order, users, name).Some? {
        return Conflict409, None;
      }
      if !IsRole(role) {
        return BadRequest400, None;
      }
      if UniqueNames(users) {
        RegistrationKeepsNamesUnique(users, newId, User(name, hash(payload["password"]), role));
      }
      users := users[newId := User(name, hash(payload["password"]), role)];
      order := order + [newId];
      status, created := Created201, Some(PublicUser(newId, name, role));
    }

    /** `POST /login`. The account is the first one with the given name; an
        unknown name and a wrong password both give 401. A known name sent
        without any password makes the hash check raise, which is a 500. */
    function Login(payload: map<string, string>): (r: Result<(Id, PublicUser)>)
      reads this
      requires Valid()
      ensures "username" !in payload ==> r == Err(Unauthorized401)
      ensures "username" in payload && !NameTaken(users, payload["username"]) ==> r == Err(Unauthorized401)
      ensures r.Ok? <==>
                && "username" in payload && "password" in payload
                && FindByUsername(order, users, payload["username"]).Some?
                && users[FindByUsername(order, users, payload["username"]).value].passwordHash == hash(payload["password"])
      ensures r.Ok? ==>
                && r.value.0 in users
                && r.value.0 == FindByUsername(order, users, payload["username"]).value
                && r.value.1 == Public(r.value.0, users[r.value.0])
      ensures r.Err? ==> r.error in {Unauthorized401, ServerError500}
      ensures r == Err(ServerError500) <==>
                "username" in payload && NameTaken(users, payload["username"]) && "password" !in payload
    {
      if "username" !in payload then Err(Unauthorized401)
      else
        match FindByUsername(order, users, payload["username"])
        case None => Err(Unauthorized401)
        case Some(id) =>
          if "password" !in payload then Err(ServerError500)
          else if users[id].passwordHash != hash(payload["password"]) then Err(Unauthorized401)
          else Ok((id, Public(id, users[id])))
    }

    /** `GET /users`: every account, in collection order, without its hash. */
    method ListUsers(callerId: Id) returns (status: Status, list: seq<PublicUser>)
      requires Valid()
      ensures RoleRequired(users, callerId, ADMIN_ONLY).Deny? ==>
                status == RoleRequired(users, callerId, ADMIN_ONLY).status && list == []
      ensures RoleRequired(users, callerId, ADMIN_ONLY).Admit? ==>
                && status == Ok200
                && |list| == |order|
                && forall k :: 0 <= k < |order| ==> list[k] == Public(order[k], users[order[k]])
    {
      var decision := RoleRequired(users, callerId, ADMIN_ONLY);
      if decision.Deny? {
        return decision.status, [];
      }
      list := [];
      for i := 0 to |order|
        invariant |list| == i
        invariant forall k :: 0 <= k < i ==> list[k] == Public(order[k], users[order[k]])
      {
        var id := order[i];
        list := list + [Public(id, users[id])];
      }
      status := Ok200;
    }

    /** `GET /users/<id>`: guard, then 400 for a malformed id, then 404. The
        id may be written in either case. */
    function GetUser(callerId: Id, userId: string): (r: Result<PublicUser>)
      reads this
      ensures RoleRequired(users, callerId, ADMIN_ONLY).Deny? ==>
                r == Err(RoleRequired(users, callerId, ADMIN_ONLY).status)
      ensures RoleRequired(users, callerId, ADMIN_ONLY).Admit? ==>
                && (r == Err(BadRequest400) <==> !ValidId(userId))
                && (r == Err(NotFound404) <==> ValidId(userId) && IdKey(userId) !in users)
                && (r.Ok? <==> ValidId(userId) && IdKey(userId) in users)
      ensures r.Ok? ==> ValidId(userId) && r.value == Public(IdKey(userId), users[IdKey(userId)])
    {
      match RoleRequired(users, callerId, ADMIN_ONLY)
      case Deny(s) => Err(s)
      case Admit(_) =>
        if !ValidId(userId) then Err(BadRequest400)
        else if IdKey(userId) !in users then Err(NotFound404)
        else Ok(Public(IdKey(userId), users[IdKey(userId)]))
    }

    /** `PUT /users/<id>`. Collects `username`, `role` (checked against the
        table) and the hash of `password`; nothing else. The new name is not
        checked for uniqueness. */
    method UpdateUser(callerId: Id, userId: string, payload: map<string, string>) returns (status: Status, updated: Option<PublicUser>)
      requires Valid()
      modifies this
      ensures Valid()
      ensures order == old(order)
      ensures RoleRequired(old(users), callerId, ADMIN_ONLY).Deny? ==>
                status == RoleRequired(old(users), callerId, ADMIN_ONLY).status
      ensures RoleRequired(old(users), callerId, ADMIN_ONLY).Admit? ==>
                && (!ValidId(userId) ==> status == BadRequest400)
                && (ValidId(userId) && IdKey(userId) !in old(users) ==> status == NotFound404)
                && (ValidId(userId) && IdKey(userId) in old(users) && "role" in payload && !IsRole(payload["role"]) ==>
                      status == BadRequest400)
                && (ValidId(userId) && IdKey(userId) in old(users)
                    && "username" !in payload && "role" !in payload && "password" !in payload ==>
                      status == BadRequest400)
      ensures status == Ok200 <==>
                && RoleRequired(old(users), callerId, ADMIN_ONLY).Admit?
                && ValidId(userId) && IdKey(userId) in old(users)
                && ("role" in payload ==> IsRole(payload["role"]))
                && ("username" in payload || "role" in payload || "password" in payload)
      ensures status == Ok200 ==>
                var key := IdKey(userId);
                && users == old(users)[key := Patched(old(users)[key], PatchFor(payload))]
                && updated == Some(Public(key, users[key]))
      ensures status != Ok200 ==> users == old(users) && updated == None
    {
      var decision := RoleRequired(users, callerId, ADMIN_ONLY);
      if decision.Deny? {
        return decision.status, None;
      }
      if !ValidId(userId) {
        return BadRequest400, None;
      }
      var key := IdKey(userId);
      if key !in users {
        return NotFound404, None;
      }
      var patch := UserPatch(None, None, None);
      if "username" in payload {
        patch := patch.(username := Some(payload["username"]));
      }
      if "role" in payload {
        if !IsRole(payload["role"]) {
          return BadRequest400, None;
        }
        patch := patch.(role := Some(payload["role"]));
      }
      if "password" in payload {
        patch := patch.(passwordHash := Some(hash(payload["password"])));
      }
      assert patch == PatchFor(payload);
      if patch.IsEmpty() {
        return BadRequest400, None;
      }
      users := users[key := Patched(users[key], patch)];
      status, updated := Ok200, Some(Public(key, users[key]));
    }

    /** The fields an update with an accepted `payload` writes. */
    function PatchFor(payload: map<string, string>): (p: UserPatch)
      reads this
      ensures p.username == (if "username" in payload then Some(payload["username"]) else None)
      ensures p.role == (if "role" in payload then Some(payload["role"]) else None)
      ensures p.passwordHash == (if "password" in payload then Some(hash(payload["password"])) else None)
      ensures p.IsEmpty() <==> "username" !in payload && "role" !in payload && "password" !in payload
    {
      UserPatch(
        if "username" in payload then Some(payload["username"]) else None,
        if "role" in payload then Some(payload["role"]) else None,
        if "password" in payload then Some(hash(payload["password"])) else None)
    }

    /** `DELETE /users/<id>`: guard, 400 for a malformed id, 404 when nothing
        was deleted, otherwise the account is gone. */
    method DeleteUser(callerId: Id, userId: string) returns (status: Status)
      requires Valid()
      modifies this
      ensures Valid()
      ensures RoleRequired(old(users), callerId, ADMIN_ONLY).Deny? ==>
                status == RoleRequired(old(users), callerId, ADMIN_ONLY).status
      ensures RoleRequired(old(users), callerId, ADMIN_ONLY).Admit? ==>
                && (!ValidId(userId) ==> status == BadRequest400)
                && (ValidId(userId) && IdKey(userId) !in old(users) ==> status == NotFound404)
                && (ValidId(userId) && IdKey(userId) in old(users) ==> status == Ok200)
      ensures status == Ok200 ==>
                ValidId(userId) && users == old(users) - {IdKey(userId)} && order == Without(old(order), IdKey(userId))
      ensures status != Ok200 ==> users == old(users) && order == old(order)
    {
      var decision := RoleRequired(users, callerId, ADMIN_ONLY);
      if decision.Deny? {
        return decision.status;
      }
      if !ValidId(userId) {
        return BadRequest400;
      }
      var key := IdKey(userId);
      if key !in users {
        return NotFound404;
      }
      users := users - {key};
      order := Without(order, key);
      status := Ok200;
    }
  }

  /** Registration keeps names unique: an account whose name is not taken,
      stored under a fresh id, leaves every name held by a single account. */
  lemma RegistrationKeepsNamesUnique(users: map<Id, User>, newId: Id, u: User)
    requires UniqueNames(users) && newId !in users && !NameTaken(users, u.username)
    ensures UniqueNames(users[newId := u])
  {
  }

  /** The administrator's update does not re-check the name: renaming one of
      two accounts to the other's name leaves two accounts with one name. */
  lemma {:induction false} UpdateCanDuplicateNames()
    ensures exists users: map<Id, User>, id: Id, p: UserPatch ::
              && UniqueNames(users) && id in users
              && !UniqueNames(users[id := Patched(users[id], p)])
  {
    var a, b := "aaaaaaaaaaaaaaaaaaaaaaaa", "bbbbbbbbbbbbbbbbbbbbbbbb";
    assert a != b by { assert a[0] != b[0]; }
    var users := map[a := User("ana", "h1", VIEWER), b := User("bia", "h2", VIEWER)];
    assert "ana" != "bia" by { assert "ana"[0] != "bia"[0]; }
    var p := UserPatch(Some("ana"), None, None);
    var after := users[b := Patched(users[b], p)];
    assert after[a].username == after[b].username;
    assert UniqueNames(users) && !UniqueNames(after);
  }

  /** The login lookup and the duplicate test of registration agree: a name is
      found exactly when some stored account carries it. */
  lemma {:induction false} FindMatchesNameTaken(order: seq<Id>, users: map<Id, User>, name: string)
    requires forall id :: id in order <==> id in users
    ensures FindByUsername(order, users, name).Some? <==> NameTaken(users, name)
  {
    if NameTaken(users, name) {
      var id :| id in users && users[id].username == name;
      assert id in order;
    }
  }
}
