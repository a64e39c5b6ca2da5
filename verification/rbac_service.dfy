/** RBAC management and resolution over the tables. */
module RbacService {
  import opened Wrappers
  import opened RbacInvariant
  import opened RbacModel
  import StringOrder

  const OPERATOR_PERMISSIONS: seq<string> := [
    "clusters:read", "resources:read", "resources:write", "secrets:read", "logs:read", "terminal:use",
    "events:read", "metrics:read", "credentials:issue", "k8s-proxy:use"]

  const VIEWER_PERMISSIONS: seq<string> := [
    "clusters:read", "resources:read", "secrets:read-masked", "logs:read", "events:read", "metrics:read",
    "credentials:issue", "k8s-proxy:use"]

  const BUILTIN_ROLES: map<int, Role> := map[
    1 := Role("admin", true, ["*"]),
    2 := Role("operator", true, OPERATOR_PERMISSIONS),
    3 := Role("viewer", true, VIEWER_PERMISSIONS)]

  datatype Identity = Admin | Operator | Viewer | OtherRole

  /** PermissionsFor: the permissions of the built-in role column. */
  function BuiltinPermissions(role: Identity): seq<string> {
    match role
    case Admin => ["*"]
    case Operator => OPERATOR_PERMISSIONS
    case Viewer => VIEWER_PERMISSIONS
    case OtherRole => []
  }

  predicate ValidPermissionPoint(p: string) {
    p == "*" || p in OPERATOR_PERMISSIONS || p in VIEWER_PERMISSIONS ||
    p in ["users:manage", "audit:read", "enroll-tokens:manage"]
  }

  /** A role needs a name and known permission points. */
  predicate ValidRole(name: string, permissions: seq<string>) {
    name != "" && forall i :: 0 <= i < |permissions| ==> ValidPermissionPoint(permissions[i])
  }

  /** What the user holds for a query: everything for admin, else the built-in set and the derivations. */
  ghost predicate Effective(db: Db, user: int, role: Identity, cluster: string, namespace: string, perm: string) {
    if role.Admin? then perm == "*"
    else perm in BuiltinPermissions(role) || Granted(db, user, cluster, namespace, perm)
  }

  predicate ValidScope(sc: Scope) {
    sc.cluster != "" && sc.namespace != "" && (sc.cluster == "*" ==> sc.namespace == "*")
  }

  predicate ValidScopes(scopes: seq<Scope>) {
    scopes != [] && forall i :: 0 <= i < |scopes| ==> ValidScope(scopes[i])
  }

  /** The four optional parameters of a grants listing; id 0 selects every id. */
  datatype SubjectFilter = AnySubject | Users | Groups | BadSubject
  datatype ObjectFilter = AnyObject | Roles | RoleGroups | BadObject
  datatype GrantFilter = GrantFilter(subject: SubjectFilter, subjectId: int, target: ObjectFilter, targetId: int)

  predicate SelectsSubject(f: GrantFilter, s: Subject) {
    match s
    case User(id) => (f.subject.AnySubject? || f.subject.Users?) && f.subjectId in {0, id}
    case Group(id) => (f.subject.AnySubject? || f.subject.Groups?) && f.subjectId in {0, id}
    case OtherSubject => false
  }

  predicate SelectsObject(f: GrantFilter, o: Object) {
    match o
    case RoleObject(id) => (f.target.AnyObject? || f.target.Roles?) && f.targetId in {0, id}
    case RoleGroup(id) => (f.target.AnyObject? || f.target.RoleGroups?) && f.targetId in {0, id}
    case OtherObject(_) => false
  }

  predicate Selects(f: GrantFilter, g: Grant) {
    SelectsSubject(f, g.subject) && SelectsObject(f, g.target)
  }

  /** The grant names a user that is gone. */
  predicate Dangles(db: Db, g: Grant) {
    g.subject.User? && g.subject.id !in db.users
  }

  /** Why CreateGrant refuses, in the order of its checks. */
  function GrantRefusal(db: Db, subject: Subject, target: Object, scopes: seq<Scope>): Option<Code> {
    if target.OtherObject? && !target.unset then Some(ParamInvalid)
    else if subject.OtherSubject? then Some(ParamInvalid)
    else if subject.User? && subject.id !in db.users then Some(UserNotFound)
    else if subject.Group? && subject.id !in db.userGroups then Some(UserGroupNotFound)
    else if target.OtherObject? then Some(ParamInvalid)
    else if target.RoleObject? && target.id !in db.roles then Some(RoleNotFound)
    else if target.RoleGroup? && target.id !in db.roleGroups then Some(NotFound)
    else if !ValidScopes(scopes) then Some(ParamInvalid)
    else if Grant(subject, target) in db.grants.Values then Some(ResourceConflict)
    else None
  }

  lemma AddThenUpdate<K, V>(a: map<K, V>, b: map<K, V>, k: K, v: V)
    ensures (a + b)[k := v] == a + b[k := v]
  {
  }

  /** The two statements every cascade shares: the scopes of the named grants, then the grants. */
  function DropGrants(db: Db, v: Victim): Db {
    var tx := db.(scopes := map s | s in db.scopes &&
                    !(db.scopes[s].grant in db.grants && Names(db.scopes[s].grant, db.grants[db.scopes[s].grant], v)) ::
                    db.scopes[s]);
    tx.(grants := map g | g in tx.grants && !Names(g, tx.grants[g], v) :: tx.grants[g])
  }

  class RoleService {
    var db: Db
    var nextId: int  // ids below it may be in use; no table reuses one

    ghost predicate Valid()
      reads this
    {
      Sound(db, nextId)
    }

    /** A new database after SeedDefaults. */
    constructor ()
      ensures Valid() && UserRefsOk(db) && db == Db({}, BUILTIN_ROLES, map[], {}, map[], {}, map[], map[])
    {
      db, nextId := Db({}, BUILTIN_ROLES, map[], {}, map[], {}, map[], map[]), 4;
    }

    // ---- Repositories: cascading deletes, each one transaction on a copy of the tables ----

    method RepoDeleteRole(id: int) returns (ok: bool)
      requires Valid()
      modifies this`db
      ensures Valid() && ok == (id in old(db).roles)
      ensures db == if ok then Without(old(db), ARole(id)) else old(db)
      ensures old(UserRefsOk(db)) ==> UserRefsOk(db)
    {
      var tx := db;
      tx := tx.(groupRoles := set p | p in tx.groupRoles && p.1 != id);
      tx := DropGrants(tx, ARole(id));
      if id !in tx.roles {
        return false;
      }
      tx := tx.(roles := tx.roles - {id});
      assert tx == Without(db, ARole(id));
      WithoutSound(db, ARole(id), nextId);
      if UserRefsOk(db) {
        WithoutKeepsUserRefs(db, ARole(id));
      }
      db := tx;
      return true;
    }

    method RepoDeleteRoleGroup(id: int) returns (ok: bool)
      requires Valid()
      modifies this`db
      ensures Valid() && ok == (id in old(db).roleGroups)
      ensures db == if ok then Without(old(db), ARoleGroup(id)) else old(db)
      ensures old(UserRefsOk(db)) ==> UserRefsOk(db)
    {
      var tx := DropGrants(db, ARoleGroup(id));
      tx := tx.(groupRoles := set p | p in tx.groupRoles && p.0 != id);
      if id !in tx.roleGroups {
        return false;
      }
      tx := tx.(roleGroups := tx.roleGroups - {id});
      assert tx == Without(db, ARoleGroup(id));
      WithoutSound(db, ARoleGroup(id), nextId);
      if UserRefsOk(db) {
        WithoutKeepsUserRefs(db, ARoleGroup(id));
      }
      db := tx;
      return true;
    }

    method RepoDeleteUserGroup(id: int) returns (ok: bool)
      requires Valid()
      modifies this`db
      ensures Valid() && ok == (id in old(db).userGroups)
      ensures db == if ok then Without(old(db), AUserGroup(id)) else old(db)
      ensures old(UserRefsOk(db)) ==> UserRefsOk(db)
    {
      var tx := DropGrants(db, AUserGroup(id));
      tx := tx.(members := set p | p in tx.members && p.0 != id);
      if id !in tx.userGroups {
        return false;
      }
      tx := tx.(userGroups := tx.userGroups - {id});
      assert tx == Without(db, AUserGroup(id));
      WithoutSound(db, AUserGroup(id), nextId);
      if UserRefsOk(db) {
        WithoutKeepsUserRefs(db, AUserGroup(id));
      }
      db := tx;
      return true;
    }

    method RepoDeleteGrant(id: int) returns (ok: bool)
      requires Valid()
      modifies this`db
      ensures Valid() && ok == (id in old(db).grants)
      ensures db == if ok then Without(old(db), AGrant(id)) else old(db)
      ensures old(UserRefsOk(db)) ==> UserRefsOk(db)
    {
      var tx := DropGrants(db, AGrant(id));
      if id !in db.grants {
        return false;
      }
      assert tx == Without(db, AGrant(id));
      WithoutSound(db, AGrant(id), nextId);
      if UserRefsOk(db) {
        WithoutKeepsUserRefs(db, AGrant(id));
      }
      db := tx;
      return true;
    }

    // ---- Users ----

    method CreateUser() returns (id: int)
      requires Valid()
      modifies this
      ensures Valid() && id == old(nextId) && db == old(db).(users := old(db).users + {id})
      ensures forall cluster, namespace, perm :: !Granted(db, id, cluster, namespace, perm)
      ensures old(UserRefsOk(db)) ==> UserRefsOk(db)
    {
      id := nextId;
      nextId := nextId + 1;
      db := db.(users := db.users + {id});
      forall cluster, namespace, perm
        ensures !Granted(db, id, cluster, namespace, perm)
      {
        NewIdHoldsNothing(db, id, id, cluster, namespace, perm);
      }
    }

    /** Deletes the user row only: grants and memberships that name the user stay. */
    method DeleteUser(id: int) returns (ok: bool)
      requires Valid()
      modifies this`db
      ensures Valid() && db == WithoutUser(old(db), id)
      ensures ok <==> id in old(db).users
    {
      var users := db.users - {id};
      ok := users != db.users;
      db := db.(users := users);
    }

    // ---- Roles and groups ----

    method CreateRole(name: string, permissions: seq<string>) returns (r: Result<int>)
      requires Valid()
      modifies this
      ensures Valid()
      ensures r == if !ValidRole(name, permissions) then Err(ParamInvalid)
                   else if exists i :: i in old(db).roles && old(db).roles[i].name == name then Err(RoleAlreadyExists)
                   else Ok(old(nextId))
      ensures db == if r.Ok? then old(db).(roles := old(db).roles[r.value := Role(name, false, permissions)]) else old(db)
      ensures old(UserRefsOk(db)) ==> UserRefsOk(db)
    {
      if !ValidRole(name, permissions) {
        return Err(ParamInvalid);
      }
      if exists i :: i in db.roles && db.roles[i].name == name {
        return Err(RoleAlreadyExists);
      }
      r := Ok(nextId);
      var after := db.(roles := db.roles[nextId := Role(name, false, permissions)]);
      CataloguedSound(db, nextId, after, nextId + 1);
      db, nextId := after, nextId + 1;
    }

    method UpdateRole(id: int, name: string, permissions: seq<string>) returns (error: Option<Code>)
      requires Valid()
      modifies this`db
      ensures Valid()
      ensures error == if id !in old(db).roles then Some(RoleNotFound)
                       else if old(db).roles[id].builtin then Some(Forbidden)
                       else if !ValidRole(name, permissions) then Some(ParamInvalid)
                       else if exists i :: i in old(db).roles && i != id && old(db).roles[i].name == name then Some(RoleAlreadyExists)
                       else None
      ensures db == if error == None then old(db).(roles := old(db).roles[id := Role(name, false, permissions)]) else old(db)
      ensures old(UserRefsOk(db)) ==> UserRefsOk(db)
    {
      if id !in db.roles {
        return Some(RoleNotFound);
      }
      if db.roles[id].builtin {
        return Some(Forbidden);
      }
      if !ValidRole(name, permissions) {
        return Some(ParamInvalid);
      }
      if name != db.roles[id].name && exists i :: i in db.roles && db.roles[i].name == name {
        return Some(RoleAlreadyExists);
      }
      var after := db.(roles := db.roles[id := db.roles[id].(name := name, permissions := permissions)]);
      CataloguedSound(db, nextId, after, nextId);
      db := after;
      return None;
    }

    method DeleteRole(id: int) returns (error: Option<Code>)
      requires Valid()
      modifies this`db
      ensures Valid()
      ensures error == if id !in old(db).roles then Some(RoleNotFound)
                       else if old(db).roles[id].builtin then Some(Forbidden) else None
      ensures db == if error == None then Without(old(db), ARole(id)) else old(db)
      ensures old(UserRefsOk(db)) ==> UserRefsOk(db)
    {
      if id !in db.roles {
        return Some(RoleNotFound);
      }
      if db.roles[id].builtin {
        return Some(Forbidden);
      }
      var ok := RepoDeleteRole(id);
      return None;
    }

    method CreateUserGroup(name: string) returns (r: Result<int>)
      requires Valid()
      modifies this
      ensures Valid()
      ensures r == if name == "" then Err(ParamInvalid)
                   else if name in old(db).userGroups.Values then Err(UserGroupAlreadyExists) else Ok(old(nextId))
      ensures db == if r.Ok? then old(db).(userGroups := old(db).userGroups[r.value := name]) else old(db)
      ensures old(UserRefsOk(db)) ==> UserRefsOk(db)
    {
      if name == "" {
        return Err(ParamInvalid);
      }
      if name in db.userGroups.Values {
        return Err(UserGroupAlreadyExists);
      }
      r := Ok(nextId);
      var after := db.(userGroups := db.userGroups[nextId := name]);
      CataloguedSound(db, nextId, after, nextId + 1);
      db, nextId := after, nextId + 1;
    }

    method CreateRoleGroup(name: string) returns (r: Result<int>)
      requires Valid()
      modifies this
      ensures Valid()
      ensures r == if name == "" then Err(ParamInvalid)
                   else if name in old(db).roleGroups.Values then Err(RoleAlreadyExists) else Ok(old(nextId))
      ensures db == if r.Ok? then old(db).(roleGroups := old(db).roleGroups[r.value := name]) else old(db)
      ensures old(UserRefsOk(db)) ==> UserRefsOk(db)
    {
      if name == "" {
        return Err(ParamInvalid);
      }
      if name in db.roleGroups.Values {
        return Err(RoleAlreadyExists);
      }
      r := Ok(nextId);
      var after := db.(roleGroups := db.roleGroups[nextId := name]);
      CataloguedSound(db, nextId, after, nextId + 1);
      db, nextId := after, nextId + 1;
    }

    method DeleteUserGroup(id: int) returns (error: Option<Code>)
      requires Valid()
      modifies this`db
      ensures Valid()
      ensures error == if id !in old(db).userGroups then Some(UserGroupNotFound) else None
      ensures db == if error == None then Without(old(db), AUserGroup(id)) else old(db)
      ensures old(UserRefsOk(db)) ==> UserRefsOk(db)
    {
      if id !in db.userGroups {
        return Some(UserGroupNotFound);
      }
      var ok := RepoDeleteUserGroup(id);
      return None;
    }

    method DeleteRoleGroup(id: int) returns (error: Option<Code>)
      requires Valid()
      modifies this`db
      ensures Valid()
      ensures error == if id !in old(db).roleGroups then Some(NotFound) else None
      ensures db == if error == None then Without(old(db), ARoleGroup(id)) else old(db)
      ensures old(UserRefsOk(db)) ==> UserRefsOk(db)
    {
      if id !in db.roleGroups {
        return Some(NotFound);
      }
      var ok := RepoDeleteRoleGroup(id);
      return None;
    }

    // ---- Memberships ----

    method AddGroupMember(group: int, user: int) returns (error: Option<Code>)
      requires Valid()
      modifies this`db
      ensures Valid()
      ensures error == if group !in old(db).userGroups then Some(UserGroupNotFound)
                       else if user !in old(db).users then Some(UserNotFound) else None
      ensures db == if error == None then old(db).(members := old(db).members + {(group, user)}) else old(db)
      ensures old(UserRefsOk(db)) ==> UserRefsOk(db)
    {
      if group !in db.userGroups {
        return Some(UserGroupNotFound);
      }
      if user !in db.users {
        return Some(UserNotFound);
      }
      db := db.(members := db.members + {(group, user)});
      return None;
    }

    method RemoveGroupMember(group: int, user: int) returns (error: Option<Code>)
      requires Valid()
      modifies this`db
      ensures Valid()
      ensures error == if (group, user) !in old(db).members then Some(NotFound) else None
      ensures db == old(db).(members := old(db).members - {(group, user)})
      ensures old(UserRefsOk(db)) ==> UserRefsOk(db)
    {
      var rows := db.members - {(group, user)};
      error := if rows == db.members then Some(NotFound) else None;
      db := db.(members := rows);
    }

    method AddRoleGroupRole(group: int, role: int) returns (error: Option<Code>)
      requires Valid()
      modifies this`db
      ensures Valid()
      ensures error == if group !in old(db).roleGroups then Some(NotFound)
                       else if role !in old(db).roles then Some(RoleNotFound) else None
      ensures db == if error == None then old(db).(groupRoles := old(db).groupRoles + {(group, role)}) else old(db)
      ensures old(UserRefsOk(db)) ==> UserRefsOk(db)
    {
      if group !in db.roleGroups {
        return Some(NotFound);
      }
      if role !in db.roles {
        return Some(RoleNotFound);
      }
      db := db.(groupRoles := db.groupRoles + {(group, role)});
      return None;
    }

    method RemoveRoleGroupRole(group: int, role: int) returns (error: Option<Code>)
      requires Valid()
      modifies this`db
      ensures Valid()
      ensures error == if group !in old(db).roleGroups || (group, role) !in old(db).groupRoles then Some(NotFound) else None
      ensures db == old(db).(groupRoles := old(db).groupRoles - {(group, role)})
      ensures old(UserRefsOk(db)) ==> UserRefsOk(db)
    {
      if group !in db.roleGroups {
        return Some(NotFound);
      }
      var rows := db.groupRoles - {(group, role)};
      error := if rows == db.groupRoles then Some(NotFound) else None;
      db := db.(groupRoles := rows);
    }

    // ---- Grants ----

    method CreateGrant(subject: Subject, target: Object, scopes: seq<Scope>) returns (r: Result<int>)
      requires Valid()
      modifies this
      ensures Valid()
      ensures r.Err? <==> GrantRefusal(old(db), subject, target, scopes).Some?
      ensures r.Err? ==> r.code == GrantRefusal(old(db), subject, target, scopes).value
      ensures r.Ok? ==> r.value == old(nextId)
      ensures db == if r.Ok? then WithGrant(old(db), r.value, Grant(subject, target), ScopeRows(r.value, r.value + 1, scopes))
                    else old(db)
      ensures old(UserRefsOk(db)) ==> UserRefsOk(db)
    {
      var refusal := CheckGrant(subject, target, scopes);
      if refusal.Some? {
        r := Err(refusal.value);
      } else {
        var id := InsertGrant(Grant(subject, target), scopes);
        r := Ok(id);
      }
    }

    method CheckGrant(subject: Subject, target: Object, scopes: seq<Scope>) returns (refusal: Option<Code>)
      ensures refusal == GrantRefusal(db, subject, target, scopes)
      ensures refusal == None ==> scopes != [] && SubjectRefOk(db, subject) && ObjectRefOk(db, target)
      ensures refusal == None ==> Grant(subject, target) !in db.grants.Values && (subject.User? ==> subject.id in db.users)
    {
      if target.OtherObject? && !target.unset {
        return Some(ParamInvalid);
      }
      refusal := CheckRefs(subject, target);
      if refusal.Some? {
        return;
      }
      if scopes == [] {
        return Some(ParamInvalid);
      }
      for i := 0 to |scopes|
        invariant forall j :: 0 <= j < i ==> ValidScope(scopes[j])
      {
        if !ValidScope(scopes[i]) {
          return Some(ParamInvalid);
        }
      }
      if Grant(subject, target) in db.grants.Values {
        return Some(ResourceConflict);
      }
      return None;
    }

    /** The subject, then the object, must exist. */
    method CheckRefs(subject: Subject, target: Object) returns (refusal: Option<Code>)
      ensures refusal == None <==>
                (subject.User? ==> subject.id in db.users) && SubjectRefOk(db, subject) && ObjectRefOk(db, target)
      ensures refusal.Some? ==>
                refusal.value == if subject.OtherSubject? then ParamInvalid
                                 else if subject.User? && subject.id !in db.users then UserNotFound
                                 else if subject.Group? && subject.id !in db.userGroups then UserGroupNotFound
                                 else if target.OtherObject? then ParamInvalid
                                 else if target.RoleObject? then RoleNotFound else NotFound
    {
      match subject {
        case OtherSubject => return Some(ParamInvalid);
        case User(u) => if u !in db.users { return Some(UserNotFound); }
        case Group(g) => if g !in db.userGroups { return Some(UserGroupNotFound); }
      }
      match target {
        case OtherObject(_) => return Some(ParamInvalid);
        case RoleObject(r) => return if r !in db.roles then Some(RoleNotFound) else None;
        case RoleGroup(g) => return if g !in db.roleGroups then Some(NotFound) else None;
      }
    }

    method InsertGrant(grant: Grant, scopes: seq<Scope>) returns (id: int)
      requires Valid() && scopes != []
      requires SubjectRefOk(db, grant.subject) && ObjectRefOk(db, grant.target) && grant !in db.grants.Values
      requires grant.subject.User? ==> grant.subject.id in db.users
      modifies this
      ensures Valid() && id == old(nextId)
      ensures db == WithGrant(old(db), id, grant, ScopeRows(id, id + 1, scopes))
      ensures old(UserRefsOk(db)) ==> UserRefsOk(db)
    {
      id := nextId;
      WithGrantSound(db, id, grant, scopes);
      var rows := InsertScopes(id, scopes);
      db := db.(grants := db.grants[id := grant], scopes := rows);
    }

    /** Numbers the grant and its scope rows; the rows are not in the tables yet. */
    method InsertScopes(g: int, scopes: seq<Scope>) returns (rows: map<int, ScopeRow>)
      requires nextId == g
      modifies this`nextId
      ensures rows == db.scopes + ScopeRows(g, g + 1, scopes) && nextId == g + 1 + |scopes|
    {
      ghost var first := nextId + 1;
      rows := db.scopes;
      nextId := nextId + 1;
      for i := 0 to |scopes|
        invariant nextId == first + i
        invariant rows == db.scopes + ScopeRows(g, first, scopes[..i])
      {
        assert scopes[..i + 1][..i] == scopes[..i];
        AddThenUpdate(db.scopes, ScopeRows(g, first, scopes[..i]), nextId, ScopeRow(g, scopes[i]));
        rows := rows[nextId := ScopeRow(g, scopes[i])];
        nextId := nextId + 1;
      }
      assert scopes[..|scopes|] == scopes;
    }

    method DeleteGrant(id: int) returns (error: Option<Code>)
      requires Valid()
      modifies this`db
      ensures Valid()
      ensures error == if id !in old(db).grants then Some(NotFound) else None
      ensures db == if error == None then Without(old(db), AGrant(id)) else old(db)
      ensures old(UserRefsOk(db)) ==> UserRefsOk(db)
    {
      var ok := RepoDeleteGrant(id);
      return if ok then None else Some(NotFound);
    }

    /**
     * ListGrants resolves the name of every subject it lists, so one grant of a deleted user makes the
     * whole listing fail: exactly when a selected grant names a missing user.
     */
    method ListGrants(f: GrantFilter) returns (r: Result<seq<int>>)
      requires Valid()
      ensures r == Err(ParamInvalid) <==> f.subject.BadSubject? || f.target.BadObject?
      ensures r == Err(UserNotFound) <==>
                !f.subject.BadSubject? && !f.target.BadObject? &&
                exists g :: g in db.grants && Selects(f, db.grants[g]) && Dangles(db, db.grants[g])
      ensures r.Err? ==> r.code in {ParamInvalid, UserNotFound}
      ensures r.Ok? ==> forall g :: g in r.value <==> g in db.grants && Selects(f, db.grants[g])
      ensures r.Ok? ==> forall i, j :: 0 <= i < j < |r.value| ==> r.value[i] < r.value[j]
    {
      if f.subject.BadSubject? || f.target.BadObject? {
        return Err(ParamInvalid);
      }
      var ids := [];
      var id := 1;
      while id < nextId
        invariant forall g :: g in ids <==> g in db.grants && g < id && Selects(f, db.grants[g])
        invariant forall g :: g in ids ==> !Dangles(db, db.grants[g])
        invariant forall i, j :: 0 <= i < j < |ids| ==> ids[i] < ids[j]
        invariant forall i :: 0 <= i < |ids| ==> ids[i] < id
      {
        if id in db.grants && Selects(f, db.grants[id]) {
          if Dangles(db, db.grants[id]) {
            return Err(UserNotFound);
          }
          ids := ids + [id];
        }
        id := id + 1;
      }
      return Ok(ids);
    }

    // ---- Resolution ----

    /** The grants that reach a user directly or through a group, by id. */
    method GrantsForUser(user: int) returns (ids: seq<int>)
      requires Valid()
      ensures forall g :: g in ids <==> g in db.grants && Reaches(db, db.grants[g], user)
      ensures forall i, j :: 0 <= i < j < |ids| ==> ids[i] < ids[j]
    {
      ids := [];
      var id := 1;
      while id < nextId
        invariant forall g :: g in ids <==> g in db.grants && g < id && Reaches(db, db.grants[g], user)
        invariant forall i, j :: 0 <= i < j < |ids| ==> ids[i] < ids[j]
        invariant forall i :: 0 <= i < |ids| ==> ids[i] < id
      {
        if id in db.grants && Reaches(db, db.grants[id], user) {
          ids := ids + [id];
        }
        id := id + 1;
      }
    }

    method ScopeMatches(g: int, cluster: string, namespace: string) returns (ok: bool)
      requires Valid()
      ensures ok <==> InScope(db, g, cluster, namespace)
    {
      if cluster == "" && namespace == "" {
        return true;
      }
      var s := 1;
      while s < nextId
        invariant forall t :: t in db.scopes && t < s && db.scopes[t].grant == g ==>
                    !ScopeCovers(db.scopes[t].scope, cluster, namespace)
      {
        if s in db.scopes && db.scopes[s].grant == g && ScopeCovers(db.scopes[s].scope, cluster, namespace) {
          return true;
        }
        s := s + 1;
      }
      return false;
    }

    /** Expands a grant's object; a missing role confers nothing. */
    method PermissionsForObject(target: Object) returns (perms: set<string>)
      requires Valid()
      ensures forall p :: p in perms <==> exists r :: Expands(db, target, r) && p in db.roles[r].permissions
    {
      perms := {};
      var r := 1;
      while r < nextId
        invariant forall p :: p in perms <==> exists q :: Expands(db, target, q) && q < r && p in db.roles[q].permissions
      {
        if Expands(db, target, r) {
          perms := perms + (set p | p in db.roles[r].permissions);
        }
        r := r + 1;
      }
    }

    method EffectivePermissions(user: int, role: Identity, cluster: string, namespace: string) returns (perms: seq<string>)
      requires Valid()
      ensures StringOrder.StrictlySorted(perms)
      ensures forall p :: p in perms <==> Effective(db, user, role, cluster, namespace, p)
    {
      if role.Admin? {
        return ["*"];
      }
      var all := set p | p in BuiltinPermissions(role);
      var ids := GrantsForUser(user);
      for i := 0 to |ids|
        invariant forall p :: p in all <==>
                    p in BuiltinPermissions(role) ||
                    exists path: Path :: path.grant in ids[..i] && Derives(db, path, user, cluster, namespace, p)
      {
        var before := all;
        var matches := ScopeMatches(ids[i], cluster, namespace);
        if matches {
          var perms := PermissionsForObject(db.grants[ids[i]].target);
          all := all + perms;
          ThroughGrant(ids[i], perms, user, cluster, namespace);
        }
        assert forall g :: g in ids[..i + 1] <==> g in ids[..i] || g == ids[i];
      }
      assert ids[..|ids|] == ids;
      perms := StringOrder.Sort(all);
    }

    /** The permissions of one applicable grant are those derived through it. */
    lemma ThroughGrant(g: int, perms: set<string>, user: int, cluster: string, namespace: string)
      requires g in db.grants && Reaches(db, db.grants[g], user) && InScope(db, g, cluster, namespace)
      requires forall p :: p in perms <==> exists r :: Expands(db, db.grants[g].target, r) && p in db.roles[r].permissions
      ensures forall p :: p in perms <==> exists path: Path :: path.grant == g && Derives(db, path, user, cluster, namespace, p)
    {
      forall p
        ensures p in perms <==> exists path: Path :: path.grant == g && Derives(db, path, user, cluster, namespace, p)
      {
        if p in perms {
          var r :| Expands(db, db.grants[g].target, r) && p in db.roles[r].permissions;
          assert Derives(db, Path(g, r), user, cluster, namespace, p);
        }
      }
    }

    /** Grants a request exactly when the permission, or the wildcard, can be derived. */
    method Authorize(user: int, role: Identity, perm: string, cluster: string, namespace: string) returns (ok: bool)
      requires Valid()
      ensures ok <==> role.Admin? ||
                      exists p :: p in [perm, "*"] &&
                        (p in BuiltinPermissions(role) || Granted(db, user, cluster, namespace, p))
    {
      var perms := EffectivePermissions(user, role, cluster, namespace);
      for i := 0 to |perms|
        invariant perm !in perms[..i] && "*" !in perms[..i]
      {
        if perms[i] == "*" || perms[i] == perm {
          assert perms[i] in [perm, "*"] && Effective(db, user, role, cluster, namespace, perms[i]);
          return true;
        }
      }
      assert perms[..|perms|] == perms;
      return false;
    }
  }

  lemma ViewerGrantAccepted(db: Db, user: int, scope: Scope)
    requires user in db.users && db.roles == BUILTIN_ROLES && db.grants == map[] && ValidScope(scope)
    ensures GrantRefusal(db, User(user), RoleObject(3), [scope]) == None
  {
    assert 3 in BUILTIN_ROLES;
  }

  /** A fresh service with one user who holds the viewer role through a grant. */
  method GrantViewer() returns (s: RoleService, user: int, grant: int)
    ensures fresh(s) && s.Valid() && UserRefsOk(s.db)
    ensures user in s.db.users && grant in s.db.grants && s.db.grants[grant].subject == User(user)
  {
    s := new RoleService();
    user := s.CreateUser();
    ViewerGrantAccepted(s.db, user, Scope("*", "*"));
    var created := s.CreateGrant(User(user), RoleObject(3), [Scope("*", "*")]);
    grant := created.value;
  }

  /** From any state: deleting a user who holds a grant makes every listing fail that selects the grant. */
  method DeleteUserBreaksListing(s: RoleService, user: int, grant: int, f: GrantFilter) returns (listed: Result<seq<int>>)
    requires s.Valid() && user in s.db.users && grant in s.db.grants && s.db.grants[grant].subject == User(user)
    requires Selects(f, s.db.grants[grant]) && !f.subject.BadSubject? && !f.target.BadObject?
    modifies s
    ensures s.Valid() && !UserRefsOk(s.db) && listed == Err(UserNotFound)
  {
    var ok := s.DeleteUser(user);
    assert Dangles(s.db, s.db.grants[grant]);
    listed := s.ListGrants(f);
  }

  method DeletedViewer() returns (listed: Result<seq<int>>)
    ensures listed == Err(UserNotFound)
  {
    var s, user, grant := GrantViewer();
    var everything := GrantFilter(AnySubject, 0, AnyObject, 0);
    assert Consistent(s.db) && ObjectRefOk(s.db, s.db.grants[grant].target);
    listed := DeleteUserBreaksListing(s, user, grant, everything);
  }
}
