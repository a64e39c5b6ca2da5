/** Requests to the role service one after the other, and what Authorize then answers. */
module RbacRequests {
  import opened Wrappers
  import opened RbacModel
  import opened RbacService
  import opened RbacMeaning

  /** When a grant request is accepted, from the rows alone. */
  lemma GrantAccepted(db: Db, subject: Subject, target: Object, scopes: seq<Scope>)
    ensures GrantRefusal(db, subject, target, scopes) == None <==>
              && ((subject.User? && subject.id in db.users) || (subject.Group? && subject.id in db.userGroups))
              && ((target.RoleObject? && target.id in db.roles) || (target.RoleGroup? && target.id in db.roleGroups))
              && scopes != []
              && (forall i :: 0 <= i < |scopes| ==>
                    scopes[i].cluster != "" && scopes[i].namespace != "" && (scopes[i].cluster == "*" ==> scopes[i].namespace == "*"))
              && Grant(subject, target) !in db.grants.Values
  {
    forall i | 0 <= i < |scopes|
      ensures ValidScope(scopes[i]) <==>
                scopes[i].cluster != "" && scopes[i].namespace != "" && (scopes[i].cluster == "*" ==> scopes[i].namespace == "*")
    {
    }
  }

  lemma OneScopeRow(g: int, scope: Scope)
    ensures ScopeRows(g, g + 1, [scope]) == map[g + 1 := ScopeRow(g, scope)]
  {
    assert [scope][..0] == [];
    assert ScopeRows(g, g + 1, []) == map[];
  }

  lemma RoleGrantAccepted(db: Db, user: int, role: int, c: string, n: string)
    requires user in db.users && role in db.roles && Grant(User(user), RoleObject(role)) !in db.grants.Values
    requires c != "" && n != "" && (c == "*" ==> n == "*")
    ensures GrantRefusal(db, User(user), RoleObject(role), [Scope(c, n)]) == None
  {
    GrantAccepted(db, User(user), RoleObject(role), [Scope(c, n)]);
  }

  /** Grants a role with one scope. */
  method GrantRole(s: RoleService, user: int, role: int, c: string, n: string) returns (g: int)
    requires s.Valid() && user in s.db.users && role in s.db.roles
    requires c != "" && n != "" && (c == "*" ==> n == "*")
    requires Grant(User(user), RoleObject(role)) !in s.db.grants.Values
    modifies s
    ensures s.Valid() && g !in old(s.db).grants && g + 1 !in old(s.db).scopes
    ensures s.db == WithOneScope(old(s.db), g, Grant(User(user), RoleObject(role)), g + 1, c, n)
  {
    RoleGrantAccepted(s.db, user, role, c, n);
    var r := s.CreateGrant(User(user), RoleObject(role), [Scope(c, n)]);
    g := r.value;
    OneScopeRow(g, Scope(c, n));
  }

  /**
   * From any state: once a role is granted for a scope, a user who held nothing for the query before is
   * let through exactly for the role's permissions, or anything if the role has the star, and exactly
   * where the scope answers the query.
   */
  method AuthorizeAfterGrant(s: RoleService, user: int, role: int, c: string, n: string, perm: string, qc: string, qn: string)
    returns (ok: bool)
    requires s.Valid() && user in s.db.users && role in s.db.roles
    requires c != "" && n != "" && (c == "*" ==> n == "*")
    requires Grant(User(user), RoleObject(role)) !in s.db.grants.Values
    requires !Granted(s.db, user, qc, qn, perm) && !Granted(s.db, user, qc, qn, "*")
    modifies s
    ensures s.Valid()
    ensures ok <==>
              (perm in old(s.db).roles[role].permissions || "*" in old(s.db).roles[role].permissions) &&
              (qc == "" || c == "*" || c == qc) && (qn == "" || n == "*" || n == qn)
  {
    ghost var was := s.db;
    var g := GrantRole(s, user, role, c, n);
    RoleToUser(was, g, g + 1, user, role, c, n, user, qc, qn, perm);
    RoleToUser(was, g, g + 1, user, role, c, n, user, qc, qn, "*");
    ok := s.Authorize(user, OtherRole, perm, qc, qn);
    assert Granted(s.db, user, qc, qn, perm) ==> perm in [perm, "*"];
    assert Granted(s.db, user, qc, qn, "*") ==> "*" in [perm, "*"];
  }

  // ---- Listings and names ----

  /** What the parameters of a grants listing select. */
  lemma SelectsMeans(id: int, target: int, g: Grant)
    requires id != 0 && target != 0 && !g.subject.OtherSubject? && !g.target.OtherObject?
    ensures Selects(GrantFilter(AnySubject, 0, AnyObject, 0), g)
    ensures Selects(GrantFilter(Users, id, AnyObject, 0), g) <==> g.subject == User(id)
    ensures Selects(GrantFilter(Groups, id, AnyObject, 0), g) <==> g.subject == Group(id)
    ensures Selects(GrantFilter(AnySubject, 0, Roles, target), g) <==> g.target == RoleObject(target)
    ensures Selects(GrantFilter(AnySubject, 0, RoleGroups, target), g) <==> g.target == RoleGroup(target)
    ensures Selects(GrantFilter(Users, id, Roles, target), g) <==> g == Grant(User(id), RoleObject(target))
  {
  }

  /** A role may carry the star and fourteen points; the fifteenth that has a name, clusters:write, is refused. */
  lemma PermissionPoints(p: string)
    ensures ValidPermissionPoint(p) <==>
              p in ["*", "clusters:read", "resources:read", "resources:write", "secrets:read", "secrets:read-masked", "logs:read",
                    "terminal:use", "events:read", "metrics:read", "credentials:issue", "k8s-proxy:use", "users:manage",
                    "audit:read", "enroll-tokens:manage"]
    ensures !ValidPermissionPoint("clusters:write")
  {
  }

  /** Operators write, use terminals and see secrets; viewers read, and see secrets masked. */
  lemma BuiltinRoles(p: string)
    ensures p in BuiltinPermissions(Operator) && p !in BuiltinPermissions(Viewer) <==>
              p in ["resources:write", "secrets:read", "terminal:use"]
    ensures p in BuiltinPermissions(Viewer) && p !in BuiltinPermissions(Operator) <==> p == "secrets:read-masked"
    ensures p in BuiltinPermissions(Viewer) && p in BuiltinPermissions(Operator) <==>
              p in ["clusters:read", "resources:read", "logs:read", "events:read", "metrics:read", "credentials:issue", "k8s-proxy:use"]
    ensures (p in BuiltinPermissions(Admin) <==> p == "*") && p !in BuiltinPermissions(OtherRole)
  {
  }
}
