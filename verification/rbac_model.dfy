/** The RBAC tables as a value: what a consistent store is and what derives a permission. */
module RbacModel {
  datatype Role = Role(name: string, builtin: bool, permissions: seq<string>)

  /** Subject and object of a grant; Other stands for any type name the service rejects. */
  datatype Subject = User(id: int) | Group(id: int) | OtherSubject
  datatype Object = RoleObject(id: int) | RoleGroup(id: int) | OtherObject(unset: bool)

  datatype Grant = Grant(subject: Subject, target: Object)
  datatype Scope = Scope(cluster: string, namespace: string)
  datatype ScopeRow = ScopeRow(grant: int, scope: Scope)

  datatype Db = Db(
    users: set<int>,
    roles: map<int, Role>,
    roleGroups: map<int, string>,
    groupRoles: set<(int, int)>,  // (role group, role)
    userGroups: map<int, string>,
    members: set<(int, int)>,     // (user group, user)
    grants: map<int, Grant>,
    scopes: map<int, ScopeRow>)

  ghost predicate SubjectRefOk(db: Db, s: Subject) {
    match s
    case User(_) => true  // deleting a user leaves its rows behind
    case Group(g) => g in db.userGroups
    case OtherSubject => false
  }

  ghost predicate ObjectRefOk(db: Db, o: Object) {
    match o
    case RoleObject(r) => r in db.roles
    case RoleGroup(g) => g in db.roleGroups
    case OtherObject(_) => false
  }

  /** No dangling reference, no duplicate grant, no grant without a scope. */
  ghost predicate Consistent(db: Db) {
    && (forall g :: g in db.grants ==> SubjectRefOk(db, db.grants[g].subject) && ObjectRefOk(db, db.grants[g].target))
    && (forall g, h :: g in db.grants && h in db.grants && db.grants[g] == db.grants[h] ==> g == h)
    && (forall s :: s in db.scopes ==> db.scopes[s].grant in db.grants)
    && (forall g :: g in db.grants ==> exists s :: s in db.scopes && db.scopes[s].grant == g)
    && (forall p :: p in db.groupRoles ==> p.0 in db.roleGroups && p.1 in db.roles)
    && (forall p :: p in db.members ==> p.0 in db.userGroups)
  }

  /** No grant and no membership names a missing user. */
  ghost predicate UserRefsOk(db: Db) {
    && (forall g :: g in db.grants && db.grants[g].subject.User? ==> db.grants[g].subject.id in db.users)
    && (forall p :: p in db.members ==> p.1 in db.users)
  }

  /** The tables after DeleteUser, which touches nothing but the user row. */
  function WithoutUser(db: Db, user: int): Db {
    db.(users := db.users - {user})
  }

  /** Deleting a user leaves dangling references exactly when a grant or a membership names the user. */
  lemma DeleteUserKeepsRefsIff(db: Db, user: int)
    requires UserRefsOk(db)
    ensures UserRefsOk(WithoutUser(db, user)) <==>
              (forall g :: g in db.grants ==> db.grants[g].subject != User(user)) &&
              (forall p :: p in db.members ==> p.1 != user)
  {
    var after := WithoutUser(db, user);
    if g :| g in db.grants && db.grants[g].subject == User(user) {
      assert g in after.grants && after.grants[g].subject.id !in after.users;
    }
    if p :| p in db.members && p.1 == user {
      assert p in after.members && p.1 !in after.users;
    }
  }

  /** Only names changed, or roles and groups were added. */
  ghost predicate Catalogued(db: Db, after: Db) {
    && after == db.(roles := after.roles, roleGroups := after.roleGroups, userGroups := after.userGroups)
    && db.roles.Keys <= after.roles.Keys && db.roleGroups.Keys <= after.roleGroups.Keys
    && db.userGroups.Keys <= after.userGroups.Keys
  }

  lemma CataloguedConsistent(db: Db, after: Db)
    requires Consistent(db) && Catalogued(db, after)
    ensures Consistent(after)
  {
    forall g | g in after.grants
      ensures SubjectRefOk(after, after.grants[g].subject) && ObjectRefOk(after, after.grants[g].target)
    {
      assert SubjectRefOk(db, db.grants[g].subject) && ObjectRefOk(db, db.grants[g].target);
    }
  }

  // ---- Derivations ----

  predicate ScopeCovers(sc: Scope, cluster: string, namespace: string) {
    && (cluster == "" || sc.cluster == "*" || sc.cluster == cluster)
    && (namespace == "" || sc.namespace == "*" || sc.namespace == namespace)
  }

  /** The grant applies to the query: an empty query, or some scope row of it covers the pair. */
  ghost predicate InScope(db: Db, g: int, cluster: string, namespace: string) {
    || (cluster == "" && namespace == "")
    || exists s :: s in db.scopes && db.scopes[s].grant == g && ScopeCovers(db.scopes[s].scope, cluster, namespace)
  }

  predicate Reaches(db: Db, g: Grant, user: int) {
    match g.subject
    case User(u) => u == user
    case Group(ug) => (ug, user) in db.members
    case OtherSubject => false
  }

  predicate Expands(db: Db, o: Object, role: int) {
    role in db.roles &&
    match o
    case RoleObject(r) => r == role
    case RoleGroup(rg) => (rg, role) in db.groupRoles
    case OtherObject(_) => false
  }

  /** One way a permission reaches a user: a grant and the role it expands to. */
  datatype Path = Path(grant: int, role: int)

  ghost predicate Derives(db: Db, path: Path, user: int, cluster: string, namespace: string, perm: string) {
    && path.grant in db.grants
    && Reaches(db, db.grants[path.grant], user)
    && InScope(db, path.grant, cluster, namespace)
    && Expands(db, db.grants[path.grant].target, path.role)
    && perm in db.roles[path.role].permissions
  }

  ghost predicate Granted(db: Db, user: int, cluster: string, namespace: string, perm: string) {
    exists path :: Derives(db, path, user, cluster, namespace, perm)
  }

  /** Emptying either part of the query never loses a permission. */
  lemma QueryMonotone(db: Db, user: int, cluster: string, namespace: string, perm: string)
    requires Granted(db, user, cluster, namespace, perm)
    ensures Granted(db, user, "", namespace, perm) && Granted(db, user, cluster, "", perm) && Granted(db, user, "", "", perm)
  {
    var path :| Derives(db, path, user, cluster, namespace, perm);
    assert Derives(db, path, user, "", namespace, perm);
    assert Derives(db, path, user, cluster, "", perm);
    assert Derives(db, path, user, "", "", perm);
  }

  /** Deleting a user takes no permission from its id, and gives none. */
  lemma DeleteUserKeepsPermissions(db: Db, deleted: int, user: int, cluster: string, namespace: string, perm: string)
    ensures Granted(WithoutUser(db, deleted), user, cluster, namespace, perm) <==> Granted(db, user, cluster, namespace, perm)
  {
    var after := WithoutUser(db, deleted);
    assert forall g :: InScope(after, g, cluster, namespace) <==> InScope(db, g, cluster, namespace);
    assert forall path: Path :: Derives(after, path, user, cluster, namespace, perm) <==>
                                Derives(db, path, user, cluster, namespace, perm);
  }

  // ---- Cascading deletes ----

  /** What a delete removes. */
  datatype Victim = AGrant(id: int) | ARole(id: int) | ARoleGroup(id: int) | AUserGroup(id: int)

  predicate Names(g: int, grant: Grant, v: Victim) {
    match v
    case AGrant(id) => g == id
    case ARole(id) => grant.target == RoleObject(id)
    case ARoleGroup(id) => grant.target == RoleGroup(id)
    case AUserGroup(id) => grant.subject == Group(id)
  }

  predicate Exists(db: Db, v: Victim) {
    match v
    case AGrant(id) => id in db.grants
    case ARole(id) => id in db.roles
    case ARoleGroup(id) => id in db.roleGroups
    case AUserGroup(id) => id in db.userGroups
  }

  /** The store without the victim and without any row that names it. */
  function Without(db: Db, v: Victim): Db {
    var grants := map g | g in db.grants && !Names(g, db.grants[g], v) :: db.grants[g];
    db.(grants := grants,
        scopes := (map s | s in db.scopes && (db.scopes[s].grant in db.grants ==> db.scopes[s].grant in grants) :: db.scopes[s]),
        roles := if v.ARole? then db.roles - {v.id} else db.roles,
        roleGroups := if v.ARoleGroup? then db.roleGroups - {v.id} else db.roleGroups,
        userGroups := if v.AUserGroup? then db.userGroups - {v.id} else db.userGroups,
        groupRoles := (set p | p in db.groupRoles && v != ARole(p.1) && v != ARoleGroup(p.0)),
        members := (set p | p in db.members && v != AUserGroup(p.0)))
  }

  lemma WithoutConsistent(db: Db, v: Victim)
    requires Consistent(db)
    ensures Consistent(Without(db, v)) && !Exists(Without(db, v), v)
  {
    var after := Without(db, v);
    forall g | g in after.grants
      ensures exists s :: s in after.scopes && after.scopes[s].grant == g
    {
      var s :| s in db.scopes && db.scopes[s].grant == g;
      assert s in after.scopes && after.scopes[s].grant == g;
    }
  }

  /** The derivation goes through the victim. */
  predicate Through(db: Db, path: Path, v: Victim)
    requires path.grant in db.grants
  {
    Names(path.grant, db.grants[path.grant], v) || v == ARole(path.role)
  }

  /** A delete removes exactly the derivations through its victim. */
  lemma DeleteRemovesExactly(db: Db, v: Victim, path: Path, user: int, cluster: string, namespace: string, perm: string)
    requires Consistent(db)
    ensures Derives(Without(db, v), path, user, cluster, namespace, perm) <==>
            Derives(db, path, user, cluster, namespace, perm) && !Through(db, path, v)
  {
    var after := Without(db, v);
    if Derives(db, path, user, cluster, namespace, perm) && !Through(db, path, v) {
      assert InScope(after, path.grant, cluster, namespace) by {
        if !(cluster == "" && namespace == "") {
          var s :| s in db.scopes && db.scopes[s].grant == path.grant && ScopeCovers(db.scopes[s].scope, cluster, namespace);
          assert s in after.scopes && after.scopes[s] == db.scopes[s];
        }
      }
    }
    if Derives(after, path, user, cluster, namespace, perm) {
      assert InScope(db, path.grant, cluster, namespace);
    }
  }

  /** A delete only shrinks permissions and spares users with no derivation through its victim. */
  lemma DeleteShrinks(db: Db, v: Victim, user: int, cluster: string, namespace: string, perm: string)
    requires Consistent(db)
    ensures Granted(Without(db, v), user, cluster, namespace, perm) ==> Granted(db, user, cluster, namespace, perm)
    ensures (forall path :: Derives(db, path, user, cluster, namespace, perm) ==> !Through(db, path, v)) ==>
              (Granted(Without(db, v), user, cluster, namespace, perm) <==> Granted(db, user, cluster, namespace, perm))
  {
    forall path
      ensures Derives(Without(db, v), path, user, cluster, namespace, perm) <==>
              Derives(db, path, user, cluster, namespace, perm) && !Through(db, path, v)
    {
      DeleteRemovesExactly(db, v, path, user, cluster, namespace, perm);
    }
  }

  lemma WithoutKeepsUserRefs(db: Db, v: Victim)
    requires UserRefsOk(db)
    ensures UserRefsOk(Without(db, v))
  {
  }

  // ---- Creating a grant ----

  /** One row for each scope of grant g, numbered from first. */
  function ScopeRows(g: int, first: int, scopes: seq<Scope>): map<int, ScopeRow> {
    if scopes == [] then map[]
    else
      var n := |scopes| - 1;
      ScopeRows(g, first, scopes[..n])[first + n := ScopeRow(g, scopes[n])]
  }

  lemma {:induction false} ScopeRowsContents(g: int, first: int, scopes: seq<Scope>)
    ensures forall s :: s in ScopeRows(g, first, scopes) <==> first <= s < first + |scopes|
    ensures forall s :: s in ScopeRows(g, first, scopes) ==>
              ScopeRows(g, first, scopes)[s] == ScopeRow(g, scopes[s - first])
  {
    if scopes != [] {
      ScopeRowsContents(g, first, scopes[..|scopes| - 1]);
    }
  }

  /** The tables with grant g and its scope rows. */
  function WithGrant(db: Db, g: int, grant: Grant, rows: map<int, ScopeRow>): Db {
    db.(grants := db.grants[g := grant], scopes := db.scopes + rows)
  }

  /** The grant and its rows are new, and the rows belong to it. */
  ghost predicate FreshGrant(db: Db, g: int, rows: map<int, ScopeRow>) {
    g !in db.grants && rows.Keys !! db.scopes.Keys && forall s :: s in rows ==> rows[s].grant == g
  }

  lemma WithGrantConsistent(db: Db, g: int, grant: Grant, rows: map<int, ScopeRow>)
    requires Consistent(db) && FreshGrant(db, g, rows) && (exists s :: s in rows)
    requires SubjectRefOk(db, grant.subject) && ObjectRefOk(db, grant.target)
    requires forall h :: h in db.grants ==> db.grants[h] != grant
    ensures Consistent(WithGrant(db, g, grant, rows))
  {
    var after := WithGrant(db, g, grant, rows);
    var row :| row in rows;
    forall h | h in after.grants
      ensures exists s :: s in after.scopes && after.scopes[s].grant == h
    {
      if h == g {
        assert row in after.scopes && after.scopes[row].grant == g;
      } else {
        var s :| s in db.scopes && db.scopes[s].grant == h;
        assert s in after.scopes && after.scopes[s].grant == h;
      }
    }
  }

  /** A new grant adds exactly the derivations through it. */
  lemma GrantAddsExactly(db: Db, g: int, grant: Grant, rows: map<int, ScopeRow>,
                         path: Path, user: int, cluster: string, namespace: string, perm: string)
    requires Consistent(db) && FreshGrant(db, g, rows)
    ensures Derives(WithGrant(db, g, grant, rows), path, user, cluster, namespace, perm) <==>
            if path.grant == g then
              Reaches(db, grant, user) && Expands(db, grant.target, path.role) &&
              perm in db.roles[path.role].permissions &&
              ((cluster == "" && namespace == "") || exists s :: s in rows && ScopeCovers(rows[s].scope, cluster, namespace))
            else Derives(db, path, user, cluster, namespace, perm)
  {
    if path.grant == g || path.grant in db.grants {
      ScopesAfterGrant(db, g, grant, rows, path.grant, cluster, namespace);
    }
  }

  lemma ScopesAfterGrant(db: Db, g: int, grant: Grant, rows: map<int, ScopeRow>, h: int, cluster: string, namespace: string)
    requires Consistent(db) && FreshGrant(db, g, rows) && (h == g || h in db.grants)
    ensures InScope(WithGrant(db, g, grant, rows), h, cluster, namespace) <==>
            if h == g then
              (cluster == "" && namespace == "") || exists s :: s in rows && ScopeCovers(rows[s].scope, cluster, namespace)
            else InScope(db, h, cluster, namespace)
  {
    var after := WithGrant(db, g, grant, rows);
    if s :| s in rows && ScopeCovers(rows[s].scope, cluster, namespace) {
      assert s in after.scopes && after.scopes[s] == rows[s];
    }
    if s :| s in db.scopes && db.scopes[s].grant == h && ScopeCovers(db.scopes[s].scope, cluster, namespace) {
      assert s in after.scopes && after.scopes[s] == db.scopes[s];
    }
    if s :| s in after.scopes && after.scopes[s].grant == h && ScopeCovers(after.scopes[s].scope, cluster, namespace) {
      assert if s in rows then after.scopes[s] == rows[s] else s in db.scopes && after.scopes[s] == db.scopes[s];
    }
  }

  lemma ScopesComeBack(db: Db, g: int, grant: Grant, rows: map<int, ScopeRow>)
    requires Consistent(db) && FreshGrant(db, g, rows)
    ensures Without(WithGrant(db, g, grant, rows), AGrant(g)).scopes == db.scopes
  {
    var after, back := WithGrant(db, g, grant, rows), Without(WithGrant(db, g, grant, rows), AGrant(g));
    forall s
      ensures s in back.scopes <==> s in db.scopes
    {
      if s in db.scopes {
        assert after.scopes[s] == db.scopes[s] && db.scopes[s].grant in db.grants;
      } else if s in rows {
        assert after.scopes[s].grant == g && Names(g, after.grants[g], AGrant(g));
      }
    }
  }

  /** Deleting the grant just created restores the tables. */
  lemma DeleteUndoesGrant(db: Db, g: int, grant: Grant, rows: map<int, ScopeRow>)
    requires Consistent(db) && FreshGrant(db, g, rows)
    ensures Without(WithGrant(db, g, grant, rows), AGrant(g)) == db
  {
    var back := Without(WithGrant(db, g, grant, rows), AGrant(g));
    ScopesComeBack(db, g, grant, rows);
    assert back.grants == db.grants;
    assert back.groupRoles == db.groupRoles && back.members == db.members;
  }

  // ---- Ids and names ----

  ghost predicate IdsBelow(db: Db, n: int) {
    && (forall i :: i in db.users ==> 0 < i < n)
    && (forall i :: i in db.roles ==> 0 < i < n)
    && (forall i :: i in db.roleGroups ==> 0 < i < n)
    && (forall i :: i in db.userGroups ==> 0 < i < n)
    && (forall i :: i in db.grants ==> 0 < i < n)
    && (forall i :: i in db.scopes ==> 0 < i < n)
  }

  /** Every user that a grant or a membership names got its id at some time. */
  ghost predicate UsersBelow(db: Db, n: int) {
    && (forall g :: g in db.grants && db.grants[g].subject.User? ==> db.grants[g].subject.id < n)
    && (forall p :: p in db.members ==> p.1 < n)
  }

  ghost predicate UniqueNames(db: Db) {
    && (forall i, j :: i in db.roles && j in db.roles && db.roles[i].name == db.roles[j].name ==> i == j)
    && (forall i, j :: i in db.roleGroups && j in db.roleGroups && db.roleGroups[i] == db.roleGroups[j] ==> i == j)
    && (forall i, j :: i in db.userGroups && j in db.userGroups && db.userGroups[i] == db.userGroups[j] ==> i == j)
  }

  /** An id nobody had yet holds nothing: a new user inherits nothing that dangles. */
  lemma NewIdHoldsNothing(db: Db, n: int, user: int, cluster: string, namespace: string, perm: string)
    requires UsersBelow(db, n) && n <= user
    ensures !Granted(db, user, cluster, namespace, perm)
  {
    if path: Path :| Derives(db, path, user, cluster, namespace, perm) {
      assert Reaches(db, db.grants[path.grant], user);
      assert db.grants[path.grant].subject.Group? ==> (db.grants[path.grant].subject.id, user) in db.members;
    }
  }

  lemma WithGrantIds(db: Db, g: int, grant: Grant, rows: map<int, ScopeRow>, n: int)
    requires IdsBelow(db, g) && UsersBelow(db, g) && UniqueNames(db) && 0 < g < n
    requires grant.subject.User? ==> grant.subject.id < n
    requires forall s :: s in rows ==> 0 < s < n
    ensures var after := WithGrant(db, g, grant, rows); IdsBelow(after, n) && UsersBelow(after, n) && UniqueNames(after)
  {
  }
}
