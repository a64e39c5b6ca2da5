/** What grants, scopes, groups and role groups mean for a user, in terms of the table rows alone. */
module RbacMeaning {
  import opened RbacModel

  /** A scope row answers a query: each non-empty part of the query equals the row's or meets a star. */
  predicate Answers(c: string, n: string, qc: string, qn: string) {
    (qc == "" || c == "*" || c == qc) && (qn == "" || n == "*" || n == qn)
  }

  /** Some scope row of the grant answers the query, or the query is empty. */
  ghost predicate ScopedTo(db: Db, g: int, qc: string, qn: string) {
    || (qc == "" && qn == "")
    || exists s :: s in db.scopes && db.scopes[s].grant == g &&
                   Answers(db.scopes[s].scope.cluster, db.scopes[s].scope.namespace, qc, qn)
  }

  /** The rows that lead from a user over a grant to a role: one of each table, or two where a group is between. */
  ghost predicate Rows(db: Db, g: int, r: int, user: int) {
    && g in db.grants && r in db.roles
    && (db.grants[g].subject == User(user) || exists ug :: db.grants[g].subject == Group(ug) && (ug, user) in db.members)
    && (db.grants[g].target == RoleObject(r) || exists rg :: db.grants[g].target == RoleGroup(rg) && (rg, r) in db.groupRoles)
  }

  ghost predicate Held(db: Db, user: int, qc: string, qn: string, p: string) {
    exists g, r :: Rows(db, g, r, user) && ScopedTo(db, g, qc, qn) && p in db.roles[r].permissions
  }

  /** A derivation is a choice of rows. */
  lemma DerivesMeans(db: Db, g: int, r: int, user: int, qc: string, qn: string, p: string)
    ensures Derives(db, Path(g, r), user, qc, qn, p) <==>
              Rows(db, g, r, user) && ScopedTo(db, g, qc, qn) && p in db.roles[r].permissions
  {
    ScopeMeans(db, g, qc, qn);
    if g in db.grants && r in db.roles {
      match db.grants[g].subject
      case Group(ug) =>
        assert Reaches(db, db.grants[g], user) <==> (ug, user) in db.members;
      case _ =>
    }
  }

  lemma ScopeMeans(db: Db, g: int, qc: string, qn: string)
    ensures InScope(db, g, qc, qn) <==> ScopedTo(db, g, qc, qn)
  {
    forall s | s in db.scopes
      ensures ScopeCovers(db.scopes[s].scope, qc, qn) <==>
                Answers(db.scopes[s].scope.cluster, db.scopes[s].scope.namespace, qc, qn)
    {
    }
  }

  /** A user is granted a permission exactly when the rows for it are there. */
  lemma GrantedMeans(db: Db, user: int, qc: string, qn: string, p: string)
    ensures Granted(db, user, qc, qn, p) <==> Held(db, user, qc, qn, p)
  {
    forall g, r
      ensures Derives(db, Path(g, r), user, qc, qn, p) <==>
                Rows(db, g, r, user) && ScopedTo(db, g, qc, qn) && p in db.roles[r].permissions
    {
      DerivesMeans(db, g, r, user, qc, qn, p);
    }
    if path: Path :| Derives(db, path, user, qc, qn, p) {
      assert path == Path(path.grant, path.role);
    }
  }

  // ---- One more grant ----

  /** The tables with a grant that has one scope row. */
  function WithOneScope(db: Db, g: int, grant: Grant, s: int, c: string, n: string): Db {
    WithGrant(db, g, grant, map[s := ScopeRow(g, Scope(c, n))])
  }

  /** Derivations over old grants are what they were. */
  lemma OldGrantsStay(db: Db, g: int, grant: Grant, s: int, c: string, n: string, h: int, r: int,
                      user: int, qc: string, qn: string, p: string)
    requires Consistent(db) && g !in db.grants && s !in db.scopes && h != g
    ensures Derives(WithOneScope(db, g, grant, s, c, n), Path(h, r), user, qc, qn, p) <==>
              Derives(db, Path(h, r), user, qc, qn, p)
  {
    GrantAddsExactly(db, g, grant, map[s := ScopeRow(g, Scope(c, n))], Path(h, r), user, qc, qn, p);
  }

  /** The new grant is scoped to a query exactly when its one row answers it. */
  lemma NewScope(db: Db, g: int, grant: Grant, s: int, c: string, n: string, qc: string, qn: string)
    requires Consistent(db) && g !in db.grants && s !in db.scopes
    ensures ScopedTo(WithOneScope(db, g, grant, s, c, n), g, qc, qn) <==> Answers(c, n, qc, qn)
  {
    var after := WithOneScope(db, g, grant, s, c, n);
    assert after.scopes[s] == ScopeRow(g, Scope(c, n));
    assert forall t :: t in db.scopes ==> db.scopes[t].grant != g;
  }

  /** Granting a role to a user adds exactly the role's permissions, for exactly the queries the scope answers. */
  lemma RoleToUser(db: Db, g: int, s: int, u: int, r: int, c: string, n: string, user: int, qc: string, qn: string, p: string)
    requires Consistent(db) && g !in db.grants && s !in db.scopes && r in db.roles
    ensures Granted(WithOneScope(db, g, Grant(User(u), RoleObject(r)), s, c, n), user, qc, qn, p) <==>
              Granted(db, user, qc, qn, p) ||
              (user == u && p in db.roles[r].permissions && Answers(c, n, qc, qn))
  {
    var grant := Grant(User(u), RoleObject(r));
    var after := WithOneScope(db, g, grant, s, c, n);
    NewGrantAdds(db, g, grant, s, c, n, user, qc, qn, p);
    assert forall q :: Rows(after, g, q, user) <==> q == r && user == u;
  }

  /** A grant from a user group to a role group adds the permissions of the group's roles, for its members. */
  lemma RoleGroupToUserGroup(db: Db, g: int, s: int, ug: int, rg: int, c: string, n: string,
                             user: int, qc: string, qn: string, p: string)
    requires Consistent(db) && g !in db.grants && s !in db.scopes
    ensures Granted(WithOneScope(db, g, Grant(Group(ug), RoleGroup(rg)), s, c, n), user, qc, qn, p) <==>
              Granted(db, user, qc, qn, p) ||
              ((ug, user) in db.members && Answers(c, n, qc, qn) &&
               exists r :: (rg, r) in db.groupRoles && r in db.roles && p in db.roles[r].permissions)
  {
    var grant := Grant(Group(ug), RoleGroup(rg));
    var after := WithOneScope(db, g, grant, s, c, n);
    NewGrantAdds(db, g, grant, s, c, n, user, qc, qn, p);
    assert forall r :: Rows(after, g, r, user) <==> r in db.roles && (ug, user) in db.members && (rg, r) in db.groupRoles;
  }

  lemma NewGrantAdds(db: Db, g: int, grant: Grant, s: int, c: string, n: string, user: int, qc: string, qn: string, p: string)
    requires Consistent(db) && g !in db.grants && s !in db.scopes
    ensures var after := WithOneScope(db, g, grant, s, c, n);
            Granted(after, user, qc, qn, p) <==>
              Granted(db, user, qc, qn, p) ||
              (Answers(c, n, qc, qn) && exists r :: Rows(after, g, r, user) && p in after.roles[r].permissions)
  {
    var after := WithOneScope(db, g, grant, s, c, n);
    NewScope(db, g, grant, s, c, n, qc, qn);
    forall path: Path
      ensures Derives(after, path, user, qc, qn, p) <==>
                if path.grant == g
                then Rows(after, g, path.role, user) && Answers(c, n, qc, qn) && p in after.roles[path.role].permissions
                else Derives(db, path, user, qc, qn, p)
    {
      assert path == Path(path.grant, path.role);
      if path.grant == g {
        DerivesMeans(after, g, path.role, user, qc, qn, p);
      } else {
        OldGrantsStay(db, g, grant, s, c, n, path.grant, path.role, user, qc, qn, p);
      }
    }
    if path: Path :| Derives(db, path, user, qc, qn, p) {
      assert Derives(after, path, user, qc, qn, p);
    }
    if r :| Rows(after, g, r, user) && p in after.roles[r].permissions && Answers(c, n, qc, qn) {
      assert Derives(after, Path(g, r), user, qc, qn, p);
    }
  }

  // ---- Memberships ----

  /** Joining a group adds exactly what the group's grants give, to the one who joins. */
  lemma JoinGroup(db: Db, ug: int, u: int, user: int, qc: string, qn: string, p: string)
    ensures Granted(db.(members := db.members + {(ug, u)}), user, qc, qn, p) <==>
              Granted(db, user, qc, qn, p) ||
              (user == u && exists g, r :: GroupRows(db, g, r, ug) && ScopedTo(db, g, qc, qn) && p in db.roles[r].permissions)
  {
    var after := db.(members := db.members + {(ug, u)});
    GrantedMeans(db, user, qc, qn, p);
    GrantedMeans(after, user, qc, qn, p);
    assert forall g :: ScopedTo(after, g, qc, qn) <==> ScopedTo(db, g, qc, qn);
    assert forall g, r :: Rows(after, g, r, user) <==> Rows(db, g, r, user) || (user == u && GroupRows(db, g, r, ug));
  }

  /** The rows that lead from a user group over a grant to a role. */
  ghost predicate GroupRows(db: Db, g: int, r: int, ug: int) {
    && g in db.grants && r in db.roles && db.grants[g].subject == Group(ug)
    && (db.grants[g].target == RoleObject(r) || exists rg :: db.grants[g].target == RoleGroup(rg) && (rg, r) in db.groupRoles)
  }

  /** Putting a role into a role group adds exactly the role's permissions, to whoever was granted the group. */
  lemma ExtendRoleGroup(db: Db, rg: int, role: int, user: int, qc: string, qn: string, p: string)
    requires role in db.roles
    ensures Granted(db.(groupRoles := db.groupRoles + {(rg, role)}), user, qc, qn, p) <==>
              Granted(db, user, qc, qn, p) ||
              (p in db.roles[role].permissions &&
               exists g :: GrantedGroup(db, g, rg, user) && ScopedTo(db, g, qc, qn))
  {
    var after := db.(groupRoles := db.groupRoles + {(rg, role)});
    GrantedMeans(db, user, qc, qn, p);
    GrantedMeans(after, user, qc, qn, p);
    assert forall g :: ScopedTo(after, g, qc, qn) <==> ScopedTo(db, g, qc, qn);
    assert forall g, r :: Rows(after, g, r, user) <==> Rows(db, g, r, user) || (r == role && GrantedGroup(db, g, rg, user));
    if g :| GrantedGroup(db, g, rg, user) && ScopedTo(db, g, qc, qn) && p in db.roles[role].permissions {
      assert Rows(after, g, role, user);
    }
  }

  /** The grant gives the role group to the user, directly or over a user group. */
  ghost predicate GrantedGroup(db: Db, g: int, rg: int, user: int) {
    && g in db.grants && db.grants[g].target == RoleGroup(rg)
    && (db.grants[g].subject == User(user) || exists ug :: db.grants[g].subject == Group(ug) && (ug, user) in db.members)
  }

  // ---- Deletes ----

  /** What a delete spares, victim by victim: derivations over other grants, roles, role groups and user groups. */
  lemma DeleteSpares(db: Db, v: Victim, g: int, r: int, user: int, qc: string, qn: string, p: string)
    requires Consistent(db)
    ensures Derives(Without(db, v), Path(g, r), user, qc, qn, p) <==>
              Derives(db, Path(g, r), user, qc, qn, p) &&
              match v
              case AGrant(id) => g != id
              case ARole(id) => r != id
              case ARoleGroup(id) => db.grants[g].target != RoleGroup(id)
              case AUserGroup(id) => db.grants[g].subject != Group(id)
  {
    DeleteRemovesExactly(db, v, Path(g, r), user, qc, qn, p);
  }
}
