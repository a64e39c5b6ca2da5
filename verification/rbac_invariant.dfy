/** What every operation on the RBAC tables keeps. */
module RbacInvariant {
  import opened RbacModel

  ghost predicate Sound(db: Db, nextId: int) {
    nextId > 0 && Consistent(db) && IdsBelow(db, nextId) && UsersBelow(db, nextId) && UniqueNames(db)
  }

  lemma WithoutSound(db: Db, v: Victim, nextId: int)
    requires Sound(db, nextId)
    ensures Sound(Without(db, v), nextId)
  {
    WithoutConsistent(db, v);
  }

  /** Rows numbered from an unused id are new to the tables. */
  lemma FreshRows(db: Db, g: int, scopes: seq<Scope>, rows: map<int, ScopeRow>)
    requires IdsBelow(db, g) && g > 0 && scopes != [] && rows == ScopeRows(g, g + 1, scopes)
    ensures FreshGrant(db, g, rows) && g + 1 in rows
    ensures forall s :: s in rows ==> 0 < s < g + 1 + |scopes|
  {
    ScopeRowsContents(g, g + 1, scopes);
    assert rows.Keys !! db.scopes.Keys by {
      forall s | s in rows
        ensures s !in db.scopes
      {
      }
    }
  }

  lemma CataloguedSound(db: Db, n: int, after: Db, m: int)
    requires Sound(db, n) && n <= m && Catalogued(db, after) && IdsBelow(after, m) && UniqueNames(after)
    ensures Sound(after, m) && (UserRefsOk(db) ==> UserRefsOk(after))
  {
    CataloguedConsistent(db, after);
  }

  lemma WithGrantSound(db: Db, g: int, grant: Grant, scopes: seq<Scope>)
    requires Sound(db, g) && scopes != []
    requires SubjectRefOk(db, grant.subject) && ObjectRefOk(db, grant.target)
    requires grant !in db.grants.Values && (grant.subject.User? ==> grant.subject.id in db.users)
    ensures FreshGrant(db, g, ScopeRows(g, g + 1, scopes))
    ensures Sound(WithGrant(db, g, grant, ScopeRows(g, g + 1, scopes)), g + 1 + |scopes|)
  {
    FreshRows(db, g, scopes, ScopeRows(g, g + 1, scopes));
    WithRowsSound(db, g, grant, ScopeRows(g, g + 1, scopes), g + 1, g + 1 + |scopes|);
  }

  lemma WithRowsSound(db: Db, g: int, grant: Grant, rows: map<int, ScopeRow>, row: int, n: int)
    requires Sound(db, g) && FreshGrant(db, g, rows) && row in rows && g < n
    requires forall s :: s in rows ==> 0 < s < n
    requires SubjectRefOk(db, grant.subject) && ObjectRefOk(db, grant.target)
    requires grant !in db.grants.Values && (grant.subject.User? ==> grant.subject.id in db.users)
    ensures Sound(WithGrant(db, g, grant, rows), n)
  {
    NoTwin(db, grant);
    WithGrantConsistent(db, g, grant, rows);
    WithGrantIds(db, g, grant, rows, n);
  }

  lemma NoTwin(db: Db, grant: Grant)
    requires grant !in db.grants.Values
    ensures forall h :: h in db.grants ==> db.grants[h] != grant
  {
  }
}
