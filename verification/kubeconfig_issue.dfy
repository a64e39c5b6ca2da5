/** Short-lived kubeconfig credentials: issue, one-time download, revocation and cleanup. Times are in seconds. */
module KubeconfigStore {
  import opened Wrappers

  const ISSUED_DEFAULT_TTL := 86400
  const ISSUED_MAX_TTL := 604800
  const ISSUED_MIN_TTL := 60
  const DOWNLOAD_CODE_TTL := 600
  const DOWNLOAD_LINK_TTL := 86400

  /** A token (or its hash) or a download code: a fresh secret. */
  type Secret = nat

  datatype Row = Row(id: int, user: int, cluster: string, expires: int, revoked: bool)
  datatype Entry = Entry(cluster: string, token: Secret, expiresAt: int, linkExpiry: int)

  /** The issued_kubeconfigs table, the download codes held in memory, and the next fresh secret and row id. */
  datatype Store = Store(issued: map<Secret, Row>, codes: map<Secret, Entry>, drawn: Secret, nextId: int)

  datatype Created = Created(id: int, token: Secret, code: Secret, linkExpiresAt: int)

  /** Which credential each row id was given to, when each was issued and downloaded, and the latest time read. */
  datatype Past = Past(owner: map<int, Secret>, born: map<Secret, int>, fetched: map<Secret, int>, clock: int)

  // ---- What each request answers, on any store ----

  function Verdict(s: Store, token: Secret, now: int): Result<Row> {
    if token in s.issued && !s.issued[token].revoked && now <= s.issued[token].expires then Ok(s.issued[token])
    else Err(IssuedTokenInvalid)
  }

  function Render(s: Store, code: Secret, now: int): Result<Entry> {
    if code !in s.codes || now > s.codes[code].expiresAt || now > s.codes[code].linkExpiry then Err(DownloadCodeInvalid)
    else if s.codes[code].token !in s.issued then Err(DownloadCodeInvalid)
    else if Verdict(s, s.codes[code].token, now).Err? then Err(IssuedTokenInvalid)
    else Ok(s.codes[code])
  }

  ghost function RevokeError(rows: map<Secret, Row>, id: int, requester: int, admin: bool): Option<Code> {
    if forall t :: t in rows ==> rows[t].id != id then Some(NotFound)
    else if !admin && exists t :: t in rows && rows[t].id == id && rows[t].user != requester then Some(Forbidden)
    else None
  }

  function RevokeId(rows: map<Secret, Row>, id: int): map<Secret, Row> {
    map t | t in rows :: if rows[t].id == id then rows[t].(revoked := true) else rows[t]
  }

  /** The store after a revocation request: unchanged if the request is refused. */
  ghost function Revoked(s: Store, id: int, requester: int, admin: bool): Store {
    if RevokeError(s.issued, id, requester, admin) == None then s.(issued := RevokeId(s.issued, id)) else s
  }

  /** The store after cleanup: rows as of `before`, unless that delete fails, and codes as of `now`. */
  function Purged(s: Store, before: int, now: int, deleteOk: bool): Store {
    s.(issued := if deleteOk then map t | t in s.issued && s.issued[t].expires >= before :: s.issued[t] else s.issued,
       codes := map c | c in s.codes && now <= s.codes[c].linkExpiry :: s.codes[c])
  }

  /** The store with a new credential and its download code. */
  function WithIssue(s: Store, row: Row, now: int): Store {
    Store(s.issued[s.drawn := row],
          s.codes[s.drawn + 1 := Entry(row.cluster, s.drawn, now + DOWNLOAD_CODE_TTL, now + DOWNLOAD_LINK_TTL)],
          s.drawn + 2, s.nextId + 1)
  }

  function Spend(s: Store, code: Secret): Store {
    s.(codes := s.codes - {code})
  }

  function EffectiveTtl(ttl: int): int {
    if ttl <= 0 then ISSUED_DEFAULT_TTL else ttl
  }

  predicate TtlAllowed(ttl: int) {
    ISSUED_MIN_TTL <= EffectiveTtl(ttl) <= ISSUED_MAX_TTL
  }

  // ---- Cleanup against a store that never cleans ----

  /** `kept` lacks nothing of `ideal` but rows expired, and codes whose link expired, before `clock`. */
  ghost predicate Cleaned(kept: Store, ideal: Store, clock: int) {
    && kept.drawn == ideal.drawn && kept.nextId == ideal.nextId
    && (forall t :: t in kept.issued ==> t in ideal.issued && ideal.issued[t] == kept.issued[t])
    && (forall t :: t in ideal.issued && t !in kept.issued ==> ideal.issued[t].expires < clock)
    && (forall c :: c in kept.codes ==> c in ideal.codes && ideal.codes[c] == kept.codes[c])
    && (forall c :: c in ideal.codes && c !in kept.codes ==> ideal.codes[c].linkExpiry < clock)
  }

  lemma CleanupStaysClose(kept: Store, ideal: Store, clock: int, before: int, now: int, deleteOk: bool)
    requires Cleaned(kept, ideal, clock) && clock <= before <= now
    ensures Cleaned(Purged(kept, before, now, deleteOk), ideal, now)
  {
  }

  lemma IssueStaysClose(kept: Store, ideal: Store, clock: int, row: Row, now: int)
    requires Cleaned(kept, ideal, clock) && clock <= now
    ensures Cleaned(WithIssue(kept, row, now), WithIssue(ideal, row, now), now)
  {
  }

  lemma SpendStaysClose(kept: Store, ideal: Store, clock: int, code: Secret, now: int)
    requires Cleaned(kept, ideal, clock) && clock <= now
    ensures Cleaned(Spend(kept, code), Spend(ideal, code), now)
  {
  }

  /** No caller of VerifyShortToken can tell whether cleanup ran. */
  lemma CleanupHiddenFromVerify(kept: Store, ideal: Store, clock: int, token: Secret, now: int)
    requires Cleaned(kept, ideal, clock) && clock <= now
    ensures Verdict(kept, token, now) == Verdict(ideal, token, now)
  {
  }

  /** A download succeeds in the same cases with and without cleanup, and fails differently
      exactly when the code is still good but its expired credential was cleaned away. */
  lemma CleanupHiddenFromDownload(kept: Store, ideal: Store, clock: int, code: Secret, now: int)
    requires Cleaned(kept, ideal, clock) && clock <= now
    requires code in ideal.codes ==> ideal.codes[code].token in ideal.issued
    ensures Render(kept, code, now).Ok? <==> Render(ideal, code, now).Ok?
    ensures Render(kept, code, now).Ok? ==> Render(kept, code, now) == Render(ideal, code, now)
    ensures Render(kept, code, now) != Render(ideal, code, now) <==>
              code in kept.codes && now <= kept.codes[code].expiresAt && now <= kept.codes[code].linkExpiry &&
              kept.codes[code].token !in kept.issued
  {
    if code in ideal.codes {
      CleanupHiddenFromVerify(kept, ideal, clock, ideal.codes[code].token, now);
    }
  }

  /** Revocation answers differently exactly on a credential that was cleaned away. */
  lemma CleanupSeenByRevoke(kept: Store, ideal: Store, owner: map<int, Secret>, clock: int, id: int, requester: int, admin: bool)
    requires Cleaned(kept, ideal, clock)
    requires IdsOwned(ideal, owner)
    ensures RevokeError(kept.issued, id, requester, admin) != RevokeError(ideal.issued, id, requester, admin) <==>
              exists t :: t in ideal.issued && t !in kept.issued && ideal.issued[t].id == id
    ensures RevokeError(kept.issued, id, requester, admin) != RevokeError(ideal.issued, id, requester, admin) ==>
              RevokeError(kept.issued, id, requester, admin) == Some(NotFound)
  {
    if t :| t in ideal.issued && ideal.issued[t].id == id {
      assert forall u :: u in ideal.issued && ideal.issued[u].id == id ==> u == t;
      if t in kept.issued {
        assert kept.issued[t].id == id;
      }
    }
  }

  lemma RevokeStaysClose(kept: Store, ideal: Store, owner: map<int, Secret>, clock: int, id: int, requester: int, admin: bool)
    requires Cleaned(kept, ideal, clock) && IdsOwned(ideal, owner)
    ensures Cleaned(Revoked(kept, id, requester, admin), Revoked(ideal, id, requester, admin), clock)
  {
    CleanupSeenByRevoke(kept, ideal, owner, clock, id, requester, admin);
  }

  // ---- Issue and download history ----

  /** Every code leads to the credential issued with it, which has not been downloaded yet. */
  ghost predicate CodesMatch(s: Store, born: map<Secret, int>, fetched: map<Secret, int>) {
    forall c :: c in s.codes ==>
      var t := s.codes[c].token;
      && t + 1 == c && c < s.drawn
      && t in s.issued && t in born && t !in fetched
      && s.codes[c].cluster == s.issued[t].cluster
      && s.codes[c].expiresAt == born[t] + DOWNLOAD_CODE_TTL
      && s.codes[c].linkExpiry == born[t] + DOWNLOAD_LINK_TTL
  }

  /** Every download came within ten minutes of its issue. */
  ghost predicate FetchesOk(s: Store, born: map<Secret, int>, fetched: map<Secret, int>, clock: int) {
    && (forall t :: t in born ==> t < s.drawn && born[t] <= clock)
    && (forall t :: t in fetched ==>
          t in born && born[t] <= fetched[t] <= born[t] + DOWNLOAD_CODE_TTL)
  }

  /** Row ids are unique and below the next one. */
  ghost predicate IdsOwned(s: Store, owner: map<int, Secret>) {
    forall t :: t in s.issued ==>
      t < s.drawn && s.issued[t].id < s.nextId && s.issued[t].id in owner && owner[s.issued[t].id] == t
  }

  ghost predicate Ledger(s: Store, past: Past) {
    CodesMatch(s, past.born, past.fetched) && FetchesOk(s, past.born, past.fetched, past.clock) && IdsOwned(s, past.owner)
  }

  function Recorded(past: Past, id: int, token: Secret, now: int): Past {
    Past(past.owner[id := token], past.born[token := now], past.fetched, now)
  }

  lemma IssueKeepsLedger(s: Store, past: Past, row: Row, now: int)
    requires Ledger(s, past) && row.id == s.nextId && past.clock <= now
    ensures Ledger(WithIssue(s, row, now), Recorded(past, row.id, s.drawn, now))
  {
  }

  lemma FetchKeepsLedger(s: Store, past: Past, code: Secret, now: int)
    requires Ledger(s, past) && Render(s, code, now).Ok? && past.clock <= now
    ensures s.codes[code].token !in past.fetched
    ensures Ledger(Spend(s, code), past.(fetched := past.fetched[s.codes[code].token := now], clock := now))
  {
  }

  lemma SpendKeepsLedger(s: Store, past: Past, code: Secret, now: int)
    requires Ledger(s, past) && past.clock <= now
    ensures Ledger(Spend(s, code), past.(clock := now))
  {
  }

  lemma RevokeKeepsLedger(s: Store, past: Past, id: int, requester: int, admin: bool)
    requires Ledger(s, past)
    ensures Ledger(Revoked(s, id, requester, admin), past)
  {
  }

  // ---- What a revocation does ----

  /** Who may revoke what: the owner or an admin, if there is such a credential. */
  lemma RevokeAllowed(s: Store, owner: map<int, Secret>, t: Secret, id: int, requester: int, admin: bool)
    requires IdsOwned(s, owner)
    ensures t in s.issued && s.issued[t].id == id ==>
              RevokeError(s.issued, id, requester, admin) ==
              if admin || s.issued[t].user == requester then None else Some(Forbidden)
    ensures (forall u :: u in s.issued ==> s.issued[u].id != id) ==>
              RevokeError(s.issued, id, requester, admin) == Some(NotFound)
  {
    if t in s.issued && s.issued[t].id == id {
      assert forall u :: u in s.issued && s.issued[u].id == id ==> u == t;
    }
  }

  /** An accepted revocation ends the credential for good, at any time, and no other. */
  lemma RevokeEndsCredential(s: Store, id: int, requester: int, admin: bool, t: Secret, now: int)
    requires RevokeError(s.issued, id, requester, admin) == None
    ensures t in s.issued && s.issued[t].id == id ==>
              Verdict(Revoked(s, id, requester, admin), t, now) == Err(IssuedTokenInvalid)
    ensures t in s.issued && s.issued[t].id != id ==>
              Verdict(Revoked(s, id, requester, admin), t, now) == Verdict(s, t, now)
  {
  }

  /** Nor does a code of the credential render any more, while the codes of every other credential do as before. */
  lemma RevokeEndsCodes(s: Store, id: int, requester: int, admin: bool, code: Secret, now: int)
    requires RevokeError(s.issued, id, requester, admin) == None
    requires code in s.codes && s.codes[code].token in s.issued
    ensures s.issued[s.codes[code].token].id == id ==> Render(Revoked(s, id, requester, admin), code, now).Err?
    ensures s.issued[s.codes[code].token].id != id ==>
              Render(Revoked(s, id, requester, admin), code, now) == Render(s, code, now)
  {
    RevokeEndsCredential(s, id, requester, admin, s.codes[code].token, now);
  }

  /** A refused request changes nothing. */
  lemma RefusedRevokeKeeps(s: Store, id: int, requester: int, admin: bool)
    requires RevokeError(s.issued, id, requester, admin) != None
    ensures Revoked(s, id, requester, admin) == s
  {
  }

  // ---- What a new credential is worth ----

  /** A credential verifies to its end, and its code renders it for ten minutes of that. */
  lemma NewCredential(s: Store, row: Row, at: int, now: int)
    requires !row.revoked
    ensures Verdict(WithIssue(s, row, at), s.drawn, now) == if now <= row.expires then Ok(row) else Err(IssuedTokenInvalid)
    ensures Render(WithIssue(s, row, at), s.drawn + 1, now) ==
              if now > at + 600 then Err(DownloadCodeInvalid)
              else if now > row.expires then Err(IssuedTokenInvalid)
              else Ok(Entry(row.cluster, s.drawn, at + 600, at + 86400))
  {
  }

  /** A spent code is worth nothing. */
  lemma SpentCode(s: Store, code: Secret, now: int)
    ensures Render(Spend(s, code), code, now) == Err(DownloadCodeInvalid)
    ensures forall t, n :: Verdict(Spend(s, code), t, n) == Verdict(s, t, n)
  {
  }

  // ---- The invariant of the service ----

  ghost predicate Sound(kept: Store, ideal: Store, past: Past) {
    Cleaned(kept, ideal, past.clock) && Ledger(ideal, past)
  }

  /** The kept rows are owned as the rows of the uncleaned store are. */
  lemma KeptOwned(kept: Store, ideal: Store, past: Past)
    requires Sound(kept, ideal, past)
    ensures IdsOwned(kept, past.owner)
  {
  }

  lemma PurgeKeeps(kept: Store, ideal: Store, past: Past, before: int, now: int, deleteOk: bool)
    requires Sound(kept, ideal, past) && past.clock <= before <= now
    ensures Sound(Purged(kept, before, now, deleteOk), ideal, past.(clock := now))
  {
    CleanupStaysClose(kept, ideal, past.clock, before, now, deleteOk);
  }

  lemma IssueKeeps(kept: Store, ideal: Store, past: Past, row: Row, now: int)
    requires Sound(kept, ideal, past) && row.id == kept.nextId && past.clock <= now
    ensures kept.drawn == ideal.drawn
    ensures Sound(WithIssue(kept, row, now), WithIssue(ideal, row, now), Recorded(past, row.id, kept.drawn, now))
  {
    IssueStaysClose(kept, ideal, past.clock, row, now);
    IssueKeepsLedger(ideal, past, row, now);
  }

  /** One issue request: cleanup as of `before` and `during`, then the new credential as of `now`. */
  lemma IssueRequestKeeps(kept: Store, ideal: Store, past: Past, row: Row, before: int, during: int, now: int, deleteOk: bool)
    requires Sound(kept, ideal, past) && row.id == kept.nextId && past.clock <= before <= during <= now
    ensures Sound(WithIssue(Purged(kept, before, during, deleteOk), row, now), WithIssue(ideal, row, now),
                  Recorded(past, row.id, kept.drawn, now))
    ensures kept.drawn !in ideal.issued && kept.drawn + 1 !in ideal.codes
  {
    PurgeKeeps(kept, ideal, past, before, during, deleteOk);
    IssueKeeps(Purged(kept, before, during, deleteOk), ideal, past.(clock := during), row, now);
  }

  /** What is on record after a download attempt. */
  function AfterDownload(s: Store, past: Past, code: Secret, now: int): Past {
    if Render(s, code, now).Ok? then past.(fetched := past.fetched[s.codes[code].token := now], clock := now)
    else past.(clock := now)
  }

  lemma DownloadKeeps(kept: Store, ideal: Store, past: Past, code: Secret, now: int)
    requires Sound(kept, ideal, past) && past.clock <= now
    ensures Sound(Spend(kept, code), Spend(ideal, code), AfterDownload(kept, past, code, now))
    ensures Render(kept, code, now).Ok? <==> Render(ideal, code, now).Ok?
    ensures Render(kept, code, now).Ok? ==>
              var t := kept.codes[code].token;
              && t !in past.fetched && t in past.born && past.born[t] <= now <= past.born[t] + DOWNLOAD_CODE_TTL
              && t in kept.issued && !kept.issued[t].revoked && now <= kept.issued[t].expires
              && kept.issued[t].cluster == kept.codes[code].cluster
  {
    CleanupHiddenFromDownload(kept, ideal, past.clock, code, now);
    SpendStaysClose(kept, ideal, past.clock, code, now);
    if Render(ideal, code, now).Ok? {
      FetchKeepsLedger(ideal, past, code, now);
    } else {
      SpendKeepsLedger(ideal, past, code, now);
    }
  }

  lemma RevokeKeeps(kept: Store, ideal: Store, past: Past, id: int, requester: int, admin: bool)
    requires Sound(kept, ideal, past)
    ensures Sound(Revoked(kept, id, requester, admin), Revoked(ideal, id, requester, admin), past)
  {
    RevokeStaysClose(kept, ideal, past.owner, past.clock, id, requester, admin);
    RevokeKeepsLedger(ideal, past, id, requester, admin);
  }
}

module KubeconfigIssue {
  import opened Wrappers
  import opened KubeconfigStore

  /** The service's tables, with the same requests on a store that is never cleaned and what happened so far. */
  datatype State = State(store: Store, ghost ideal: Store, ghost past: Past)

  class KubeconfigService {
    var clusters: set<string>
    var state: State

    ghost predicate Valid()
      reads this
    {
      Sound(state.store, state.ideal, state.past)
    }

    constructor (clusters: set<string>)
      ensures Valid() && this.clusters == clusters
      ensures state == State(Store(map[], map[], 0, 1), Store(map[], map[], 0, 1), Past(map[], map[], map[], 0))
    {
      this.clusters := clusters;
      state := State(Store(map[], map[], 0, 1), Store(map[], map[], 0, 1), Past(map[], map[], map[], 0));
    }

    /** cleanupExpired: the rows are deleted as of `before`, unless that fails, and the codes as of `now`. */
    static method CleanupExpired(s: Store, before: int, now: int, deleteOk: bool) returns (cleaned: Store)
      ensures cleaned == Purged(s, before, now, deleteOk)
      ensures forall token, t :: t >= now >= before ==> Verdict(cleaned, token, t) == Verdict(s, token, t)
      ensures forall code, t :: t >= now >= before && Render(s, code, t).Ok? ==> Render(cleaned, code, t) == Render(s, code, t)
      ensures forall code, t :: t >= now >= before && Render(cleaned, code, t).Ok? ==> Render(s, code, t).Ok?
    {
      cleaned := s;
      if deleteOk {
        cleaned := cleaned.(issued := map t | t in s.issued && s.issued[t].expires >= before :: s.issued[t]);
      }
      cleaned := cleaned.(codes := map c | c in s.codes && now <= s.codes[c].linkExpiry :: s.codes[c]);
    }

    method Issue(user: int, cluster: string, ttl: int, before: int, during: int, now: int, deleteOk: bool)
      returns (r: Result<Created>)
      requires Valid() && state.past.clock <= before <= during <= now
      modifies this`state
      ensures Valid()
      ensures r.Ok? <==> cluster in clusters && TtlAllowed(ttl)
      ensures r.Err? ==> r.code == (if cluster !in clusters then ClusterNotFound else ParamInvalid) && state == old(state)
      ensures r.Ok? ==>
                var was := old(state);
                var row := Row(was.store.nextId, user, cluster, now + EffectiveTtl(ttl), false);
                && r.value == Created(row.id, was.store.drawn, was.store.drawn + 1, now + DOWNLOAD_LINK_TTL)
                && state == State(WithIssue(Purged(was.store, before, during, deleteOk), row, now),
                                  WithIssue(was.ideal, row, now), Recorded(was.past, row.id, r.value.token, now))
    {
      var lifetime := Lifetime(cluster, ttl);
      if lifetime.Err? {
        return Err(lifetime.code);
      }
      var row := Row(state.store.nextId, user, cluster, now + lifetime.value, false);
      var cleaned := CleanupExpired(state.store, before, during, deleteOk);
      IssueRequestKeeps(state.store, state.ideal, state.past, row, before, during, now, deleteOk);
      var token := cleaned.drawn;
      state := State(WithIssue(cleaned, row, now), WithIssue(state.ideal, row, now), Recorded(state.past, row.id, token, now));
      return Ok(Created(row.id, token, token + 1, now + DOWNLOAD_LINK_TTL));
    }

    /** The lifetime of a credential, or why none is issued. */
    method Lifetime(cluster: string, ttl: int) returns (r: Result<int>)
      ensures r == if cluster !in clusters then Err(ClusterNotFound)
                   else if TtlAllowed(ttl) then Ok(EffectiveTtl(ttl)) else Err(ParamInvalid)
    {
      if cluster !in clusters {
        return Err(ClusterNotFound);
      }
      if ttl <= 0 {
        return Ok(ISSUED_DEFAULT_TTL);
      } else if ttl > ISSUED_MAX_TTL {
        return Err(ParamInvalid);
      } else if ttl < ISSUED_MIN_TTL {
        return Err(ParamInvalid);
      }
      return Ok(ttl);
    }

    /** Download with a code; the empty code is None. */
    method Download(request: Option<Secret>, now: int) returns (r: Result<Entry>)
      requires Valid() && state.past.clock <= now
      modifies this`state
      ensures Valid()
      ensures request.None? ==> r == Err(ParamInvalid) && state == old(state)
      ensures request.Some? ==> request.value !in state.store.codes
      ensures request.Some? ==>
                var was := old(state);
                && r == Render(was.store, request.value, now)
                && state == State(Spend(was.store, request.value), Spend(was.ideal, request.value),
                                  AfterDownload(was.store, was.past, request.value, now))
    {
      if request.None? {
        return Err(ParamInvalid);
      }
      r := Consume(state.store, request.value, now);
      DownloadKeeps(state.store, state.ideal, state.past, request.value, now);
      state := State(Spend(state.store, request.value), Spend(state.ideal, request.value),
                     AfterDownload(state.store, state.past, request.value, now));
    }

    /** What a code is worth at this moment. */
    static method Consume(s: Store, code: Secret, now: int) returns (r: Result<Entry>)
      ensures r == Render(s, code, now)
    {
      if code !in s.codes {
        return Err(DownloadCodeInvalid);
      }
      var entry := s.codes[code];
      if now > entry.expiresAt || now > entry.linkExpiry || entry.token !in s.issued {
        return Err(DownloadCodeInvalid);
      }
      var row := s.issued[entry.token];
      if row.revoked || now > row.expires {
        return Err(IssuedTokenInvalid);
      }
      return Ok(entry);
    }

    method VerifyShortToken(token: Secret, now: int) returns (r: Result<Row>)
      requires Valid() && state.past.clock <= now
      ensures r == Verdict(state.ideal, token, now) == Verdict(state.store, token, now)
    {
      CleanupHiddenFromVerify(state.store, state.ideal, state.past.clock, token, now);
      if token !in state.store.issued {
        return Err(IssuedTokenInvalid);
      }
      var row := state.store.issued[token];
      if row.revoked || now > row.expires {
        return Err(IssuedTokenInvalid);
      }
      return Ok(row);
    }

    method Revoke(id: int, requester: int, admin: bool) returns (error: Option<Code>)
      requires Valid()
      modifies this`state
      ensures Valid()
      ensures error == RevokeError(old(state).store.issued, id, requester, admin)
      ensures state == State(Revoked(old(state).store, id, requester, admin), Revoked(old(state).ideal, id, requester, admin),
                             old(state).past)
    {
      RevokeKeeps(state.store, state.ideal, state.past, id, requester, admin);
      error := CheckRevoke(id, requester, admin);
      var issued := if error == None then RevokeId(state.store.issued, id) else state.store.issued;
      state := State(state.store.(issued := issued), Revoked(state.ideal, id, requester, admin), state.past);
    }

    method CheckRevoke(id: int, requester: int, admin: bool) returns (error: Option<Code>)
      requires Valid()
      ensures error == RevokeError(state.store.issued, id, requester, admin)
    {
      var rows := state.store.issued;
      if token :| token in rows && rows[token].id == id {
        if !admin && rows[token].user != requester {
          return Some(Forbidden);
        }
        return None;
      }
      return Some(NotFound);
    }
  }

  /**
   * From any state: a credential is issued for a known cluster and no lifetime, or one from a minute to
   * seven days; it verifies to the end of its lifetime, downloads within ten minutes of that, and once.
   */
  method IssueAndUse(s: KubeconfigService, user: int, cluster: string, ttl: int, at: int, now: int)
    returns (issued: Result<Created>, verified: Result<Row>, first: Result<Entry>, second: Result<Entry>)
    requires s.Valid() && s.state.past.clock <= at <= now
    modifies s
    ensures s.Valid()
    ensures issued.Ok? <==> cluster in s.clusters && (ttl <= 0 || 60 <= ttl <= 604800)
    ensures issued.Ok? ==>
              var ends := at + if ttl <= 0 then 86400 else ttl;
              && (verified.Ok? <==> now <= ends)
              && (first.Ok? <==> now <= ends && now <= at + 600)
              && (first.Ok? ==> first.value.cluster == cluster && first.value.token == issued.value.token)
              && second.Err?
  {
    ghost var base, row;
    issued, base, row := IssueNow(s, user, cluster, ttl, at);
    verified, first, second := Err(NotFound), Err(NotFound), Err(NotFound);
    if issued.Ok? {
      verified, first, second := UseNew(s, base, row, at, issued.value, now);
    }
  }

  /** Issues with all clock readings equal; base is the store after cleanup and row the new credential. */
  method IssueNow(s: KubeconfigService, user: int, cluster: string, ttl: int, at: int)
    returns (issued: Result<Created>, ghost base: Store, ghost row: Row)
    requires s.Valid() && s.state.past.clock <= at
    modifies s`state
    ensures s.Valid() && s.state.past.clock <= at
    ensures issued.Ok? <==> cluster in s.clusters && (ttl <= 0 || 60 <= ttl <= 604800)
    ensures issued.Ok? ==>
              && s.state.store == WithIssue(base, row, at)
              && issued.value.token == base.drawn && issued.value.code == base.drawn + 1
              && row.cluster == cluster && !row.revoked && row.expires == at + if ttl <= 0 then 86400 else ttl
  {
    base := Purged(s.state.store, at, at, true);
    row := Row(s.state.store.nextId, user, cluster, at + EffectiveTtl(ttl), false);
    issued := s.Issue(user, cluster, ttl, at, at, at, true);
  }

  /** Verifies a credential just issued, and downloads it twice. */
  method UseNew(s: KubeconfigService, ghost base: Store, ghost row: Row, at: int, created: Created, now: int)
    returns (verified: Result<Row>, first: Result<Entry>, second: Result<Entry>)
    requires s.Valid() && s.state.past.clock <= now && !row.revoked
    requires s.state.store == WithIssue(base, row, at) && created.token == base.drawn && created.code == base.drawn + 1
    modifies s`state
    ensures s.Valid()
    ensures verified.Ok? <==> now <= row.expires
    ensures first.Ok? <==> now <= row.expires && now <= at + 600
    ensures first.Ok? ==> first.value.cluster == row.cluster && first.value.token == created.token
    ensures second.Err?
  {
    NewCredential(base, row, at, now);
    verified := s.VerifyShortToken(created.token, now);
    first := s.Download(Some(created.code), now);
    SpentCode(WithIssue(base, row, at), created.code, now);
    second := s.Download(Some(created.code), now);
  }

  /** From any state: after an accepted revocation the credential neither verifies nor downloads, at any time. */
  method RevokeAndUse(s: KubeconfigService, code: Secret, requester: int, admin: bool, now: int)
    returns (error: Option<Code>, verified: Result<Row>, downloaded: Result<Entry>)
    requires s.Valid() && s.state.past.clock <= now
    requires code in s.state.store.codes && s.state.store.codes[code].token in s.state.store.issued
    modifies s
    ensures s.Valid()
    ensures var row := old(s.state.store.issued[s.state.store.codes[code].token]);
            error == if admin || row.user == requester then None else Some(Forbidden)
    ensures error == None ==> verified.Err? && downloaded.Err?
  {
    ghost var was, ideal, clock := s.state.store, s.state.ideal, s.state.past.clock;
    var token := s.state.store.codes[code].token;
    var id := s.state.store.issued[token].id;
    KeptOwned(was, ideal, s.state.past);
    RevokeAllowed(was, s.state.past.owner, token, id, requester, admin);
    error := s.Revoke(id, requester, admin);
    if error == None {
      RevokeEndsCredential(was, id, requester, admin, token, now);
      RevokeEndsCodes(was, id, requester, admin, code, now);
    }
    verified := s.VerifyShortToken(token, now);
    downloaded := s.Download(Some(code), now);
  }
}
