/** Login sessions: refresh rotation and revocation (rotation as in section 10.4 of RFC 6749). */
module SessionHistory {
  /** RefreshTokenTTL in seconds: 7 days. */
  const REFRESH_TTL := 604800

  /** A refresh token, or its hash: each is drawn once. */
  type Token = nat

  datatype User = User(id: int, password: string, disabled: bool)
  datatype Record = Record(user: int, expires: int, revoked: bool)

  /** What happened to sessions, in order. Cut is a disable, a password change or reset, or a delete. */
  datatype Event = Issued(token: Token, user: int, at: int) | Refreshed(token: Token, at: int) | Cut(user: int)

  /** No token refreshes twice, none after a cut that followed its issue, and none later than seven days after it. */
  ghost predicate HistoryOk(log: seq<Event>) {
    && (forall i, j :: 0 <= i < j < |log| && log[i].Refreshed? && log[j].Refreshed? ==> log[i].token != log[j].token)
    && (forall i, j, k :: 0 <= i < j < k < |log| && log[i].Issued? && log[j] == Cut(log[i].user) && log[k].Refreshed? ==>
          log[k].token != log[i].token)
    && (forall i, j :: 0 <= i < j < |log| && log[i].Issued? && log[j].Refreshed? && log[j].token == log[i].token ==>
          log[j].at <= log[i].at + 604800)
  }

  /** A token whose history forbids a refresh: it refreshed already, or its user was cut off after its issue. */
  ghost predicate Spent(log: seq<Event>, t: Token) {
    || (exists i :: 0 <= i < |log| && log[i].Refreshed? && log[i].token == t)
    || exists i, j :: 0 <= i < j < |log| && log[i].Issued? && log[i].token == t && log[j] == Cut(log[i].user)
  }

  /** The token table agrees with the history: every issue is on record and every spent token is revoked. */
  ghost predicate Logged(tokens: map<Token, Record>, log: seq<Event>) {
    && HistoryOk(log)
    && (forall i :: 0 <= i < |log| && log[i].Issued? ==>
          log[i].token in tokens && tokens[log[i].token].user == log[i].user &&
          tokens[log[i].token].expires == log[i].at + REFRESH_TTL)
    && (forall t :: Spent(log, t) ==> t in tokens && tokens[t].revoked)
  }

  /** Each login lineage has at most one token that is not revoked. */
  ghost predicate Rotated(tokens: map<Token, Record>, root: map<Token, Token>, drawn: Token) {
    && root.Keys == tokens.Keys
    && (forall t :: t in tokens ==> t < drawn && root[t] < drawn)
    && (forall t, u :: t in tokens && u in tokens && root[t] == root[u] && !tokens[t].revoked && !tokens[u].revoked ==>
          t == u)
  }

  /** No lineage of `r` has a token that is not revoked. */
  ghost predicate Retired(tokens: map<Token, Record>, root: map<Token, Token>, r: Token) {
    forall u :: u in tokens && u in root && root[u] == r ==> tokens[u].revoked
  }

  /** Every row of `before` is still there for the same user, and none of them is un-revoked. */
  ghost predicate Follows(before: map<Token, Record>, after: map<Token, Record>) {
    forall t :: t in before ==>
      t in after && after[t].user == before[t].user && after[t].expires == before[t].expires &&
      (before[t].revoked ==> after[t].revoked)
  }

  lemma SpentSnoc(log: seq<Event>, e: Event, t: Token)
    requires Spent(log + [e], t)
    ensures Spent(log, t) || (e.Refreshed? && e.token == t) ||
            (e.Cut? && exists i :: 0 <= i < |log| && log[i].Issued? && log[i].token == t && log[i].user == e.user)
  {
    var longer := log + [e];
    if i :| 0 <= i < |longer| && longer[i].Refreshed? && longer[i].token == t {
      assert i < |log| ==> log[i] == longer[i];
    } else {
      var i, j :| 0 <= i < j < |longer| && longer[i].Issued? && longer[i].token == t && longer[j] == Cut(longer[i].user);
      assert longer[i] == log[i];
      if j < |log| {
        assert longer[j] == log[j];
      }
    }
  }

  /** A step that keeps every row and records one more event, where the event demands no more than the table shows. */
  lemma LoggedSnoc(before: map<Token, Record>, after: map<Token, Record>, log: seq<Event>, e: Event)
    requires Logged(before, log) && Follows(before, after)
    requires e.Issued? ==> e.token in after && after[e.token].user == e.user && after[e.token].expires == e.at + REFRESH_TTL
    requires e.Refreshed? ==>
               e.token in before && !before[e.token].revoked && e.at <= before[e.token].expires && after[e.token].revoked
    requires e.Cut? ==> forall t :: t in after && after[t].user == e.user ==> after[t].revoked
    ensures Logged(after, log + [e])
  {
    var longer := log + [e];
    forall t | Spent(longer, t)
      ensures t in after && after[t].revoked
    {
      SpentSnoc(log, e, t);
    }
    if e.Refreshed? {
      assert !Spent(log, e.token);
    }
    HistorySnoc(log, e);
  }

  lemma HistorySnoc(log: seq<Event>, e: Event)
    requires HistoryOk(log)
    requires e.Refreshed? ==>
               !Spent(log, e.token) &&
               forall i :: 0 <= i < |log| && log[i].Issued? && log[i].token == e.token ==> e.at <= log[i].at + REFRESH_TTL
    ensures HistoryOk(log + [e])
  {
    var longer := log + [e];
    assert forall i :: 0 <= i < |log| ==> longer[i] == log[i];
    forall i, j, k | 0 <= i < j < k < |longer| && longer[i].Issued? && longer[j] == Cut(longer[i].user) && longer[k].Refreshed?
      ensures longer[k].token != longer[i].token
    {
      assert log[i] == longer[i] && log[j] == longer[j];
    }
  }

  lemma LoggedFollows(before: map<Token, Record>, after: map<Token, Record>, log: seq<Event>)
    requires Logged(before, log) && Follows(before, after)
    ensures Logged(after, log)
  {
  }

  predicate Usable(tokens: map<Token, Record>, t: Token, now: int) {
    t in tokens && !tokens[t].revoked && now <= tokens[t].expires
  }

  ghost predicate HasUser(users: map<string, User>, id: int, disabled: bool) {
    exists n :: n in users && users[n].id == id && users[n].disabled == disabled
  }

  function RevokeOne(tokens: map<Token, Record>, t: Token): map<Token, Record> {
    if t in tokens then tokens[t := tokens[t].(revoked := true)] else tokens
  }

  function RevokeOwned(tokens: map<Token, Record>, user: int): map<Token, Record> {
    map t | t in tokens :: if tokens[t].user == user then tokens[t].(revoked := true) else tokens[t]
  }

  /** A fresh token joins a lineage whose other tokens are all revoked. */
  lemma IssueRotates(tokens: map<Token, Record>, root: map<Token, Token>, drawn: Token, rec: Record, r: Token)
    requires Rotated(tokens, root, drawn) && Retired(tokens, root, r) && r <= drawn
    ensures drawn !in tokens && Rotated(tokens[drawn := rec], root[drawn := r], drawn + 1)
  {
    assert root[drawn := r].Keys == root.Keys + {drawn};
  }

  lemma RevokeRotates(tokens: map<Token, Record>, root: map<Token, Token>, drawn: Token, t: Token)
    requires Rotated(tokens, root, drawn)
    ensures Rotated(RevokeOne(tokens, t), root, drawn) && Follows(tokens, RevokeOne(tokens, t))
    ensures t in tokens && !tokens[t].revoked ==> Retired(RevokeOne(tokens, t), root, root[t])
  {
    assert RevokeOne(tokens, t).Keys == tokens.Keys;
  }

  // ---- The invariant of the session tables ----

  ghost predicate Sound(tokens: map<Token, Record>, root: map<Token, Token>, drawn: Token, log: seq<Event>) {
    Logged(tokens, log) && Rotated(tokens, root, drawn)
  }

  lemma IssueKeeps(tokens: map<Token, Record>, root: map<Token, Token>, drawn: Token, log: seq<Event>,
                   user: int, now: int, r: Token)
    requires Sound(tokens, root, drawn, log) && (r == drawn || (r < drawn && Retired(tokens, root, r)))
    ensures drawn !in tokens
    ensures Sound(tokens[drawn := Record(user, now + REFRESH_TTL, false)], root[drawn := r], drawn + 1,
                  log + [Issued(drawn, user, now)])
  {
    IssueRotates(tokens, root, drawn, Record(user, now + REFRESH_TTL, false), r);
    LoggedSnoc(tokens, tokens[drawn := Record(user, now + REFRESH_TTL, false)], log, Issued(drawn, user, now));
  }

  lemma UseKeeps(tokens: map<Token, Record>, root: map<Token, Token>, drawn: Token, log: seq<Event>, t: Token, now: int)
    requires Sound(tokens, root, drawn, log) && t in tokens && !tokens[t].revoked && now <= tokens[t].expires
    ensures Sound(RevokeOne(tokens, t), root, drawn, log + [Refreshed(t, now)])
    ensures t in root && root[t] < drawn && Retired(RevokeOne(tokens, t), root, root[t])
  {
    RevokeRotates(tokens, root, drawn, t);
    LoggedSnoc(tokens, RevokeOne(tokens, t), log, Refreshed(t, now));
  }

  lemma RevokeKeeps(tokens: map<Token, Record>, root: map<Token, Token>, drawn: Token, log: seq<Event>, t: Token)
    requires Sound(tokens, root, drawn, log)
    ensures Sound(RevokeOne(tokens, t), root, drawn, log)
  {
    RevokeRotates(tokens, root, drawn, t);
    LoggedFollows(tokens, RevokeOne(tokens, t), log);
  }

  lemma CutKeeps(tokens: map<Token, Record>, root: map<Token, Token>, drawn: Token, log: seq<Event>, user: int)
    requires Sound(tokens, root, drawn, log)
    ensures Sound(RevokeOwned(tokens, user), root, drawn, log + [Cut(user)])
  {
    assert RevokeOwned(tokens, user).Keys == tokens.Keys;
    LoggedSnoc(tokens, RevokeOwned(tokens, user), log, Cut(user));
  }
}

/** Login, refresh, logout and the user operations that end sessions. */
module RefreshTokens {
  import opened Wrappers
  import opened SessionHistory

  class Sessions {
    var users: map<string, User>
    var tokens: map<Token, Record>
    var drawn: Token
    var nextUser: int
    ghost var root: map<Token, Token>  // the login a token descends from
    ghost var log: seq<Event>

    ghost predicate Valid()
      reads this
    {
      && Sound(tokens, root, drawn, log)
      && (forall n :: n in users ==> users[n].id < nextUser)
      && (forall m, n :: m in users && n in users && users[m].id == users[n].id ==> m == n)
    }

    constructor ()
      ensures Valid() && users == map[] && tokens == map[] && log == []
    {
      users, tokens, drawn, nextUser, root, log := map[], map[], 0, 1, map[], [];
    }

    // ---- Token table ----

    /** issuePair: a fresh token for the user, in a lineage whose other tokens are revoked, or in one of its own. */
    method Issue(user: int, now: int, ghost lineage: Option<Token>) returns (t: Token)
      requires Valid()
      requires lineage.Some? ==> lineage.value < drawn && Retired(tokens, root, lineage.value)
      modifies this`tokens, this`drawn, this`root, this`log
      ensures Valid() && t !in old(tokens)
      ensures tokens == old(tokens)[t := Record(user, now + REFRESH_TTL, false)]
      ensures root == old(root)[t := if lineage.Some? then lineage.value else t]
      ensures log == old(log) + [Issued(t, user, now)]
    {
      t := drawn;
      ghost var r := if lineage.Some? then lineage.value else t;
      IssueKeeps(tokens, root, drawn, log, user, now, r);
      drawn := drawn + 1;
      root := root[t := r];
      tokens := tokens[t := Record(user, now + REFRESH_TTL, false)];
      log := log + [Issued(t, user, now)];
    }

    /** Revokes one token if it is on record; used records that a refresh spent it. */
    method RevokeRefreshToken(t: Token, ghost used: Option<int>)
      requires Valid() && (used.Some? ==> t in tokens && !tokens[t].revoked && used.value <= tokens[t].expires)
      modifies this`tokens, this`log
      ensures Valid() && tokens == RevokeOne(old(tokens), t)
      ensures log == old(log) + if used.Some? then [Refreshed(t, used.value)] else []
      ensures used.Some? ==> t in root && root[t] < drawn && Retired(tokens, root, root[t])
      ensures forall u :: u in tokens <==> u in old(tokens)
      ensures forall u :: u in tokens ==> if u == t then tokens[u].revoked else tokens[u] == old(tokens)[u]
    {
      if used.Some? {
        UseKeeps(tokens, root, drawn, log, t, used.value);
        log := log + [Refreshed(t, used.value)];
      } else {
        RevokeKeeps(tokens, root, drawn, log, t);
      }
      if t in tokens {
        tokens := tokens[t := tokens[t].(revoked := true)];
      }
    }

    /** Cuts a user off: every token of theirs is revoked. */
    method RevokeAllForUser(user: int)
      requires Valid()
      modifies this`tokens, this`log
      ensures Valid() && tokens == RevokeOwned(old(tokens), user)
      ensures forall t :: t in tokens <==> t in old(tokens)
      ensures forall t :: t in tokens ==>
                if old(tokens)[t].user == user then tokens[t].revoked else tokens[t] == old(tokens)[t]
      ensures log == old(log) + [Cut(user)]
    {
      CutKeeps(tokens, root, drawn, log, user);
      tokens := RevokeOwned(tokens, user);
      log := log + [Cut(user)];
    }

    // ---- Requests ----

    method Login(name: string, password: string, now: int) returns (r: Result<Token>)
      requires Valid()
      modifies this
      ensures Valid() && users == old(users)
      ensures r.Ok? <==> name in users && !users[name].disabled && users[name].password == password
      ensures r.Ok? ==> r.value !in old(tokens) && root == old(root)[r.value := r.value] &&
                        tokens == old(tokens)[r.value := Record(users[name].id, now + REFRESH_TTL, false)] &&
                        log == old(log) + [Issued(r.value, users[name].id, now)]
      ensures r.Err? ==> tokens == old(tokens) && log == old(log) &&
                         r.code == if name in users && users[name].disabled then UserDisabled else Unauthorized
    {
      if name !in users {
        return Err(Unauthorized);
      }
      if users[name].disabled {
        return Err(UserDisabled);
      }
      if users[name].password != password {
        return Err(Unauthorized);
      }
      var t := Issue(users[name].id, now, None);
      return Ok(t);
    }

    method Refresh(t: Token, now: int) returns (r: Result<Token>)
      requires Valid()
      modifies this
      ensures Valid() && users == old(users)
      ensures r.Ok? <==> Usable(old(tokens), t, now) && HasUser(users, old(tokens)[t].user, false)
      ensures r == Err(UserDisabled) <==> Usable(old(tokens), t, now) && HasUser(users, old(tokens)[t].user, true)
      ensures r.Err? ==> r.code in {Unauthorized, UserDisabled}
      ensures t !in old(tokens) || old(tokens)[t].revoked || now > old(tokens)[t].expires ==> r == Err(Unauthorized)
      ensures t in old(tokens) && !old(tokens)[t].revoked && now <= old(tokens)[t].expires ==>
                forall n :: n in users && users[n].id == old(tokens)[t].user && !users[n].disabled ==> r.Ok?
      ensures r.Ok? ==> r.value !in old(tokens) && t in old(root) && root == old(root)[r.value := old(root)[t]] &&
                        tokens == RevokeOne(old(tokens), t)[r.value := Record(old(tokens)[t].user, now + REFRESH_TTL, false)] &&
                        log == old(log) + [Refreshed(t, now), Issued(r.value, old(tokens)[t].user, now)]
      ensures r.Err? ==> tokens == old(tokens) && log == old(log)
    {
      if t !in tokens {
        return Err(Unauthorized);
      }
      var rec := tokens[t];
      if rec.revoked || now > rec.expires {
        return Err(Unauthorized);
      }
      if name :| name in users && users[name].id == rec.user {
        if users[name].disabled {
          return Err(UserDisabled);
        }
        var next := Rotate(t, now);
        return Ok(next);
      }
      return Err(Unauthorized);
    }

    /** Replaces a token by its successor. */
    method Rotate(t: Token, now: int) returns (next: Token)
      requires Valid() && t in tokens && !tokens[t].revoked && now <= tokens[t].expires
      modifies this`tokens, this`drawn, this`root, this`log
      ensures Valid() && next !in old(tokens) && t in old(root) && root == old(root)[next := old(root)[t]]
      ensures tokens == RevokeOne(old(tokens), t)[next := Record(old(tokens)[t].user, now + REFRESH_TTL, false)]
      ensures log == old(log) + [Refreshed(t, now), Issued(next, old(tokens)[t].user, now)]
    {
      var user := tokens[t].user;
      RevokeRefreshToken(t, Some(now));
      next := Issue(user, now, Some(root[t]));
    }

    method DisableUser(name: string, disabled: bool) returns (error: Option<Code>)
      requires Valid()
      modifies this
      ensures Valid() && error == if name in old(users) then None else Some(UserNotFound)
      ensures users == if error == None then old(users)[name := old(users)[name].(disabled := disabled)] else old(users)
      ensures log == old(log) + if error == None && disabled then [Cut(old(users)[name].id)] else []
      ensures tokens == if error == None && disabled then RevokeOwned(old(tokens), old(users)[name].id) else old(tokens)
    {
      if name !in users {
        return Some(UserNotFound);
      }
      users := users[name := users[name].(disabled := disabled)];
      if disabled {
        RevokeAllForUser(users[name].id);
      }
      return None;
    }

    method ChangePassword(name: string, oldPassword: string, newPassword: string) returns (error: Option<Code>)
      requires Valid()
      modifies this
      ensures Valid()
      ensures error == if |newPassword| < 8 then Some(ParamInvalid)
                       else if name !in old(users) then Some(UserNotFound)
                       else if old(users)[name].password != oldPassword then Some(Unauthorized) else None
      ensures users == if error == None then old(users)[name := old(users)[name].(password := newPassword)] else old(users)
      ensures log == old(log) + if error == None then [Cut(old(users)[name].id)] else []
      ensures tokens == if error == None then RevokeOwned(old(tokens), old(users)[name].id) else old(tokens)
    {
      if |newPassword| < 8 {
        return Some(ParamInvalid);
      }
      if name !in users {
        return Some(UserNotFound);
      }
      if users[name].password != oldPassword {
        return Some(Unauthorized);
      }
      users := users[name := users[name].(password := newPassword)];
      RevokeAllForUser(users[name].id);
      return None;
    }

    /** Resets to a generated password. */
    method ResetPassword(name: string, generated: string) returns (error: Option<Code>)
      requires Valid()
      modifies this
      ensures Valid() && error == if name in old(users) then None else Some(UserNotFound)
      ensures users == if error == None then old(users)[name := old(users)[name].(password := generated)] else old(users)
      ensures log == old(log) + if error == None then [Cut(old(users)[name].id)] else []
      ensures tokens == if error == None then RevokeOwned(old(tokens), old(users)[name].id) else old(tokens)
    {
      if name !in users {
        return Some(UserNotFound);
      }
      users := users[name := users[name].(password := generated)];
      RevokeAllForUser(users[name].id);
      return None;
    }

    method DeleteUser(operator: string, name: string) returns (error: Option<Code>)
      requires Valid()
      modifies this
      ensures Valid()
      ensures error == if operator == name || name == "admin" then Some(Forbidden)
                       else if name !in old(users) then Some(UserNotFound) else None
      ensures users == if error == None then old(users) - {name} else old(users)
      ensures log == old(log) + if error == None then [Cut(old(users)[name].id)] else []
      ensures tokens == if error == None then RevokeOwned(old(tokens), old(users)[name].id) else old(tokens)
    {
      if operator == name || name == "admin" {
        return Some(Forbidden);
      }
      if name !in users {
        return Some(UserNotFound);
      }
      RevokeAllForUser(users[name].id);
      users := users - {name};
      return None;
    }

    method CreateUser(name: string, password: string, knownRole: bool) returns (error: Option<Code>)
      requires Valid()
      modifies this`users, this`nextUser
      ensures Valid()
      ensures error == if !knownRole || |password| < 8 then Some(ParamInvalid)
                       else if name in old(users) then Some(UserAlreadyExists) else None
      ensures users == if error == None then old(users)[name := User(old(nextUser), password, false)] else old(users)
    {
      if !knownRole || |password| < 8 {
        return Some(ParamInvalid);
      }
      if name in users {
        return Some(UserAlreadyExists);
      }
      users := users[name := User(nextUser, password, false)];
      nextUser := nextUser + 1;
      return None;
    }

    /** Logout. */
    method Revoke(t: Token)
      requires Valid()
      modifies this`tokens, this`log
      ensures Valid() && log == old(log)
      ensures tokens == RevokeOne(old(tokens), t)
    {
      RevokeRefreshToken(t, None);
    }
  }

  /**
   * From any state: the token of a login refreshes for seven days and not a second longer, a token that
   * refreshed does not refresh again, and its successor lives seven days from its own issue.
   */
  method RefreshChain(s: Sessions, name: string, password: string, at: int, later: int, last: int)
    returns (second: Result<Token>, again: Result<Token>, third: Result<Token>)
    requires s.Valid() && name in s.users && !s.users[name].disabled && s.users[name].password == password
    modifies s
    ensures s.Valid()
    ensures second.Ok? <==> later <= at + 604800
    ensures second.Ok? ==> again == Err(Unauthorized) && (third.Ok? <==> last <= later + 604800)
  {
    var first := s.Login(name, password, at);
    second := s.Refresh(first.value, later);
    if second.Err? {
      return second, second, second;
    }
    again := s.Refresh(first.value, later);
    third := s.Refresh(second.value, last);
  }

  /** From any state: a token refreshes no more once its user is disabled and enabled again. */
  method DisableEndsSessions(s: Sessions, name: string, password: string, at: int, later: int) returns (r: Result<Token>)
    requires s.Valid() && name in s.users && !s.users[name].disabled && s.users[name].password == password
    modifies s
    ensures s.Valid() && r == Err(Unauthorized)
  {
    var first := s.Login(name, password, at);
    var error := s.DisableUser(name, true);
    error := s.DisableUser(name, false);
    r := s.Refresh(first.value, later);
  }
}
