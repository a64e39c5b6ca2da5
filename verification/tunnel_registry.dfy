/** The agent hub's two registries and the lock sections that change them. */
module TunnelRegistry {
  import opened Wrappers

  /** Secrets are unguessable: each newSecret is a number never drawn before. */
  type Secret = nat

  /** A signaling session; id is its identity, key authenticates its data channels. */
  datatype Session = Session(id: nat, cluster: string, key: Secret)

  /** A pipe waiting for its data channel. */
  datatype Pipe = Pipe(cluster: string, sessionKey: Secret)

  datatype Registry = Registry(sessions: map<string, Session>, pipes: map<Secret, Pipe>)

  /** The key a dial for cluster may register under, if an agent is connected. */
  function CurrentKey(r: Registry, cluster: string): Option<Secret> {
    if cluster in r.sessions then Some(r.sessions[cluster].key) else None
  }

  function WithPipe(r: Registry, id: Secret, cluster: string, key: Secret): Registry {
    r.(pipes := r.pipes[id := Pipe(cluster, key)])
  }

  function WithoutPipe(r: Registry, id: Secret): Registry {
    r.(pipes := r.pipes - {id})
  }

  /** A data channel may claim a pipe only by its id and the session key it was registered under. */
  predicate Claimable(r: Registry, id: Secret, key: Secret) {
    id in r.pipes && r.pipes[id].sessionKey == key
  }

  function Installed(r: Registry, s: Session): Registry {
    r.(sessions := r.sessions[s.cluster := s])
  }

  /** A session's exit removes the cluster's entry only while the entry is the session itself. */
  function Evicted(r: Registry, s: Session): Registry {
    if s.cluster in r.sessions && r.sessions[s.cluster] == s then r.(sessions := r.sessions - {s.cluster}) else r
  }

  /** Whenever its channel came, a dial's takePipe and dropPipe leave the registry as if it had never dialled. */
  lemma DropUndoesTake(r: Registry, id: Secret, cluster: string, key: Secret)
    requires id !in r.pipes
    ensures WithoutPipe(WithPipe(r, id, cluster, key), id) == r
    ensures WithoutPipe(WithoutPipe(WithPipe(r, id, cluster, key), id), id) == r
  {
    assert WithoutPipe(WithPipe(r, id, cluster, key), id).pipes == r.pipes;
  }

  /** The exit of a session that was replaced changes nothing, before or after its successor is installed. */
  lemma LateExitSpares(r: Registry, late: Session, s: Session)
    requires late.cluster == s.cluster && late != s
    ensures Evicted(Installed(r, s), late) == Installed(r, s)
    ensures Installed(Evicted(r, late), s) == Installed(r, s)
  {
    assert Installed(Evicted(r, late), s).sessions == Installed(r, s).sessions;
  }

  class AgentHub {
    var sessions: map<string, Session>
    var pipes: map<Secret, Pipe>
    var drawn: Secret                     // secrets below it have been drawn
    ghost var taken: map<Secret, Pipe>    // every pipe ever registered
    ghost var claimed: set<Secret>        // the pipes a data channel got

    ghost function View(): Registry
      reads this
    {
      Registry(sessions, pipes)
    }

    /** Entries are filed under their cluster; a registered pipe is as it was taken, and unclaimed. */
    ghost predicate Valid()
      reads this
    {
      && (forall c :: c in sessions ==> sessions[c].cluster == c)
      && (forall id :: id in taken ==> id < drawn)
      && (forall id :: id in pipes ==> id in taken && taken[id] == pipes[id] && id !in claimed)
      && (forall id :: id in claimed ==> id in taken)
    }

    constructor ()
      ensures Valid() && View() == Registry(map[], map[]) && taken == map[] && claimed == {}
    {
      sessions, pipes, drawn, taken, claimed := map[], map[], 0, map[], {};
    }

    /** takePipe: the session key is checked again under the lock. */
    method TakePipe(cluster: string, key: Secret) returns (r: Result<Secret>)
      requires Valid()
      modifies this`pipes, this`drawn, this`taken
      ensures Valid()
      ensures r.Ok? <==> CurrentKey(old(View()), cluster) == Some(key)
      ensures r.Ok? ==> r.value !in old(taken) && taken == old(taken)[r.value := Pipe(cluster, key)]
      ensures r.Ok? ==> View() == WithPipe(old(View()), r.value, cluster, key)
      ensures r.Err? ==> r.code == AgentTunnelUnavailable && View() == old(View()) && taken == old(taken)
    {
      if cluster !in sessions || sessions[cluster].key != key {
        return Err(AgentTunnelUnavailable);
      }
      var id := drawn;
      drawn := drawn + 1;
      pipes := pipes[id := Pipe(cluster, key)];
      taken := taken[id := Pipe(cluster, key)];
      return Ok(id);
    }

    method DropPipe(id: Secret)
      requires Valid()
      modifies this`pipes
      ensures Valid() && View() == WithoutPipe(old(View()), id)
      ensures forall key :: !Claimable(View(), id, key)
    {
      pipes := pipes - {id};
    }

    /** The locked part of ServeData: only the first channel with a pipe's own key gets it. */
    method ClaimPipe(id: Secret, key: Secret) returns (ok: bool)
      requires Valid()
      modifies this`pipes, this`claimed
      ensures Valid() && ok == Claimable(old(View()), id, key)
      ensures ok ==> id in taken && taken[id].sessionKey == key && id !in old(claimed) && claimed == old(claimed) + {id}
      ensures !ok ==> claimed == old(claimed)
      ensures View() == if ok then WithoutPipe(old(View()), id) else old(View())
    {
      ok := id in pipes;
      if ok && pipes[id].sessionKey != key {
        ok := false;
      }
      if ok {
        pipes, claimed := pipes - {id}, claimed + {id};
      }
    }

    /** First lock section of register: reports the session to close, or installs at once. */
    method BeginRegister(s: Session) returns (old': Option<Session>)
      requires Valid()
      modifies this`sessions
      ensures Valid()
      ensures old' == if s.cluster in old(sessions) then Some(old(sessions)[s.cluster]) else None
      ensures View() == if old'.Some? then old(View()) else Installed(old(View()), s)
    {
      if s.cluster in sessions {
        return Some(sessions[s.cluster]);
      }
      sessions := sessions[s.cluster := s];
      return None;
    }

    /** Second lock section of register, after the old session was closed. */
    method Install(s: Session)
      requires Valid()
      modifies this`sessions
      ensures Valid() && View() == Installed(old(View()), s)
    {
      sessions := sessions[s.cluster := s];
    }

    /** register when nothing comes between its lock sections: s takes over its cluster and no other. */
    method Register(s: Session) returns (closed: Option<Session>)
      requires Valid()
      modifies this`sessions
      ensures Valid() && View() == Installed(old(View()), s)
      ensures CurrentKey(View(), s.cluster) == Some(s.key)
      ensures forall x :: x in sessions.Values <==> x == s || (x in old(sessions).Values && closed != Some(x))
    {
      closed := BeginRegister(s);
      if closed.Some? {
        Install(s);
      }
      forall x | x in old(sessions).Values && closed != Some(x)
        ensures x in sessions.Values
      {
        assert x.cluster in sessions && sessions[x.cluster] == x;
      }
      assert s.cluster in sessions;
    }

    /** The locked part of onExit: the session is nobody's entry any more, and every other entry stays. */
    method Evict(s: Session)
      requires Valid()
      modifies this`sessions
      ensures Valid() && View() == Evicted(old(View()), s)
      ensures sessions.Values == old(sessions).Values - {s}
    {
      forall x | x in sessions.Values && x != s
        ensures x.cluster in sessions && sessions[x.cluster] == x
      {
      }
      if s.cluster in sessions && sessions[s.cluster] == s {
        sessions := sessions - {s.cluster};
      }
      forall x | x in old(sessions).Values - {s}
        ensures x in sessions.Values
      {
        assert x.cluster in sessions && sessions[x.cluster] == x;
      }
    }

    /** The locked part of Close: hands out every entry once and leaves no cluster a dial could use. */
    method TakeSessions() returns (all: set<Session>)
      requires Valid()
      modifies this`sessions
      ensures Valid() && forall x :: x in all <==> CurrentKey(old(View()), x.cluster).Some? && old(sessions)[x.cluster] == x
      ensures View() == old(View()).(sessions := map[])
      ensures forall c :: CurrentKey(View(), c) == None
    {
      all := sessions.Values;
      forall x
        ensures x in all <==> x.cluster in sessions && sessions[x.cluster] == x
      {
      }
      sessions := map[];
    }
  }
}
