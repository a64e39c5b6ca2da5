/** The watch hub: two maps that index each other, driving the informer pools. */
module WatchHubs {
  import opened Wrappers
  import opened WatchKeys
  import opened InformerPools
  import opened PoolAgreement

  /** Identity of a watch connection. */
  type Conn = nat

  type Pair = (SubKey, Conn)

  /** An informer callback: what changed, with the object named by a token. */
  datatype InformerEvent = InformerEvent(action: string, namespace: string, name: string, object: nat)

  /** One c.Send call of an event frame. */
  datatype Frame = Frame(to: Conn, key: SubKey, event: InformerEvent)

  /** What a subscribe request does to the set of subscribed pairs. */
  datatype Outcome = Outcome(error: Option<Code>, rel: set<Pair>)

  ghost predicate Subscribed(rel: set<Pair>, key: SubKey) {
    exists c: Conn :: (key, c) in rel
  }

  /**
   * The subscribe request as a function on the set of pairs. Cluster subscriptions live in a map of
   * their own. A first subscriber needs the pool: when the pool is closed the request fails and the
   * pair is gone, even if it was there before.
   */
  ghost function SubscribeOutcome(rel: set<Pair>, registered: set<string>, closed: set<string>,
                                  conn: Conn, key: SubKey): Outcome {
    if key.resource.Unknown? || key.cluster == "" then Outcome(Some(ParamInvalid), rel)
    else if key.resource.Clusters? then Outcome(None, rel)
    else if key.resource.Audit? then Outcome(None, rel + {(key, conn)})
    else if key.cluster !in registered then Outcome(Some(ClusterNotFound), rel)
    else if key.resource.PodLogs? && (key.name == "" || Subscribed(rel, key)) then Outcome(Some(ParamInvalid), rel)
    else if Ordinary(key) && key.cluster in closed && (forall c :: (key, c) in rel ==> c == conn) then
      Outcome(Some(UpstreamK8sError), rel - {(key, conn)})
    else Outcome(None, rel + {(key, conn)})
  }

  class WatchHub {
    var subs: map<SubKey, set<Conn>>
    var conns: map<Conn, set<SubKey>>
    var clusterSubs: map<Conn, string>
    var auditSubs: set<Conn>
    var following: set<SubKey>              // log followers whose context is not cancelled
    var stopped: bool
    const pools: map<string, InformerPool>  // one runtime per registered cluster
    ghost var rel: set<Pair>                // who is subscribed to what

    /**
     * conns indexes rel by connection and subs indexes it by key, audit aside, which has no entry in
     * subs; no key is kept without a subscriber.
     */
    ghost predicate Indexed()
      reads this`subs, this`conns, this`rel
    {
      && (forall k :: k in subs ==> subs[k] != {} && (if Ordinary(k) then k.cluster in pools else k.resource.PodLogs?))
      && (forall k: SubKey, c: Conn :: (k, c) in rel && !k.resource.Audit? <==> k in subs && c in subs[k])
      && (forall k: SubKey, c: Conn :: (k, c) in rel <==> c in conns && k in conns[c])
    }

    /** Logs are followed for exactly the log keys in subs. */
    ghost predicate Followed()
      reads this`subs, this`following
    {
      forall k :: k in following <==> k in subs && k.resource.PodLogs?
    }

    /** Every running pool holds exactly the handlers the keys need. */
    ghost predicate Pooled(keys: set<SubKey>)
      reads pools.Values
    {
      && (forall a, b :: a in pools && b in pools && pools[a] == pools[b] ==> a == b)
      && (forall a :: a in pools ==> pools[a].Valid())
      && (forall a :: a in pools && !pools[a].closed ==> Serves(pools[a].entries, a, keys))
    }

    ghost predicate Valid()
      reads this`subs, this`following, this`conns, this`rel, pools.Values
    {
      Indexed() && Followed() && Pooled(subs.Keys)
    }

    ghost function ClosedPools(): (closed: set<string>)
      reads pools.Values
    {
      set a | a in pools && pools[a].closed
    }

    constructor (pools: map<string, InformerPool>)
      requires forall a, b :: a in pools && b in pools && pools[a] == pools[b] ==> a == b
      requires forall a :: a in pools ==>
                 pools[a].Valid() && forall e :: e in pools[a].entries ==> pools[a].entries[e].handlers == map[]
      ensures Valid() && rel == {} && this.pools == pools
      ensures conns == map[] && clusterSubs == map[] && auditSubs == {}
    {
      this.pools := pools;
      subs, conns, clusterSubs, auditSubs, following, stopped, rel := map[], map[], map[], {}, {}, false, {};
    }

    // ---- Lock sections ----

    method AddConnSub(conn: Conn, key: SubKey)
      modifies this`conns
      ensures conns == old(conns)[conn := (if conn in old(conns) then old(conns)[conn] else {}) + {key}]
    {
      if conn !in conns {
        conns := conns[conn := {}];
      }
      conns := conns[conn := conns[conn] + {key}];
    }

    method RemoveConnSub(conn: Conn, key: SubKey)
      modifies this`conns
      ensures conns == if conn in old(conns) then old(conns)[conn := old(conns)[conn] - {key}] else old(conns)
    {
      if conn in conns {
        conns := conns[conn := conns[conn] - {key}];
      }
    }

    method AddPair(conn: Conn, key: SubKey)
      requires Indexed() && (if Ordinary(key) then key.cluster in pools else key.resource.PodLogs?)
      modifies this`subs, this`conns, this`rel
      ensures Indexed() && rel == old(rel) + {(key, conn)}
      ensures subs == old(subs)[key := (if key in old(subs) then old(subs)[key] else {}) + {conn}]
    {
      if key !in subs {
        subs := subs[key := {}];
      }
      subs := subs[key := subs[key] + {conn}];
      AddConnSub(conn, key);
      rel := rel + {(key, conn)};
    }

    /** Removes a pair from both indexes; last tells whether the key went with it. */
    method DropPair(conn: Conn, key: SubKey) returns (last: bool)
      requires Indexed()
      modifies this`subs, this`following, this`conns, this`rel
      ensures Indexed() && rel == old(rel) - {(key, conn)}
      ensures following == old(following) - (if last then {key} else {})
      ensures last <==> key in old(subs) && old(subs)[key] == {conn}
      ensures subs.Keys == old(subs).Keys - (if last then {key} else {})
    {
      RemoveConnSub(conn, key);
      rel := rel - {(key, conn)};
      if key !in subs {
        return false;
      }
      subs := subs[key := subs[key] - {conn}];
      last := subs[key] == {};
      if last {
        subs, following := subs - {key}, following - {key};
        assert old(subs)[key] == {conn} by {
          assert old(subs)[key] - {conn} == {};
        }
      }
    }

    // ---- Requests ----

    method Subscribe(conn: Conn, key: SubKey, now: int) returns (error: Option<Code>)
      requires Valid()
      modifies this, pools.Values
      ensures Valid() && ClosedPools() == old(ClosedPools())
      ensures Outcome(error, rel) == SubscribeOutcome(old(rel), pools.Keys, old(ClosedPools()), conn, key)
      ensures clusterSubs == if error == None && key.resource.Clusters? then old(clusterSubs)[conn := key.cluster]
                             else old(clusterSubs)
      ensures auditSubs == old(auditSubs) + (if error == None && key.resource.Audit? then {conn} else {})
    {
      if key.resource.Unknown? || key.cluster == "" {
        return Some(ParamInvalid);
      }
      if key.resource.Clusters? {
        clusterSubs := clusterSubs[conn := key.cluster];
        return None;
      }
      if key.resource.Audit? {
        SubscribeAudit(conn, key);
        return None;
      }
      if key.cluster !in pools {
        return Some(ClusterNotFound);
      }
      if key.resource.PodLogs? {
        if key.name == "" {
          return Some(ParamInvalid);
        }
        error := SubscribePodLogs(conn, key);
        return;
      }
      error := SubscribeOrdinary(conn, key, now);
    }

    method SubscribeAudit(conn: Conn, key: SubKey)
      requires Valid() && key.resource.Audit?
      modifies this`conns, this`rel, this`auditSubs
      ensures Valid() && rel == old(rel) + {(key, conn)}
      ensures auditSubs == old(auditSubs) + {conn}
    {
      auditSubs := auditSubs + {conn};
      AddConnSub(conn, key);
      rel := rel + {(key, conn)};
    }

    /** A log stream has one subscriber: a second subscription to the same key is refused. */
    method SubscribePodLogs(conn: Conn, key: SubKey) returns (error: Option<Code>)
      requires Valid() && key.resource.PodLogs?
      modifies this`subs, this`following, this`conns, this`rel
      ensures Valid()
      ensures error == if Subscribed(old(rel), key) then Some(ParamInvalid) else None
      ensures rel == if error == None then old(rel) + {(key, conn)} else old(rel)
    {
      PairsOf(key);
      if key in subs {
        return Some(ParamInvalid);
      }
      AddPair(conn, key);
      following := following + {key};
      KeysWithoutInformers(key);
      return None;
    }

    lemma PairsOf(key: SubKey)
      requires Indexed() && !key.resource.Audit?
      ensures key in subs <==> Subscribed(rel, key)
    {
      if key in subs {
        var c :| c in subs[key];
        assert (key, c) in rel;
      }
    }

    twostate lemma KeysWithoutInformers(key: SubKey)
      requires old(Pooled(subs.Keys)) && subs.Keys == old(subs.Keys) + {key} && !Ordinary(key)
      requires forall a :: a in pools ==> unchanged(pools[a])
      ensures Pooled(subs.Keys)
    {
      forall a | a in pools && !pools[a].closed
        ensures Serves(pools[a].entries, a, subs.Keys)
      {
        ServesSameOrdinary(pools[a].entries, a, old(subs.Keys), subs.Keys);
      }
    }

    method SubscribeOrdinary(conn: Conn, key: SubKey, now: int) returns (error: Option<Code>)
      requires Valid() && Ordinary(key) && key.cluster in pools && key.cluster != ""
      modifies this`subs, this`following, this`conns, this`rel, pools.Values
      ensures Valid() && ClosedPools() == old(ClosedPools())
      ensures Outcome(error, rel) == SubscribeOutcome(old(rel), pools.Keys, old(ClosedPools()), conn, key)
    {
      AddPair(conn, key);
      FirstSubscriber(old(rel), conn, key);
      error := WatchIfFirst(conn, key, now, old(subs.Keys));
    }

    /** Starts the watch when the pair just added is the key's only one. */
    method WatchIfFirst(conn: Conn, key: SubKey, now: int, ghost keys: set<SubKey>) returns (error: Option<Code>)
      requires Indexed() && Followed() && Ordinary(key) && key.cluster in pools
      requires Pooled(keys) && key in subs && subs.Keys == keys + {key} && (subs[key] != {conn} ==> key in keys)
      modifies this`subs, this`following, this`conns, this`rel, pools.Values
      ensures Valid() && ClosedPools() == old(ClosedPools())
      ensures error == if old(subs)[key] == {conn} && key.cluster in old(ClosedPools()) then Some(UpstreamK8sError) else None
      ensures rel == if error == None then old(rel) else old(rel) - {(key, conn)}
    {
      if subs[key] == {conn} {
        error := StartWatch(conn, key, now, keys);
      } else {
        assert subs.Keys == keys;
        error := None;
      }
    }

    lemma FirstSubscriber(was: set<Pair>, conn: Conn, key: SubKey)
      requires Indexed() && Ordinary(key) && key in subs && rel == was + {(key, conn)}
      ensures subs[key] == {conn} <==> forall c :: (key, c) in was ==> c == conn
      ensures was + {(key, conn)} - {(key, conn)} == was - {(key, conn)}
    {
      assert (key, conn) in rel;
      forall c | (key, c) in was
        ensures c in subs[key]
      {
        assert (key, c) in rel;
      }
      forall c | c in subs[key] && c != conn
        ensures (key, c) in was
      {
        assert (key, c) in rel;
      }
    }

    /** Starts the watch for a key's only subscriber and rolls the subscription back when that fails. */
    method StartWatch(conn: Conn, key: SubKey, now: int, ghost keys: set<SubKey>) returns (error: Option<Code>)
      requires Indexed() && Followed() && Ordinary(key) && key.cluster in pools
      requires Pooled(keys) && subs.Keys == keys + {key} && subs[key] == {conn}
      modifies this`subs, this`following, this`conns, this`rel, pools.Values
      ensures Valid() && ClosedPools() == old(ClosedPools())
      ensures error == if key.cluster in old(ClosedPools()) then Some(UpstreamK8sError) else None
      ensures rel == if error == None then old(rel) else old(rel) - {(key, conn)}
    {
      var ok := WatchKey(key, now, keys);
      if ok {
        return None;
      }
      ClosedPoolNeedsNothing(key, keys + {key});
      var last := DropPair(conn, key);
      return Some(UpstreamK8sError);
    }

    lemma ClosedPoolNeedsNothing(key: SubKey, keys: set<SubKey>)
      requires Ordinary(key) && key.cluster in pools && pools[key.cluster].closed && Pooled(keys)
      ensures Pooled(keys - {key})
    {
      forall a | a in pools && !pools[a].closed
        ensures Serves(pools[a].entries, a, keys - {key})
      {
        ServesSameOrdinary(pools[a].entries, a, keys, keys - {key});
      }
    }

    /** Registers the key's handler with its cluster's pool. */
    method WatchKey(key: SubKey, now: int, ghost keys: set<SubKey>) returns (ok: bool)
      requires Ordinary(key) && key.cluster in pools && Pooled(keys)
      modifies pools.Values
      ensures Pooled(keys + {key}) && ClosedPools() == old(ClosedPools())
      ensures ok <==> !pools[key.cluster].closed
    {
      var pool := pools[key.cluster];
      ghost var before := pool.entries;
      ok := pool.Watch(GvrOf(key.resource), key.namespace, WatchId(key), key, now);
      forall a | a in pools && !pools[a].closed
        ensures Serves(pools[a].entries, a, keys + {key})
      {
        if a == key.cluster {
          WatchServes(before, a, keys, key, now, old(pool.nextInformer));
        } else {
          ServesSameOrdinary(pools[a].entries, a, keys, keys + {key});
        }
      }
    }

    /** Unwatches a key after its last subscriber left; keys without an informer are skipped. */
    method UnwatchKey(key: SubKey, now: int, ghost keys: set<SubKey>)
      requires Pooled(keys) && key in keys && (Ordinary(key) ==> key.cluster in pools)
      modifies pools.Values
      ensures Pooled(keys - {key}) && ClosedPools() == old(ClosedPools())
    {
      if Ordinary(key) {
        var pool := pools[key.cluster];
        ghost var before := pool.entries;
        pool.Unwatch(GvrOf(key.resource), key.namespace, WatchId(key), now);
        forall a | a in pools && !pools[a].closed
          ensures Serves(pools[a].entries, a, keys - {key})
        {
          if a == key.cluster {
            UnwatchServes(before, a, keys, key, now);
          } else {
            ServesSameOrdinary(pools[a].entries, a, keys, keys - {key});
          }
        }
      } else {
        forall a | a in pools && !pools[a].closed
          ensures Serves(pools[a].entries, a, keys - {key})
        {
          ServesSameOrdinary(pools[a].entries, a, keys, keys - {key});
        }
      }
    }

    method Unsubscribe(conn: Conn, key: SubKey, now: int)
      requires Valid()
      modifies this`subs, this`following, this`conns, this`rel, this`clusterSubs, this`auditSubs, pools.Values
      ensures Valid() && ClosedPools() == old(ClosedPools())
      ensures rel == old(rel) - {(key, conn)}
      ensures clusterSubs == if key.resource.Clusters? then old(clusterSubs) - {conn} else old(clusterSubs)
      ensures auditSubs == if key.resource.Audit? then old(auditSubs) - {conn} else old(auditSubs)
    {
      if key.resource.Clusters? {
        clusterSubs := clusterSubs - {conn};
      }
      if key.resource.Audit? {
        auditSubs := auditSubs - {conn};
      }
      Release(conn, key, now);
    }

    /** Drops one subscription and the handler only it needed. */
    method Release(conn: Conn, key: SubKey, now: int)
      requires Valid()
      modifies this`subs, this`following, this`conns, this`rel, pools.Values
      ensures Valid() && ClosedPools() == old(ClosedPools())
      ensures rel == old(rel) - {(key, conn)}
    {
      ghost var keys := subs.Keys;
      var last := DropPair(conn, key);
      if last {
        UnwatchKey(key, now, keys);
        assert subs.Keys == keys - {key};
      }
    }

    /** Forgets a lost connection and releases the handlers only it needed. */
    method RemoveConn(conn: Conn, now: int)
      requires Valid()
      modifies this`subs, this`following, this`conns, this`rel, this`clusterSubs, this`auditSubs, pools.Values
      ensures Valid() && ClosedPools() == old(ClosedPools())
      ensures rel == set p | p in old(rel) && p.1 != conn
      ensures conn !in conns && conn !in clusterSubs && conn !in auditSubs
      ensures forall k :: k in subs ==> conn !in subs[k]
      ensures forall c :: c != conn ==>
                (c in conns <==> c in old(conns)) && (c in conns ==> conns[c] == old(conns)[c])
      ensures clusterSubs == old(clusterSubs) - {conn} && auditSubs == old(auditSubs) - {conn}
    {
      ghost var keys := subs.Keys;
      var needUnwatch := ForgetConn(conn);
      ReleaseKeys(needUnwatch, keys, now);
      assert keys - needUnwatch == subs.Keys;
    }

    /** The locked half of RemoveConn: returns the keys whose last subscriber was conn. */
    method ForgetConn(conn: Conn) returns (needUnwatch: set<SubKey>)
      requires Indexed() && Followed()
      modifies this`subs, this`following, this`conns, this`rel, this`clusterSubs, this`auditSubs
      ensures Indexed() && Followed()
      ensures rel == set p | p in old(rel) && p.1 != conn
      ensures needUnwatch <= old(subs).Keys && subs.Keys == old(subs).Keys - needUnwatch
      ensures conns == old(conns) - {conn}
      ensures clusterSubs == old(clusterSubs) - {conn} && auditSubs == old(auditSubs) - {conn}
    {
      var keys := if conn in conns then conns[conn] else {};
      conns, clusterSubs, auditSubs := conns - {conn}, clusterSubs - {conn}, auditSubs - {conn};
      needUnwatch := DropFromSubs(conn, keys);
      rel := set p | p in rel && p.1 != conn;
    }

    /** Takes conn off the given keys; returns the keys it was the last subscriber of. */
    method DropFromSubs(conn: Conn, keys: set<SubKey>) returns (needUnwatch: set<SubKey>)
      requires forall k :: k in subs ==> subs[k] != {} && (conn in subs[k] ==> k in keys)
      requires Followed()
      modifies this`subs, this`following
      ensures needUnwatch <= old(subs).Keys && subs.Keys == old(subs).Keys - needUnwatch
      ensures forall k :: k in needUnwatch ==> old(subs)[k] == {conn}
      ensures forall k :: k in subs ==> subs[k] != {} && subs[k] == old(subs)[k] - {conn}
      ensures Followed()
    {
      needUnwatch := {};
      var todo := keys;
      while todo != {}
        invariant todo <= keys && needUnwatch <= keys - todo
        invariant needUnwatch <= old(subs).Keys && subs.Keys == old(subs).Keys - needUnwatch
        invariant forall k :: k in needUnwatch ==> old(subs)[k] == {conn}
        invariant Followed()
        invariant forall k :: k in subs ==>
                    subs[k] != {} && subs[k] == old(subs)[k] - (if k in keys - todo then {conn} else {})
        decreases todo
      {
        var key :| key in todo;
        todo := todo - {key};
        if key in subs {
          subs := subs[key := subs[key] - {conn}];
          if subs[key] == {} {
            subs, following := subs - {key}, following - {key};
            needUnwatch := needUnwatch + {key};
          }
        }
      }
    }

    method ReleaseKeys(needUnwatch: set<SubKey>, ghost keys: set<SubKey>, now: int)
      requires Pooled(keys) && needUnwatch <= keys
      requires forall k :: k in needUnwatch && Ordinary(k) ==> k.cluster in pools
      modifies pools.Values
      ensures Pooled(keys - needUnwatch) && ClosedPools() == old(ClosedPools())
    {
      var todo := needUnwatch;
      while todo != {}
        invariant todo <= needUnwatch && ClosedPools() == old(ClosedPools())
        invariant Pooled(keys - (needUnwatch - todo))
        decreases todo
      {
        var key :| key in todo;
        UnwatchKey(key, now, keys - (needUnwatch - todo));
        todo := todo - {key};
        assert keys - (needUnwatch - todo) == keys - (needUnwatch - (todo + {key})) - {key};
      }
      assert needUnwatch - {} == needUnwatch;
    }

    // ---- Steps of the environment ----

    /** One reaper pass over a cluster's pool. */
    method ReaperTick(cluster: string, now: int)
      requires Valid() && cluster in pools
      modifies pools.Values
      ensures Valid() && rel == old(rel) && ClosedPools() == old(ClosedPools())
      ensures pools[cluster].entries == Reaped(old(pools[cluster].entries), now)
    {
      var pool := pools[cluster];
      ghost var before := pool.entries;
      pool.Tick(now);
      forall a | a in pools && !pools[a].closed
        ensures Serves(pools[a].entries, a, subs.Keys)
      {
        if a == cluster {
          ReapServes(before, a, subs.Keys, now);
        }
      }
    }

    /** A runtime that becomes ready keeps its event informer. */
    method EnsureEvents(cluster: string, now: int)
      requires Valid() && cluster in pools
      modifies pools.Values
      ensures Valid() && rel == old(rel) && ClosedPools() == old(ClosedPools())
    {
      var pool := pools[cluster];
      ghost var before := pool.entries;
      var ok := pool.EnsureEventInformer(now);
      forall a | a in pools && !pools[a].closed
        ensures Serves(pools[a].entries, a, subs.Keys)
      {
        if a == cluster {
          var key := EntryKey(GvrOf(Events), "");
          ResidentServes(before, a, subs.Keys, key, pool.entries[key]);
        }
      }
    }

    /** A runtime is stopped while the hub goes on. */
    method StopPool(cluster: string)
      requires Valid() && cluster in pools
      modifies pools.Values
      ensures Valid() && rel == old(rel) && ClosedPools() == old(ClosedPools()) + {cluster}
    {
      pools[cluster].Stop();
      assert forall a :: a in pools && a != cluster ==> pools[a].closed == old(pools[a].closed);
    }

    // ---- Fan-out ----

    /** Delivers one event to every subscriber of a key. */
    method Deliver(key: SubKey, event: InformerEvent) returns (sent: multiset<Frame>)
      requires Indexed() && !key.resource.Audit?
      ensures forall f :: sent[f] == if f.key == key && f.event == event && (key, f.to) in rel then 1 else 0
    {
      sent := multiset{};
      if key !in subs {
        return;
      }
      var todo := subs[key];
      while todo != {}
        invariant todo <= subs[key]
        invariant forall f :: sent[f] == if f.key == key && f.event == event && f.to in subs[key] - todo then 1 else 0
        decreases todo
      {
        var c :| c in todo;
        todo := todo - {c};
        sent := sent + multiset{Frame(c, key, event)};
      }
    }

    /**
     * An informer event of a pool entry: one frame for each pair subscribed through the entry,
     * none for anyone else.
     */
    method Dispatch(cluster: string, entry: string, event: InformerEvent) returns (sent: multiset<Frame>)
      requires Valid() && cluster in pools
      ensures forall f :: sent[f] ==
                if f.event == event && (f.key, f.to) in rel && cluster !in ClosedPools() &&
                   Served(f.key, cluster, subs.Keys) && EntryOf(f.key) == entry
                then 1 else 0
    {
      sent := multiset{};
      var es := pools[cluster].entries;
      if !pools[cluster].closed {
        HandlersOf(es, cluster, entry);
      }
      if entry in es {
        sent := Broadcast(es[entry].handlers, event);
      }
    }

    /** Runs every handler of a snapshot. */
    method Broadcast(handlers: map<string, SubKey>, event: InformerEvent) returns (sent: multiset<Frame>)
      requires Indexed() && forall id :: id in handlers ==> Ordinary(handlers[id]) && WatchId(handlers[id]) == id
      ensures forall f :: sent[f] ==
                if f.event == event && (f.key, f.to) in rel && f.key in handlers.Values then 1 else 0
    {
      sent := multiset{};
      var todo := handlers.Keys;
      while todo != {}
        invariant todo <= handlers.Keys
        invariant forall f :: sent[f] ==
                    if f.event == event && (f.key, f.to) in rel &&
                       f.key in handlers.Values && WatchId(f.key) in handlers.Keys - todo
                    then 1 else 0
        decreases todo
      {
        var id :| id in todo;
        todo := todo - {id};
        var more := Deliver(handlers[id], event);
        sent := sent + more;
      }
    }

    lemma HandlersOf(es: Entries, cluster: string, entry: string)
      requires Serves(es, cluster, subs.Keys)
      ensures forall k :: Served(k, cluster, subs.Keys) && EntryOf(k) == entry <==>
                entry in es && k in es[entry].handlers.Values
    {
      forall k
        ensures Served(k, cluster, subs.Keys) && EntryOf(k) == entry <==>
                entry in es && k in es[entry].handlers.Values
      {
        if Served(k, cluster, subs.Keys) && EntryOf(k) == entry {
          assert Holds(es, k);
        }
      }
    }

    // ---- Shutdown ----

    /**
     * Stop cancels every log follower and empties subs but neither conns nor the pools, so the two
     * indexes still agree exactly when nothing but audit streams was subscribed.
     */
    method Stop()
      requires Valid()
      modifies this`subs, this`following, this`stopped
      ensures stopped && subs == map[] && following == {}
      ensures Indexed() <==> forall p :: p in rel ==> p.0.resource.Audit?
    {
      stopped := true;
      var keys := subs.Keys;
      subs := map[];
      while keys != {}
        invariant stopped && subs == map[] && following <= keys
        decreases keys
      {
        var key :| key in keys;
        keys, following := keys - {key}, following - {key};
      }
    }
  }
}
