/** When the handlers of an informer pool are exactly the keys a set of subscriptions needs. */
module PoolAgreement {
  import opened WatchKeys
  import opened InformerPools

  /** The pool entry of an ordinary key holds the handler watchID(key), and it delivers to that key. */
  ghost predicate Holds(es: Entries, key: SubKey)
    requires Ordinary(key)
  {
    EntryOf(key) in es && WatchId(key) in es[EntryOf(key)].handlers && es[EntryOf(key)].handlers[WatchId(key)] == key
  }

  ghost predicate Served(key: SubKey, cluster: string, keys: set<SubKey>) {
    key in keys && key.cluster == cluster && Ordinary(key)
  }

  /** Every ordinary key of the cluster has its handler, and no handler is left over or misplaced. */
  ghost predicate Serves(es: Entries, cluster: string, keys: set<SubKey>) {
    && (forall k :: Served(k, cluster, keys) ==> Holds(es, k))
    && (forall e, id :: e in es && id in es[e].handlers ==>
          var k := es[e].handlers[id];
          Served(k, cluster, keys) && EntryOf(k) == e && WatchId(k) == id)
  }

  lemma WatchServes(es: Entries, cluster: string, keys: set<SubKey>, key: SubKey, now: int, newId: nat)
    requires Serves(es, cluster, keys) && Served(key, cluster, keys + {key})
    ensures Serves(Watched(es, GvrOf(key.resource), key.namespace, WatchId(key), key, now, newId), cluster, keys + {key})
  {
    var after := Watched(es, GvrOf(key.resource), key.namespace, WatchId(key), key, now, newId);
    forall k | Served(k, cluster, keys + {key}) && k != key
      ensures Holds(after, k)
    {
      assert Served(k, cluster, keys);
      if EntryOf(k) == EntryOf(key) && WatchId(k) == WatchId(key) {
        WatchIdIdentifiesWithinEntry(k, key);
      }
    }
    forall e, id | e in after && id in after[e].handlers
      ensures var k := after[e].handlers[id];
              Served(k, cluster, keys + {key}) && EntryOf(k) == e && WatchId(k) == id
    {
      if !(e == EntryOf(key) && id == WatchId(key)) {
        assert e in es && id in es[e].handlers && es[e].handlers[id] == after[e].handlers[id];
        assert Served(es[e].handlers[id], cluster, keys);
      }
    }
  }

  lemma UnwatchServes(es: Entries, cluster: string, keys: set<SubKey>, key: SubKey, now: int)
    requires Serves(es, cluster, keys) && Served(key, cluster, keys)
    ensures Serves(Unwatched(es, GvrOf(key.resource), key.namespace, WatchId(key), now), cluster, keys - {key})
  {
    var after := Unwatched(es, GvrOf(key.resource), key.namespace, WatchId(key), now);
    forall k | Served(k, cluster, keys - {key})
      ensures Holds(after, k)
    {
      assert Served(k, cluster, keys);
      if EntryOf(k) == EntryOf(key) && WatchId(k) == WatchId(key) {
        WatchIdIdentifiesWithinEntry(k, key);
      }
    }
    forall e, id | e in after && id in after[e].handlers
      ensures var k := after[e].handlers[id];
              Served(k, cluster, keys - {key}) && EntryOf(k) == e && WatchId(k) == id
    {
      assert e in es && id in es[e].handlers && es[e].handlers[id] == after[e].handlers[id];
      assert Served(es[e].handlers[id], cluster, keys);
    }
  }

  /** An unwatch leaves agreement intact exactly when its key is not subscribed any more. */
  lemma UnwatchServesIff(es: Entries, cluster: string, keys: set<SubKey>, key: SubKey, now: int)
    requires Serves(es, cluster, keys) && Ordinary(key) && key.cluster == cluster
    ensures Serves(Unwatched(es, GvrOf(key.resource), key.namespace, WatchId(key), now), cluster, keys) <==> key !in keys
  {
    var after := Unwatched(es, GvrOf(key.resource), key.namespace, WatchId(key), now);
    if key in keys {
      assert Served(key, cluster, keys) && Holds(es, key) && !Holds(after, key);
    } else {
      NoHandlerOf(es, cluster, keys, key);
      assert forall e :: e in es ==> e in after && after[e].handlers == es[e].handlers;
      forall k | Served(k, cluster, keys)
        ensures Holds(after, k)
      {
        assert Holds(es, k);
      }
    }
  }

  /** No handler in a key's entry answers to its id unless the key is subscribed. */
  lemma NoHandlerOf(es: Entries, cluster: string, keys: set<SubKey>, key: SubKey)
    requires Serves(es, cluster, keys) && Ordinary(key) && key.cluster == cluster && key !in keys
    ensures EntryOf(key) in es ==> WatchId(key) !in es[EntryOf(key)].handlers
  {
    if EntryOf(key) in es && WatchId(key) in es[EntryOf(key)].handlers {
      WatchIdIdentifiesWithinEntry(es[EntryOf(key)].handlers[WatchId(key)], key);
    }
  }

  /** The reaper takes no handler away. */
  lemma ReapServes(es: Entries, cluster: string, keys: set<SubKey>, now: int)
    requires Serves(es, cluster, keys)
    ensures Serves(Reaped(es, now), cluster, keys)
  {
    forall k | Served(k, cluster, keys)
      ensures Holds(Reaped(es, now), k)
    {
      assert Holds(es, k);
    }
  }

  /** Making the event informer resident, or starting it, touches no handler. */
  lemma ResidentServes(es: Entries, cluster: string, keys: set<SubKey>, entry: string, e: Entry)
    requires Serves(es, cluster, keys)
    requires if entry in es then e.handlers == es[entry].handlers else e.handlers == map[]
    ensures Serves(es[entry := e], cluster, keys)
  {
    forall k | Served(k, cluster, keys)
      ensures Holds(es[entry := e], k)
    {
      assert Holds(es, k);
    }
  }

  /** Keys the pool never serves may come and go. */
  lemma ServesSameOrdinary(es: Entries, cluster: string, keys: set<SubKey>, keys': set<SubKey>)
    requires Serves(es, cluster, keys)
    requires forall k :: Served(k, cluster, keys) <==> Served(k, cluster, keys')
    ensures Serves(es, cluster, keys')
  {
  }

  // ---- Reference counting ----

  lemma {:induction false} InjectiveMapSize<K, V>(m: map<K, V>, image: set<V>)
    requires forall k, l :: k in m && l in m && m[k] == m[l] ==> k == l
    requires forall v :: v in image <==> exists k :: k in m && m[k] == v
    ensures |m| == |image|
    decreases m.Keys
  {
    if m == map[] {
      assert image == {};
    } else {
      var k :| k in m;
      var rest := m - {k};
      assert rest.Keys == m.Keys - {k};
      forall v
        ensures v in image - {m[k]} <==> exists l :: l in rest && rest[l] == v
      {
        if v in image - {m[k]} {
          var l :| l in m && m[l] == v;
          assert l in rest && rest[l] == v;
        }
      }
      InjectiveMapSize(rest, image - {m[k]});
      assert m[k] in image;
    }
  }

  /** An entry's reference count is the number of keys mapped to it. */
  lemma HandlerCount(es: Entries, cluster: string, keys: set<SubKey>, entry: string)
    requires Serves(es, cluster, keys) && entry in es
    ensures |es[entry].handlers| == |set k | k in keys && Served(k, cluster, keys) && EntryOf(k) == entry|
  {
    var handlers := es[entry].handlers;
    var users := set k | k in keys && Served(k, cluster, keys) && EntryOf(k) == entry;
    forall k
      ensures k in users <==> exists id :: id in handlers && handlers[id] == k
    {
      if k in users {
        assert Holds(es, k);
        assert WatchId(k) in handlers && handlers[WatchId(k)] == k;
      }
    }
    InjectiveMapSize(handlers, users);
  }

  // ---- What the agreement excludes ----

  /**
   * Replacing a cluster's runtime installs an empty pool and watches nothing again, so agreement
   * survives exactly when no ordinary key of that cluster is subscribed.
   */
  lemma FreshPoolServes(cluster: string, keys: set<SubKey>)
    ensures Serves(map[], cluster, keys) <==> forall k :: !Served(k, cluster, keys)
  {
    if k :| Served(k, cluster, keys) {
      assert !Holds(map[], k);
    }
  }

  /**
   * The hub releases its lock before it unwatches. When another connection subscribes to the key in
   * that window, the late Unwatch removes the handler the new subscriber just registered: no pool
   * can serve a key set holding a key that was watched and then unwatched late.
   */
  lemma LateUnwatchLosesHandler(es: Entries, cluster: string, keys: set<SubKey>, key: SubKey, t1: int, t2: int, newId: nat)
    requires Serves(es, cluster, keys) && Served(key, cluster, keys)
    ensures var gvr, id := GvrOf(key.resource), WatchId(key);
            // resubscribed: the key is in keys again and Watch ran; then the delayed Unwatch runs
            !Serves(Unwatched(Watched(es, gvr, key.namespace, id, key, t1, newId), gvr, key.namespace, id, t2), cluster, keys)
    ensures var gvr, id := GvrOf(key.resource), WatchId(key);
            // in lock order the same two calls agree with the subscription
            Serves(Watched(Unwatched(es, gvr, key.namespace, id, t1), gvr, key.namespace, id, key, t2, newId), cluster, keys)
  {
    var gvr, id := GvrOf(key.resource), WatchId(key);
    var late := Unwatched(Watched(es, gvr, key.namespace, id, key, t1, newId), gvr, key.namespace, id, t2);
    assert !Holds(late, key);
    UnwatchServes(es, cluster, keys, key, t1);
    WatchServes(Unwatched(es, gvr, key.namespace, id, t1), cluster, keys - {key}, key, t2, newId);
    assert keys - {key} + {key} == keys;
  }
}
