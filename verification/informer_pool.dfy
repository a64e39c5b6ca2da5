/** The reference-counted pool of lazily started informers of one cluster. */
module InformerPools {
  import opened WatchKeys

  /** informerIdleTTL in seconds. */
  const IDLE_TTL := 300

  /**
   * An informer of the pool. A handler is the closure that delivers to one hub key, so the
   * key stands for it; informer identifies the entry's stop channel.
   */
  datatype Entry = Entry(
    gvr: Gvr, namespace: string, informer: nat,
    handlers: map<string, SubKey>, resident: bool, lastAccess: int)

  type Entries = map<string, Entry>

  predicate Idle(e: Entry) {
    !e.resident && e.handlers == map[]
  }

  predicate Expired(e: Entry, now: int) {
    Idle(e) && now - e.lastAccess >= IDLE_TTL
  }

  /** The entries after id is registered, starting an informer if none serves the pair yet. */
  function Watched(es: Entries, gvr: Gvr, namespace: string, id: string, handler: SubKey, now: int, newId: nat): Entries {
    var key, started := EntryKey(gvr, namespace), Started(es, gvr, namespace, now, newId);
    started[key := started[key].(handlers := started[key].handlers[id := handler], lastAccess := now)]
  }

  /** The entries with an informer for the pair. */
  function Started(es: Entries, gvr: Gvr, namespace: string, now: int, newId: nat): (r: Entries)
    ensures EntryKey(gvr, namespace) in r
  {
    var key := EntryKey(gvr, namespace);
    if key in es then es else es[key := Entry(gvr, namespace, newId, map[], false, now)]
  }

  /** The entries after id is removed; an entry left without handlers starts its idle period. */
  function Unwatched(es: Entries, gvr: Gvr, namespace: string, id: string, now: int): Entries {
    var key := EntryKey(gvr, namespace);
    if key !in es then es
    else
      var rest := es[key].handlers - {id};
      es[key := es[key].(handlers := rest,
                         lastAccess := if !es[key].resident && rest == map[] then now else es[key].lastAccess)]
  }

  /** The entries a reaper pass leaves behind. */
  function Reaped(es: Entries, now: int): Entries {
    map key | key in es && !Expired(es[key], now) :: es[key]
  }

  class InformerPool {
    var entries: Entries
    var closed: bool
    var nextInformer: nat
    var open: set<nat>                  // stop channels not closed yet
    ghost var owner: map<nat, string>   // the entry each open stop channel belongs to
    ghost var lastOp: map<string, int>  // time of the last watch or unwatch that reached an entry

    /**
     * Stop channels are open exactly for the entries of the pool, one each; the idle clock of an
     * idle entry is the time of the last watch or unwatch that reached it.
     */
    ghost predicate Valid()
      reads this
    {
      && owner.Keys == open
      && (forall k :: k in entries ==> entries[k].informer in open && owner[entries[k].informer] == k)
      && (forall i :: i in open ==> i < nextInformer && owner[i] in entries && entries[owner[i]].informer == i)
      && (forall k :: k in entries && Idle(entries[k]) ==> k in lastOp && lastOp[k] == entries[k].lastAccess)
      && (closed ==> entries == map[])
    }

    constructor ()
      ensures Valid() && !closed && entries == map[]
    {
      entries, closed, nextInformer := map[], false, 0;
      open, owner, lastOp := {}, map[], map[];
    }

    method StartInformer(key: string, e: Entry)
      requires Valid() && !closed
      requires key !in entries && e.informer == nextInformer
      requires Idle(e) ==> key in lastOp && lastOp[key] == e.lastAccess
      modifies this
      ensures Valid() && !closed && lastOp == old(lastOp)
      ensures entries == old(entries)[key := e] && open == old(open) + {old(nextInformer)}
    {
      open, owner := open + {nextInformer}, owner[nextInformer := key];
      nextInformer := nextInformer + 1;
      entries := entries[key := e];
    }

    method AddHandler(key: string, id: string, handler: SubKey, now: int)
      requires Valid() && key in entries
      modifies this`entries, this`lastOp
      ensures Valid() && lastOp == old(lastOp)[key := now]
      ensures entries == old(entries)[key := old(entries)[key].(
                handlers := old(entries)[key].handlers[id := handler], lastAccess := now)]
    {
      var e := entries[key];
      entries := entries[key := e.(handlers := e.handlers[id := handler], lastAccess := now)];
      lastOp := lastOp[key := now];
      assert id in entries[key].handlers;
    }

    /** The entry of a key, started on first use. */
    method EnsureEntry(key: string, gvr: Gvr, namespace: string, now: int)
      requires Valid() && !closed && key == EntryKey(gvr, namespace)
      modifies this
      ensures Valid() && !closed
      ensures entries == Started(old(entries), gvr, namespace, now, old(nextInformer))
      ensures lastOp[key := now] == old(lastOp)[key := now]
    {
      if key !in entries {
        lastOp := lastOp[key := now];
        StartInformer(key, Entry(gvr, namespace, nextInformer, map[], false, now));
      }
    }

    method Watch(gvr: Gvr, namespace: string, id: string, handler: SubKey, now: int) returns (ok: bool)
      requires Valid()
      modifies this
      ensures Valid() && closed == old(closed) && ok == !closed
      ensures entries == if ok then Watched(old(entries), gvr, namespace, id, handler, now, old(nextInformer))
                         else old(entries)
      ensures ok ==> lastOp == old(lastOp)[EntryKey(gvr, namespace) := now]
    {
      if closed {
        return false;
      }
      var key := EntryKey(gvr, namespace);
      EnsureEntry(key, gvr, namespace, now);
      AddHandler(key, id, handler, now);
      return true;
    }

    method Unwatch(gvr: Gvr, namespace: string, id: string, now: int)
      requires Valid()
      modifies this
      ensures Valid() && closed == old(closed) && open == old(open)
      ensures entries == Unwatched(old(entries), gvr, namespace, id, now)
      ensures lastOp == if EntryKey(gvr, namespace) in old(entries) then old(lastOp)[EntryKey(gvr, namespace) := now]
                        else old(lastOp)
    {
      var key := EntryKey(gvr, namespace);
      if key !in entries {
        return;
      }
      var e := entries[key];
      e := e.(handlers := e.handlers - {id});
      if !e.resident && e.handlers == map[] {
        e := e.(lastAccess := now);
      }
      entries := entries[key := e];
      lastOp := lastOp[key := now];
    }

    /** Starts the resident event informer, or makes a lazily started one resident. */
    method EnsureEventInformer(now: int) returns (ok: bool)
      requires Valid()
      modifies this
      ensures Valid() && closed == old(closed) && ok == !closed && lastOp == old(lastOp)
      ensures !ok ==> entries == old(entries)
      ensures ok ==> var key := EntryKey(GvrOf(Events), "");
                     entries == old(entries)[key :=
                       if key in old(entries) then old(entries)[key].(resident := true)
                       else Entry(GvrOf(Events), "", old(nextInformer), map[], true, now)]
    {
      if closed {
        return false;
      }
      var key := EntryKey(GvrOf(Events), "");
      if key in entries {
        entries := entries[key := entries[key].(resident := true)];
        return true;
      }
      StartInformer(key, Entry(GvrOf(Events), "", nextInformer, map[], true, now));
      return true;
    }

    /** One reaper pass: stops and removes exactly the entries idle for at least the TTL. */
    method Tick(now: int)
      requires Valid()
      modifies this
      ensures Valid() && closed == old(closed) && nextInformer == old(nextInformer)
      ensures entries == Reaped(old(entries), now)
      ensures forall k :: k in old(entries) ==>
                (k !in entries <==> old(entries)[k].informer !in open)
      ensures forall k :: k in old(entries) ==>
                (k !in entries <==>
                 !old(entries)[k].resident && old(entries)[k].handlers == map[] &&
                 k in old(lastOp) && now - old(lastOp)[k] >= 300)
    {
      if closed {
        return;
      }
      var todo := entries.Keys;
      while todo != {}
        invariant Valid() && !closed && lastOp == old(lastOp) && nextInformer == old(nextInformer)
        invariant todo <= old(entries).Keys
        invariant forall k :: k in entries <==> k in old(entries) && (k in todo || !Expired(old(entries)[k], now))
        invariant forall k :: k in entries ==> entries[k] == old(entries)[k]
        invariant forall k :: k in old(entries) && k !in entries ==> old(entries)[k].informer !in open
        decreases todo
      {
        var key :| key in todo;
        todo := todo - {key};
        if Expired(entries[key], now) {
          StopInformer(key);
        }
      }
    }

    /** Closes an entry's stop channel, which must still be open, and drops the entry. */
    method StopInformer(key: string)
      requires Valid() && key in entries
      modifies this`entries, this`open, this`owner
      ensures Valid()
      ensures entries == old(entries) - {key} && open == old(open) - {old(entries)[key].informer}
    {
      open, owner := open - {entries[key].informer}, owner - {entries[key].informer};
      entries := entries - {key};
    }

    /** Stops every informer; the pool stays empty because it refuses later watches. */
    method Stop()
      requires Valid()
      modifies this
      ensures Valid() && closed && entries == map[] && open == {}
    {
      if closed {
        NoneOpen();
        return;
      }
      var todo := entries.Keys;
      while todo != {}
        invariant Valid() && !closed && entries.Keys == todo
        decreases todo
      {
        var key :| key in todo;
        StopInformer(key);
        todo := todo - {key};
      }
      entries := map[];
      closed := true;
      NoneOpen();
    }

    lemma NoneOpen()
      requires Valid() && entries == map[]
      ensures open == {}
    {
    }
  }
}
