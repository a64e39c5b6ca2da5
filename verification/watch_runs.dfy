/** Whole runs of the watch hub: what a history of requests leaves subscribed. */
module WatchRuns {
  import opened Wrappers
  import opened WatchKeys
  import opened WatchHubs

  /** A step of a run; what happens to the runtimes interleaves with the requests of connections. */
  datatype Step =
    | Subscribe(conn: Conn, key: SubKey)
    | Unsubscribe(conn: Conn, key: SubKey)
    | RemoveConn(conn: Conn)
    | Reap(cluster: string)
    | Ensure(cluster: string)    // the event informer of a ready runtime
    | StopPool(cluster: string)

  /** What a run leads to: the subscribed pairs, the cluster filters, the audit streams and the stopped pools. */
  datatype Snapshot = Snapshot(rel: set<Pair>, filters: map<Conn, string>, audits: set<Conn>, closed: set<string>)

  ghost function Initial(closed: set<string>): Snapshot {
    Snapshot({}, map[], {}, closed)
  }

  ghost function After(s: Snapshot, registered: set<string>, step: Step): Snapshot {
    match step
    case Subscribe(conn, key) =>
      var o := SubscribeOutcome(s.rel, registered, s.closed, conn, key);
      s.(rel := o.rel,
         filters := if o.error == None && key.resource.Clusters? then s.filters[conn := key.cluster] else s.filters,
         audits := if o.error == None && key.resource.Audit? then s.audits + {conn} else s.audits)
    case Unsubscribe(conn, key) =>
      s.(rel := s.rel - {(key, conn)},
         filters := if key.resource.Clusters? then s.filters - {conn} else s.filters,
         audits := if key.resource.Audit? then s.audits - {conn} else s.audits)
    case RemoveConn(conn) =>
      s.(rel := (set p | p in s.rel && p.1 != conn), filters := s.filters - {conn}, audits := s.audits - {conn})
    case Reap(_) => s
    case Ensure(_) => s
    case StopPool(cluster) => if cluster in registered then s.(closed := s.closed + {cluster}) else s
  }

  ghost function Run(registered: set<string>, closed: set<string>, steps: seq<Step>): Snapshot {
    if steps == [] then Initial(closed)
    else After(Run(registered, closed, steps[..|steps| - 1]), registered, steps[|steps| - 1])
  }

  /** The hub is in the state the snapshot describes. */
  ghost predicate Reflects(hub: WatchHub, s: Snapshot)
    reads hub, hub.pools.Values
  {
    hub.rel == s.rel && hub.clusterSubs == s.filters && hub.auditSubs == s.audits && hub.ClosedPools() == s.closed
  }

  /** One step, whatever it is. */
  method Perform(hub: WatchHub, step: Step, now: int, ghost s: Snapshot)
    requires hub.Valid() && Reflects(hub, s)
    modifies hub, hub.pools.Values
    ensures hub.Valid() && Reflects(hub, After(s, hub.pools.Keys, step))
  {
    match step
    case Subscribe(conn, key) => var error := hub.Subscribe(conn, key, now);
    case Unsubscribe(conn, key) => hub.Unsubscribe(conn, key, now);
    case RemoveConn(conn) => hub.RemoveConn(conn, now);
    case Reap(cluster) =>
      if cluster in hub.pools {
        hub.ReaperTick(cluster, now);
      }
    case Ensure(cluster) =>
      if cluster in hub.pools {
        hub.EnsureEvents(cluster, now);
      }
    case StopPool(cluster) =>
      if cluster in hub.pools {
        hub.StopPool(cluster);
      }
  }

  /** The hub driven through any sequence of steps stays consistent and ends where the run says. */
  method Drive(hub: WatchHub, steps: seq<Step>, times: seq<int>)
    requires hub.Valid() && Reflects(hub, Initial(hub.ClosedPools())) && |times| == |steps|
    modifies hub, hub.pools.Values
    ensures hub.Valid()
    ensures Reflects(hub, Run(hub.pools.Keys, old(hub.ClosedPools()), steps))
  {
    ghost var closed := hub.ClosedPools();
    for i := 0 to |steps|
      invariant hub.Valid() && Reflects(hub, Run(hub.pools.Keys, closed, steps[..i]))
    {
      assert steps[..i + 1][..i] == steps[..i];
      Perform(hub, steps[i], times[i], Run(hub.pools.Keys, closed, steps[..i]));
    }
    assert steps[..|steps|] == steps;
  }

  // ---- Which requests are accepted ----

  /** The answer to a subscribe, kind by kind, and what an accepted one leaves subscribed. */
  lemma OutcomeMeans(rel: set<Pair>, registered: set<string>, closed: set<string>, conn: Conn, key: SubKey)
    ensures var o := SubscribeOutcome(rel, registered, closed, conn, key);
            var known := key.cluster != "" && key.cluster in registered;
            && (key.resource.Unknown? ==> o.error == Some(ParamInvalid))
            && (key.resource.Clusters? || key.resource.Audit? ==> (o.error == None <==> key.cluster != ""))
            && (key.resource.PodLogs? ==>
                (o.error == None <==> known && key.name != "" && forall c :: (key, c) !in rel))
            && (HasInformer(key.resource) ==>
                (o.error == None <==> known && (key.cluster !in closed || exists c :: c != conn && (key, c) in rel)))
            && (o.error == None && !key.resource.Clusters? ==> (key, conn) in o.rel)
            && (o.error == Some(ClusterNotFound) ==> key.cluster !in registered)
            && (o.error == Some(UpstreamK8sError) ==> key.cluster in closed && (key, conn) !in o.rel)
            && forall p :: p != (key, conn) ==> (p in o.rel <==> p in rel)
  {
  }

  // ---- Calls that are not atomic ----

  /**
   * The hub releases its lock before it watches. When a second connection subscribes to the key in that
   * window and the watch of the first then fails, the second was accepted and keeps a key without a
   * handler; one call after the other, both are refused.
   */
  method FailedWatchStrandsSecond(hub: WatchHub, first: Conn, second: Conn, key: SubKey, now: int)
    requires hub.Valid() && Ordinary(key) && key.cluster in hub.pools && key.cluster != ""
    requires hub.pools[key.cluster].closed && first != second && !Subscribed(hub.rel, key)
    modifies hub, hub.pools.Values
    ensures hub.Indexed() && hub.rel == old(hub.rel) + {(key, second)} && hub.pools[key.cluster].entries == map[]
    ensures SubscribeOutcome(old(hub.rel), hub.pools.Keys, old(hub.ClosedPools()), first, key) ==
            SubscribeOutcome(old(hub.rel), hub.pools.Keys, old(hub.ClosedPools()), second, key) ==
            Outcome(Some(UpstreamK8sError), old(hub.rel))
  {
    RefusedAlone(hub.rel, hub.pools.Keys, hub.ClosedPools(), first, key);
    RefusedAlone(hub.rel, hub.pools.Keys, hub.ClosedPools(), second, key);
    hub.AddPair(first, key);
    hub.AddPair(second, key);
    var ok := hub.pools[key.cluster].Watch(GvrOf(key.resource), key.namespace, WatchId(key), key, now);
    var last := hub.DropPair(first, key);
    StrandedPair(old(hub.rel), (key, first), (key, second));
  }

  lemma RefusedAlone(rel: set<Pair>, registered: set<string>, closed: set<string>, conn: Conn, key: SubKey)
    requires Ordinary(key) && key.cluster != "" && key.cluster in registered && key.cluster in closed && !Subscribed(rel, key)
    ensures SubscribeOutcome(rel, registered, closed, conn, key) == Outcome(Some(UpstreamK8sError), rel)
  {
    assert rel - {(key, conn)} == rel;
  }

  lemma StrandedPair(rel: set<Pair>, first: Pair, second: Pair)
    requires first !in rel && first != second
    ensures rel + {first} + {second} - {first} == rel + {second}
  {
  }

  // ---- What a run leaves behind, read off its history ----

  /** What the hub answers when step i is a subscribe. */
  ghost function RequestError(registered: set<string>, closed: set<string>, steps: seq<Step>, i: int): Option<Code>
    requires 0 <= i < |steps| && steps[i].Subscribe?
  {
    var s := Run(registered, closed, steps[..i]);
    SubscribeOutcome(s.rel, registered, s.closed, steps[i].conn, steps[i].key).error
  }

  /** Step i subscribes the pair and is accepted. */
  ghost predicate Takes(registered: set<string>, closed: set<string>, steps: seq<Step>, i: int, pair: Pair)
    requires 0 <= i < |steps|
  {
    steps[i] == Subscribe(pair.1, pair.0) && !pair.0.resource.Clusters? &&
    RequestError(registered, closed, steps, i) == None
  }

  /** Step i ends the pair: an unsubscribe, the loss of its connection, or a resubscribe the pool refuses. */
  ghost predicate Ends(registered: set<string>, closed: set<string>, steps: seq<Step>, i: int, pair: Pair)
    requires 0 <= i < |steps|
  {
    || steps[i] == Unsubscribe(pair.1, pair.0)
    || steps[i] == RemoveConn(pair.1)
    || (steps[i] == Subscribe(pair.1, pair.0) &&
        RequestError(registered, closed, steps, i) == Some(UpstreamK8sError))
  }

  /** A pair is subscribed exactly when an accepted subscribe of it has not been ended since. */
  lemma {:induction false} SubscribedIff(registered: set<string>, closed: set<string>, steps: seq<Step>, pair: Pair)
    ensures pair in Run(registered, closed, steps).rel <==>
            exists i :: 0 <= i < |steps| && Takes(registered, closed, steps, i, pair) &&
                        forall j :: i < j < |steps| ==> !Ends(registered, closed, steps, j, pair)
  {
    if steps == [] {
      return;
    }
    var n := |steps| - 1;
    var init := steps[..n];
    SubscribedIff(registered, closed, init, pair);
    assert forall i :: 0 <= i < n ==> init[..i] == steps[..i];
    assert forall i :: 0 <= i < n ==>
             (Takes(registered, closed, init, i, pair) <==> Takes(registered, closed, steps, i, pair)) &&
             (Ends(registered, closed, init, i, pair) <==> Ends(registered, closed, steps, i, pair));
    if Takes(registered, closed, steps, n, pair) {
      assert pair in Run(registered, closed, steps).rel;
    } else if Ends(registered, closed, steps, n, pair) {
      assert pair !in Run(registered, closed, steps).rel;
    } else {
      assert pair in Run(registered, closed, steps).rel <==> pair in Run(registered, closed, init).rel;
    }
  }
}
