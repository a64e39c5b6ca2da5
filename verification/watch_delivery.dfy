/** From an informer event to the handlers of a browser: how often each is called. */
module WatchDelivery {
  import opened WatchKeys
  import opened WatchHubs
  import opened WsManagers
  import WatchEndToEnd
  import WatchRuns

  /** The keys through which an event of a namespace reaches a connection. */
  ghost function Routes(rel: set<Pair>, conn: Conn, c: string, r: Resource, n: string): (keys: set<SubKey>)
    ensures forall k :: k in keys <==>
              (k, conn) in rel && k.cluster == c && k.resource == r && (k.namespace == "" || k.namespace == n)
  {
    set p | p in rel && p.1 == conn && p.0.cluster == c && p.0.resource == r && (p.0.namespace == "" || p.0.namespace == n) :: p.0
  }

  /** An event that one pool entry reports, and its frame to one connection, if there is one. */
  method Report(hub: WatchHub, m: WsManager, conn: Conn, key: SubKey, event: InformerEvent) returns (calls: multiset<(nat, nat)>)
    requires hub.Valid() && m.SubsShape() && Ordinary(key) && key.name == ""
    requires key.cluster in hub.pools && !hub.pools[key.cluster].closed
    requires forall k :: (k, conn) in hub.rel && k.cluster == key.cluster && k.resource == key.resource ==> k.name == ""
    ensures forall o, h :: calls[(o, h)] ==
              if (key, conn) in hub.rel && o in m.subs.Values && h in m.objects[o].handlers &&
                 Receives(m.objects[o].topic, key.cluster, key.resource, event.namespace)
              then 1 else 0
  {
    calls := multiset{};
    var sent := hub.Dispatch(key.cluster, EntryOf(key), event);
    OnlyFrame(hub, conn, key, event, sent);
    if Frame(conn, key, event) in sent {
      calls := m.OnMessage(key.cluster, key.resource, event.namespace);
    }
  }

  /** The connection gets the one frame of the key, or none. */
  lemma OnlyFrame(hub: WatchHub, conn: Conn, key: SubKey, event: InformerEvent, sent: multiset<Frame>)
    requires hub.Valid() && Ordinary(key) && key.name == ""
    requires key.cluster in hub.pools && !hub.pools[key.cluster].closed
    requires forall k :: (k, conn) in hub.rel && k.cluster == key.cluster && k.resource == key.resource ==> k.name == ""
    requires forall f :: sent[f] ==
               if f.event == event && (f.key, f.to) in hub.rel && key.cluster !in hub.ClosedPools() &&
                  PoolAgreement.Served(f.key, key.cluster, hub.subs.Keys) && EntryOf(f.key) == EntryOf(key)
               then 1 else 0
    ensures forall f :: f in sent && f.to == conn ==> f == Frame(conn, key, event)
    ensures sent[Frame(conn, key, event)] == if (key, conn) in hub.rel then 1 else 0
  {
    forall f | f in sent && f.to == conn
      ensures f == Frame(conn, key, event)
    {
      assert sent[f] == 1;
      EntryKeyInjective(f.key.resource, f.key.namespace, key.resource, key.namespace);
    }
  }

  /**
   * The informers of all namespaces and of the event's own both report an event. A handler is called
   * once for each of the two keys the connection is subscribed to.
   */
  method Deliveries(hub: WatchHub, m: WsManager, conn: Conn, c: string, r: Resource, event: InformerEvent)
    returns (calls: multiset<(nat, nat)>)
    requires hub.Valid() && m.SubsShape() && HasInformer(r) && c in hub.pools && !hub.pools[c].closed
    requires forall k :: (k, conn) in hub.rel && k.cluster == c && k.resource == r ==> k.name == ""
    ensures forall o, h :: calls[(o, h)] ==
              if o in m.subs.Values && h in m.objects[o].handlers && Receives(m.objects[o].topic, c, r, event.namespace)
              then |Routes(hub.rel, conn, c, r, event.namespace)| else 0
  {
    calls := Report(hub, m, conn, SubKey(c, r, "", ""), event);
    if event.namespace != "" {
      var more := Report(hub, m, conn, SubKey(c, r, event.namespace, ""), event);
      calls := calls + more;
    }
    RouteCount(hub.rel, conn, c, r, event.namespace);
  }

  lemma RouteCount(rel: set<Pair>, conn: Conn, c: string, r: Resource, n: string)
    requires forall k :: (k, conn) in rel && k.cluster == c && k.resource == r ==> k.name == ""
    ensures |Routes(rel, conn, c, r, n)| ==
              (if (SubKey(c, r, "", ""), conn) in rel then 1 else 0) +
              (if n != "" && (SubKey(c, r, n, ""), conn) in rel then 1 else 0)
  {
    var all, own := SubKey(c, r, "", ""), SubKey(c, r, n, "");
    assert Routes(rel, conn, c, r, n) ==
           (if (all, conn) in rel then {all} else {}) + (if n != "" && (own, conn) in rel then {own} else {});
  }

  // ---- Against the browser's own topics ----

  /** The current topics that receive an event of the namespace. */
  ghost function Interested(topics: set<Topic>, c: string, r: Resource, n: string): set<Topic> {
    set t | t in topics && Receives(t, c, r, n)
  }

  lemma InterestedCount(topics: set<Topic>, c: string, r: Resource, n: string)
    ensures |Interested(topics, c, r, n)| ==
              (if Topic(c, "", r) in topics then 1 else 0) + (if n != "" && Topic(c, n, r) in topics then 1 else 0)
  {
    var all, own := Topic(c, "", r), Topic(c, n, r);
    assert Interested(topics, c, r, n) ==
           (if all in topics then {all} else {}) + (if n != "" && own in topics then {own} else {});
  }

  /**
   * With the wire drained and the pool running, a handler of a matching subscription is called once for
   * each current topic that receives the event: exactly once if and only if the resource is not
   * subscribed both for all namespaces and for the event's own.
   */
  lemma CallsPerEvent(m: WsManager, conn: Conn, registered: set<string>, closed: set<string>,
                      steps: seq<WatchRuns.Step>, c: string, r: Resource, n: string)
    requires m.Valid() && m.IsOpen() && HasInformer(r) && c != "" && c in registered
    requires c !in WatchRuns.Run(registered, closed, steps).closed
    requires WatchEndToEnd.Own(steps, conn) == WatchEndToEnd.RequestsOf(conn, m.sockets[m.ws.value].sent)
    ensures var rel, topics := WatchRuns.Run(registered, closed, steps).rel, TopicsOf(m.subs, m.objects);
            && (forall k :: (k, conn) in rel && k.cluster == c && k.resource == r ==> k.name == "")
            && |Routes(rel, conn, c, r, n)| == |Interested(topics, c, r, n)|
            && (Interested(topics, c, r, n) != {} ==>
                (|Routes(rel, conn, c, r, n)| == 1 <==> n == "" || Topic(c, "", r) !in topics || Topic(c, n, r) !in topics))
  {
    var rel, topics := WatchRuns.Run(registered, closed, steps).rel, TopicsOf(m.subs, m.objects);
    WatchEndToEnd.ClosedGrows(registered, closed, steps);
    forall k: SubKey | k.cluster == c && k.resource == r
      ensures (k, conn) in rel <==> k.name == "" && WatchEndToEnd.TopicOf(k) in topics
    {
      WatchEndToEnd.BrowserMatchesHub(m, conn, registered, closed, steps, k);
    }
    assert WatchEndToEnd.TopicOf(SubKey(c, r, "", "")) == Topic(c, "", r);
    assert WatchEndToEnd.TopicOf(SubKey(c, r, n, "")) == Topic(c, n, r);
    RouteCount(rel, conn, c, r, n);
    InterestedCount(topics, c, r, n);
  }
}
