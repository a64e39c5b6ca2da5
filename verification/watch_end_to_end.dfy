/** The browser's subscriptions and the hub's, joined by the frames on one connection. */
module WatchEndToEnd {
  import opened Wrappers
  import opened WatchKeys
  import opened WatchHubs
  import WatchRuns
  import opened WsManagers

  /** The hub key of a browser topic; the browser never sends a name. */
  function KeyOf(t: Topic): SubKey {
    SubKey(t.cluster, t.resource, t.namespace, "")
  }

  function TopicOf(k: SubKey): Topic {
    Topic(k.cluster, k.namespace, k.resource)
  }

  /** The request the watch endpoint makes of the hub for a frame. */
  function RequestOf(conn: Conn, f: WireFrame): WatchRuns.Step {
    match f
    case SubscribeFrame(t) => WatchRuns.Subscribe(conn, KeyOf(t))
    case UnsubscribeFrame(t) => WatchRuns.Unsubscribe(conn, KeyOf(t))
  }

  function RequestsOf(conn: Conn, frames: seq<WireFrame>): (steps: seq<WatchRuns.Step>)
    ensures |steps| == |frames|
  {
    if frames == [] then [] else RequestsOf(conn, frames[..|frames| - 1]) + [RequestOf(conn, frames[|frames| - 1])]
  }

  predicate Concerns(step: WatchRuns.Step, conn: Conn) {
    (step.Subscribe? || step.Unsubscribe? || step.RemoveConn?) && step.conn == conn
  }

  /** The steps of a run that come from one connection, in order. */
  function Own(steps: seq<WatchRuns.Step>, conn: Conn): seq<WatchRuns.Step> {
    if steps == [] then []
    else
      var n := |steps| - 1;
      Own(steps[..n], conn) + if Concerns(steps[n], conn) then [steps[n]] else []
  }

  /** The hub can take a subscription to the topic, whoever else is subscribed. */
  predicate Takeable(registered: set<string>, closed: set<string>, t: Topic) {
    t.cluster != "" &&
    (t.resource.Audit? || (HasInformer(t.resource) && t.cluster in registered && t.cluster !in closed))
  }

  /** The frames ask for the key, and the hub takes it. */
  predicate Wanted(registered: set<string>, closed: set<string>, frames: seq<WireFrame>, k: SubKey) {
    k.name == "" && TopicOf(k) in Net(frames) && Takeable(registered, closed, TopicOf(k))
  }

  // ---- Subscribed pairs ----

  /** Pools stop for good. */
  lemma {:induction false} ClosedGrows(registered: set<string>, closed: set<string>, steps: seq<WatchRuns.Step>)
    ensures closed <= WatchRuns.Run(registered, closed, steps).closed
  {
    if steps != [] {
      ClosedGrows(registered, closed, steps[..|steps| - 1]);
    }
  }

  /** Nobody ever holds a subscription to a pool that was stopped from the start. */
  lemma {:induction false} NothingOnClosed(registered: set<string>, closed: set<string>, steps: seq<WatchRuns.Step>,
                                           key: SubKey, c: Conn)
    requires Ordinary(key) && key.cluster in closed
    ensures (key, c) !in WatchRuns.Run(registered, closed, steps).rel
  {
    if steps != [] {
      var init := steps[..|steps| - 1];
      ClosedGrows(registered, closed, init);
      forall other: Conn
        ensures (key, other) !in WatchRuns.Run(registered, closed, init).rel
      {
        NothingOnClosed(registered, closed, init, key, other);
      }
    }
  }

  /** The pool of the key's cluster is stopped at the end of the run only if it was at its start. */
  ghost predicate Steady(registered: set<string>, closed: set<string>, steps: seq<WatchRuns.Step>, key: SubKey) {
    key.cluster in WatchRuns.Run(registered, closed, steps).closed ==> key.cluster in closed
  }

  /** One request of the connection's own, on a hub that follows the frames so far. */
  lemma OwnRequest(registered: set<string>, closed: set<string>, s: WatchRuns.Snapshot, conn: Conn,
                   frames: seq<WireFrame>, f: WireFrame, k: SubKey)
    requires closed <= s.closed
    requires Ordinary(k) && k.cluster in closed ==> forall c :: (k, c) !in s.rel
    requires (k, conn) in s.rel ==> Wanted(registered, closed, frames, k)
    requires Wanted(registered, closed, frames, k) && (k.cluster in s.closed ==> k.cluster in closed) ==> (k, conn) in s.rel
    ensures var t := WatchRuns.After(s, registered, RequestOf(conn, f));
            && ((k, conn) in t.rel ==> Wanted(registered, closed, frames + [f], k))
            && (Wanted(registered, closed, frames + [f], k) && (k.cluster in t.closed ==> k.cluster in closed) ==> (k, conn) in t.rel)
  {
    NetSnoc(frames, f);
    assert TopicOf(k) == f.topic && k.name == "" <==> k == KeyOf(f.topic);
  }

  /** A step that is not the connection's own leaves its pairs alone. */
  lemma ForeignStep(s: WatchRuns.Snapshot, registered: set<string>, step: WatchRuns.Step, conn: Conn, k: SubKey)
    requires !Concerns(step, conn)
    ensures (k, conn) in WatchRuns.After(s, registered, step).rel <==> (k, conn) in s.rel
  {
  }

  /** The last of a connection's own requests comes from its last frame. */
  lemma LastOwn(steps: seq<WatchRuns.Step>, conn: Conn, frames: seq<WireFrame>)
    requires steps != [] && Concerns(steps[|steps| - 1], conn) && Own(steps, conn) == RequestsOf(conn, frames)
    ensures frames != []
    ensures steps[|steps| - 1] == RequestOf(conn, frames[|frames| - 1])
    ensures Own(steps[..|steps| - 1], conn) == RequestsOf(conn, frames[..|frames| - 1])
    ensures frames == frames[..|frames| - 1] + [frames[|frames| - 1]]
  {
    OwnSplit(steps, conn);
    LastOfBoth(Own(steps[..|steps| - 1], conn), steps[|steps| - 1], conn, frames);
  }

  lemma OwnSplit(steps: seq<WatchRuns.Step>, conn: Conn)
    requires steps != [] && Concerns(steps[|steps| - 1], conn)
    ensures Own(steps, conn) == Own(steps[..|steps| - 1], conn) + [steps[|steps| - 1]]
  {
  }

  lemma LastOfBoth(own: seq<WatchRuns.Step>, x: WatchRuns.Step, conn: Conn, frames: seq<WireFrame>)
    requires own + [x] == RequestsOf(conn, frames)
    ensures frames != []
    ensures x == RequestOf(conn, frames[|frames| - 1]) && own == RequestsOf(conn, frames[..|frames| - 1])
    ensures frames == frames[..|frames| - 1] + [frames[|frames| - 1]]
  {
    assert |frames| == |own + [x]| > 0;
    RequestsSplit(conn, frames);
    SnocInjective(own, x, RequestsOf(conn, frames[..|frames| - 1]), RequestOf(conn, frames[|frames| - 1]));
  }

  lemma RequestsSplit(conn: Conn, frames: seq<WireFrame>)
    requires frames != []
    ensures RequestsOf(conn, frames) == RequestsOf(conn, frames[..|frames| - 1]) + [RequestOf(conn, frames[|frames| - 1])]
  {
  }

  lemma SnocInjective(a: seq<WatchRuns.Step>, x: WatchRuns.Step, b: seq<WatchRuns.Step>, y: WatchRuns.Step)
    requires a + [x] == b + [y]
    ensures a == b && x == y
  {
    assert |a| == |b| && (a + [x])[|a|] == (b + [y])[|b|];
    assert a == (a + [x])[..|a|] && b == (b + [y])[..|b|];
  }

  /**
   * Whatever a connection asks for and however other connections and the runtimes interleave, once the
   * hub has handled its frames it is subscribed to a key exactly when the key's topic is in the net
   * effect of the frames and is one the hub takes. A pool that stops on the way can only lose
   * subscriptions: the hub never holds one the frames do not ask for.
   */
  lemma {:induction false} HubFollowsWire(registered: set<string>, closed: set<string>, steps: seq<WatchRuns.Step>,
                                          conn: Conn, frames: seq<WireFrame>, k: SubKey)
    requires Own(steps, conn) == RequestsOf(conn, frames)
    ensures (k, conn) in WatchRuns.Run(registered, closed, steps).rel ==> Wanted(registered, closed, frames, k)
    ensures Wanted(registered, closed, frames, k) && Steady(registered, closed, steps, k) ==>
              (k, conn) in WatchRuns.Run(registered, closed, steps).rel
    decreases |steps|
  {
    if steps != [] {
      var init, step := steps[..|steps| - 1], steps[|steps| - 1];
      var s := WatchRuns.Run(registered, closed, init);
      SteadyBefore(registered, closed, steps, k);
      if !Concerns(step, conn) {
        HubFollowsWire(registered, closed, init, conn, frames, k);
        ForeignStep(s, registered, step, conn, k);
      } else {
        LastOwn(steps, conn, frames);
        var before, f := frames[..|frames| - 1], frames[|frames| - 1];
        HubFollowsWire(registered, closed, init, conn, before, k);
        NobodyOnClosed(registered, closed, init, k);
        OwnRequest(registered, closed, s, conn, before, f, k);
      }
    }
  }

  lemma SteadyBefore(registered: set<string>, closed: set<string>, steps: seq<WatchRuns.Step>, k: SubKey)
    requires steps != []
    ensures closed <= WatchRuns.Run(registered, closed, steps[..|steps| - 1]).closed
    ensures Steady(registered, closed, steps, k) ==> Steady(registered, closed, steps[..|steps| - 1], k)
  {
    ClosedGrows(registered, closed, steps[..|steps| - 1]);
  }

  lemma NobodyOnClosed(registered: set<string>, closed: set<string>, steps: seq<WatchRuns.Step>, k: SubKey)
    ensures Ordinary(k) && k.cluster in closed ==> forall c :: (k, c) !in WatchRuns.Run(registered, closed, steps).rel
  {
    if Ordinary(k) && k.cluster in closed {
      forall c: Conn
        ensures (k, c) !in WatchRuns.Run(registered, closed, steps).rel
      {
        NothingOnClosed(registered, closed, steps, k, c);
      }
    }
  }

  /** With the wire drained, the hub serves an open browser exactly the topics it wants and the hub takes. */
  lemma BrowserMatchesHub(m: WsManager, conn: Conn, registered: set<string>, closed: set<string>, steps: seq<WatchRuns.Step>,
                          k: SubKey)
    requires m.Valid() && m.IsOpen()
    requires Own(steps, conn) == RequestsOf(conn, m.sockets[m.ws.value].sent)
    ensures (k, conn) in WatchRuns.Run(registered, closed, steps).rel ==>
              k.name == "" && TopicOf(k) in TopicsOf(m.subs, m.objects) && Takeable(registered, closed, TopicOf(k))
    ensures k.name == "" && TopicOf(k) in TopicsOf(m.subs, m.objects) && Takeable(registered, closed, TopicOf(k)) &&
              Steady(registered, closed, steps, k) ==>
              (k, conn) in WatchRuns.Run(registered, closed, steps).rel
  {
    HubFollowsWire(registered, closed, steps, conn, m.sockets[m.ws.value].sent, k);
  }

  // ---- Cluster filters ----

  /** The one filter the hub keeps for a connection: the last accepted clusters subscribe, until any clusters unsubscribe. */
  function FilterOf(frames: seq<WireFrame>): Option<string> {
    if frames == [] then None
    else
      var f := frames[|frames| - 1];
      if !f.topic.resource.Clusters? || (f.SubscribeFrame? && f.topic.cluster == "") then FilterOf(frames[..|frames| - 1])
      else if f.SubscribeFrame? then Some(f.topic.cluster) else None
  }

  /** The hub's filter is FilterOf, whatever other connections do. */
  lemma {:induction false} FilterFollowsWire(registered: set<string>, closed: set<string>, steps: seq<WatchRuns.Step>,
                                             conn: Conn, frames: seq<WireFrame>)
    requires Own(steps, conn) == RequestsOf(conn, frames)
    ensures Filter(WatchRuns.Run(registered, closed, steps).filters, conn) == FilterOf(frames)
    decreases |steps|
  {
    if steps != [] {
      var init, step := steps[..|steps| - 1], steps[|steps| - 1];
      var s := WatchRuns.Run(registered, closed, init);
      if !Concerns(step, conn) {
        FilterFollowsWire(registered, closed, init, conn, frames);
        FilterOfOthers(s, registered, step, conn);
      } else {
        LastOwn(steps, conn, frames);
        var before, f := frames[..|frames| - 1], frames[|frames| - 1];
        FilterFollowsWire(registered, closed, init, conn, before);
        FilterRequest(s, registered, conn, before, f);
      }
    }
  }

  function Filter(filters: map<Conn, string>, conn: Conn): Option<string> {
    if conn in filters then Some(filters[conn]) else None
  }

  lemma FilterOfOthers(s: WatchRuns.Snapshot, registered: set<string>, step: WatchRuns.Step, conn: Conn)
    requires !Concerns(step, conn)
    ensures Filter(WatchRuns.After(s, registered, step).filters, conn) == Filter(s.filters, conn)
  {
  }

  lemma FilterRequest(s: WatchRuns.Snapshot, registered: set<string>, conn: Conn, frames: seq<WireFrame>, f: WireFrame)
    requires Filter(s.filters, conn) == FilterOf(frames)
    ensures Filter(WatchRuns.After(s, registered, RequestOf(conn, f)).filters, conn) == FilterOf(frames + [f])
  {
    assert (frames + [f])[..|frames|] == frames;
  }

  /** The clusters topics a browser has asked for and not given up. */
  function ClusterTopics(frames: seq<WireFrame>): set<Topic> {
    set t | t in Net(frames) && t.resource.Clusters?
  }

  /** The hub's filter lets through the status of exactly the clusters the browser wants. */
  ghost predicate FilterAgrees(frames: seq<WireFrame>) {
    match FilterOf(frames)
    case None => ClusterTopics(frames) == {}
    case Some(c) => ClusterTopics(frames) != {} && forall t :: t in ClusterTopics(frames) ==> t.cluster == c
  }

  /**
   * One filter a connection is enough exactly as long as each clusters subscribe finds no topic of
   * another cluster in effect, and each clusters unsubscribe finds no other clusters topic.
   */
  lemma FilterAgreesIff(frames: seq<WireFrame>, f: WireFrame)
    ensures !f.topic.resource.Clusters? ==> (FilterAgrees(frames + [f]) <==> FilterAgrees(frames))
    ensures f.SubscribeFrame? && f.topic.resource.Clusters? ==>
              (FilterAgrees(frames + [f]) <==>
               f.topic.cluster != "" && forall t :: t in ClusterTopics(frames) ==> t.cluster == f.topic.cluster)
    ensures f.UnsubscribeFrame? && f.topic.resource.Clusters? ==>
              (FilterAgrees(frames + [f]) <==> ClusterTopics(frames) <= {f.topic})
  {
    var longer := frames + [f];
    assert longer[..|frames|] == frames;
    NetSnoc(frames, f);
    if !f.topic.resource.Clusters? {
      assert ClusterTopics(longer) == ClusterTopics(frames);
    } else if f.SubscribeFrame? {
      assert ClusterTopics(longer) == ClusterTopics(frames) + {f.topic};
      NoEmptyFilter(frames);
    } else {
      assert ClusterTopics(longer) == ClusterTopics(frames) - {f.topic};
    }
  }

  lemma {:induction false} NoEmptyFilter(frames: seq<WireFrame>)
    ensures FilterOf(frames) != Some("")
  {
    if frames != [] {
      NoEmptyFilter(frames[..|frames| - 1]);
    }
  }

  /** Two clusters in one browser: the hub keeps the last. */
  method ClusterFilterIsOverwritten(hub: WatchHub, conn: Conn, a: string, b: string, now: int)
    requires hub.Valid() && a != "" && b != "" && a != b
    modifies hub, hub.pools.Values
    ensures hub.Valid() && conn in hub.clusterSubs && hub.clusterSubs[conn] == b
    ensures var ta, tb := Topic(a, "", Clusters), Topic(b, "", Clusters);
            !FilterAgrees([SubscribeFrame(ta), SubscribeFrame(tb)])
  {
    var ta, tb := Topic(a, "", Clusters), Topic(b, "", Clusters);
    var error := hub.Subscribe(conn, KeyOf(ta), now);
    error := hub.Subscribe(conn, KeyOf(tb), now);
    NetSnoc([], SubscribeFrame(ta));
    assert [] + [SubscribeFrame(ta)] == [SubscribeFrame(ta)];
    assert ta in ClusterTopics([SubscribeFrame(ta)]);
    FilterAgreesIff([SubscribeFrame(ta)], SubscribeFrame(tb));
    assert [SubscribeFrame(ta)] + [SubscribeFrame(tb)] == [SubscribeFrame(ta), SubscribeFrame(tb)];
  }
}
