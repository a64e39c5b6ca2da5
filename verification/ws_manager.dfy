/** The browser's subscription manager: one socket, many shared subscriptions. */
module WsManagers {
  import opened Backoff
  import opened Wrappers
  import opened WatchKeys

  /** What a subscription asks for; an absent namespace is the empty one. */
  datatype Topic = Topic(cluster: string, namespace: string, resource: Resource)

  datatype WireFrame = SubscribeFrame(topic: Topic) | UnsubscribeFrame(topic: Topic)

  /** The topics a sequence of frames leaves subscribed. */
  function Net(frames: seq<WireFrame>): set<Topic> {
    if frames == [] then {}
    else
      var n := |frames| - 1;
      match frames[n]
      case SubscribeFrame(t) => Net(frames[..n]) + {t}
      case UnsubscribeFrame(t) => Net(frames[..n]) - {t}
  }

  lemma NetSnoc(frames: seq<WireFrame>, f: WireFrame)
    ensures Net(frames + [f]) == if f.SubscribeFrame? then Net(frames) + {f.topic} else Net(frames) - {f.topic}
  {
    assert (frames + [f])[..|frames|] == frames;
  }

  function TopicKey(t: Topic): string {
    t.cluster + "|" + t.namespace + "|" + ResourceName(t.resource)
  }

  /** The key joins free text with bars, so topics may share one; the second then joins the first's subscription ... */
  lemma TopicKeysCollide()
    ensures exists s: Topic, t: Topic :: s != t && HasInformer(s.resource) && HasInformer(t.resource) && TopicKey(s) == TopicKey(t)
  {
    var s, t := Topic("a", "b|c", Pods), Topic("a|b", "c", Pods);
    assert |s.cluster| != |t.cluster|;
    assert TopicKey(s) == "a|b|c|pods" == TopicKey(t);
  }

  /** ... but not while cluster and resource names are free of bars. */
  lemma TopicKeyIdentifies(s: Topic, t: Topic)
    requires Free(s.cluster, '|') && Free(t.cluster, '|')
    requires Free(ResourceName(s.resource), '|') && Free(ResourceName(t.resource), '|')
    requires TopicKey(s) == TopicKey(t)
    ensures s.cluster == t.cluster && s.namespace == t.namespace && ResourceName(s.resource) == ResourceName(t.resource)
  {
    var x, y := s.namespace + "|" + ResourceName(s.resource), t.namespace + "|" + ResourceName(t.resource);
    assert TopicKey(s) == s.cluster + ['|'] + x && TopicKey(t) == t.cluster + ['|'] + y;
    SplitUnique(s.cluster, x, t.cluster, y, '|');
    SplitLastUnique(s.namespace, ResourceName(s.resource), t.namespace, ResourceName(t.resource), '|');
  }

  /** ... and not while namespace and resource names are, whatever the cluster names hold. */
  lemma TopicKeyIdentifiesByNamespace(s: Topic, t: Topic)
    requires Free(s.namespace, '|') && Free(t.namespace, '|')
    requires Free(ResourceName(s.resource), '|') && Free(ResourceName(t.resource), '|')
    requires TopicKey(s) == TopicKey(t)
    ensures s.cluster == t.cluster && s.namespace == t.namespace && ResourceName(s.resource) == ResourceName(t.resource)
  {
    var a, b := s.cluster + "|" + s.namespace, t.cluster + "|" + t.namespace;
    SplitLastUnique(a, ResourceName(s.resource), b, ResourceName(t.resource), '|');
    SplitLastUnique(s.cluster, s.namespace, t.cluster, t.namespace, '|');
  }

  /** Two clusters can share a key exactly when one name continues the other after a bar. */
  lemma TopicKeysCollideIff(c: string, r: Resource, d: string, q: Resource)
    requires c != d && Free(ResourceName(r), '|') && Free(ResourceName(q), '|')
    ensures (exists n: string, m: string :: TopicKey(Topic(c, n, r)) == TopicKey(Topic(d, m, q))) <==>
              ResourceName(r) == ResourceName(q) && (c + "|" <= d || d + "|" <= c)
  {
    if n: string, m: string :| TopicKey(Topic(c, n, r)) == TopicKey(Topic(d, m, q)) {
      SplitLastUnique(c + "|" + n, ResourceName(r), d + "|" + m, ResourceName(q), '|');
      SharedStart(c, n, d, m);
    }
    if ResourceName(r) == ResourceName(q) && c + "|" <= d {
      KeysMeet(c, d[|c| + 1..], d, r, q);
    }
    if ResourceName(r) == ResourceName(q) && d + "|" <= c {
      KeysMeet(d, c[|d| + 1..], c, q, r);
    }
  }

  lemma SharedStart(c: string, n: string, d: string, m: string)
    requires c != d && c + "|" + n == d + "|" + m
    ensures c + "|" <= d || d + "|" <= c
  {
    var s := c + "|" + n;
    assert s == d + "|" + m;
    assert s[..|c|] == c && s[..|d|] == d && s[|c|] == '|' && s[|d|] == '|';
    assert |c| != |d|;
    if |c| < |d| {
      assert s[..|d|][..|c|] == s[..|c|] && s[..|d|][|c|] == s[|c|];
    } else {
      assert s[..|c|][..|d|] == s[..|d|] && s[..|c|][|d|] == s[|d|];
    }
  }

  lemma KeysMeet(c: string, rest: string, d: string, r: Resource, q: Resource)
    requires d == c + "|" + rest && ResourceName(r) == ResourceName(q)
    ensures TopicKey(Topic(c, rest + "|", r)) == TopicKey(Topic(d, "", q))
  {
  }

  datatype Ready = Connecting | Open | Closed

  /** Live: the callbacks of connect; CloseOnOpen and Detached: what close() leaves behind. */
  datatype Hooks = Live | CloseOnOpen | Detached

  datatype Socket = Socket(ready: Ready, hooks: Hooks, sent: seq<WireFrame>)

  /** A subscription object; the cancel function returned to a component keeps a reference to it. */
  datatype Subscription = Subscription(topic: Topic, handlers: set<nat>)

  ghost predicate Shaped(subs: map<string, nat>, objects: map<nat, Subscription>) {
    forall k :: k in subs ==> subs[k] in objects && TopicKey(objects[subs[k]].topic) == k
  }

  /** The topics of the current subscriptions. */
  ghost function TopicsOf(subs: map<string, nat>, objects: map<nat, Subscription>): set<Topic>
    requires Shaped(subs, objects)
  {
    set k | k in subs :: objects[subs[k]].topic
  }

  lemma TopicsAdded(subs: map<string, nat>, objects: map<nat, Subscription>, o: nat, s: Subscription)
    requires Shaped(subs, objects) && o !in objects && TopicKey(s.topic) !in subs
    ensures var subs', objects' := subs[TopicKey(s.topic) := o], objects[o := s];
            Shaped(subs', objects') && TopicsOf(subs', objects') == TopicsOf(subs, objects) + {s.topic}
  {
    var subs', objects' := subs[TopicKey(s.topic) := o], objects[o := s];
    assert forall k :: k in subs ==> k in subs' && objects'[subs'[k]] == objects[subs[k]];
    assert TopicKey(s.topic) in subs' && objects'[subs'[TopicKey(s.topic)]] == s;
  }

  lemma TopicsRemoved(subs: map<string, nat>, objects: map<nat, Subscription>, key: string)
    requires Shaped(subs, objects) && key in subs
    ensures Shaped(subs - {key}, objects)
    ensures TopicsOf(subs - {key}, objects) == TopicsOf(subs, objects) - {objects[subs[key]].topic}
  {
    assert forall k :: k in subs && k != key ==> k in subs - {key} && objects[subs[k]].topic != objects[subs[key]].topic;
  }

  /** Only handlers changed. */
  lemma TopicsKept(subs: map<string, nat>, objects: map<nat, Subscription>, o: nat, handlers: set<nat>)
    requires Shaped(subs, objects) && o in objects
    ensures Shaped(subs, objects[o := objects[o].(handlers := handlers)])
    ensures TopicsOf(subs, objects[o := objects[o].(handlers := handlers)]) == TopicsOf(subs, objects)
  {
    var objects' := objects[o := objects[o].(handlers := handlers)];
    assert forall k :: k in subs ==> objects'[subs[k]].topic == objects[subs[k]].topic;
  }

  /** The frames subscribe every current topic but those of the keys still to do. */
  ghost predicate Replayed(frames: seq<WireFrame>, subs: map<string, nat>, objects: map<nat, Subscription>, todo: set<string>)
    requires Shaped(subs, objects)
  {
    Net(frames) == set k | k in subs && k !in todo :: objects[subs[k]].topic
  }

  lemma ReplayedSnoc(frames: seq<WireFrame>, subs: map<string, nat>, objects: map<nat, Subscription>, todo: set<string>,
                     k: string)
    requires Shaped(subs, objects) && Replayed(frames, subs, objects, todo) && k in todo && k in subs
    ensures Replayed(frames + [SubscribeFrame(objects[subs[k]].topic)], subs, objects, todo - {k})
  {
    NetSnoc(frames, SubscribeFrame(objects[subs[k]].topic));
  }

  /** The filter of onMessage: an empty namespace takes every event of its cluster and resource. */
  predicate Receives(t: Topic, cluster: string, resource: Resource, namespace: string) {
    (t.namespace == "" || t.namespace == namespace) && t.cluster == cluster && t.resource == resource
  }

  const RECONNECT_MIN_MS := 1000
  const RECONNECT_MAX_MS := 30000

  /** The longest delay once n timers were started since a socket last opened. */
  function BaseMs(n: nat): (base: int)
    ensures RECONNECT_MIN_MS <= base <= RECONNECT_MAX_MS
  {
    Min(RECONNECT_MIN_MS * Pow2(n), RECONNECT_MAX_MS)
  }

  /** base / 2 + random * (base / 2) */
  function Jittered(base: int, random: real): real {
    base as real / 2.0 + random * (base as real / 2.0)
  }

  predicate UpperHalf(base: int, delay: real) {
    base as real / 2.0 <= delay < base as real
  }

  lemma JitterInRange(base: int, random: real)
    requires base > 0 && 0.0 <= random < 1.0
    ensures UpperHalf(base, Jittered(base, random))
  {
    var half := base as real / 2.0;
    assert half > 0.0;
    assert random * half < half;
  }

  class WsManager {
    var sockets: map<nat, Socket>
    var nextSocket: nat
    var ws: Option<nat>
    var objects: map<nat, Subscription>
    var nextObject: nat
    var subs: map<string, nat>
    var connecting: bool
    var pendingClose: bool
    var heartbeat: bool
    var reconnectTimer: bool
    var retry: nat
    ghost var quiet: bool  // closed by hand since the last connection attempt

    predicate IsOpen()
      reads this`ws, this`sockets
    {
      ws.Some? && ws.value in sockets && sockets[ws.value].ready.Open?
    }

    /** connect() does nothing any more and no event will change that. */
    ghost predicate Stuck()
      reads this`ws, this`connecting
    {
      connecting && ws == None
    }

    ghost predicate SocketsOk()
      reads this`sockets, this`nextSocket, this`ws, this`connecting, this`pendingClose, this`heartbeat
    {
      && (forall s :: s in sockets ==> s < nextSocket)
      && (ws.Some? ==> ws.value in sockets && sockets[ws.value].hooks.Live? && !sockets[ws.value].ready.Closed?)
      && (forall s :: s in sockets && (sockets[s].ready.Open? || (sockets[s].hooks.Live? && !sockets[s].ready.Closed?)) ==>
            ws == Some(s))
      && (ws.Some? ==> (connecting <==> sockets[ws.value].ready.Connecting?))
      && (pendingClose ==> Stuck())
      && (heartbeat <==> IsOpen())
      && (forall s :: s in sockets && sockets[s].ready.Connecting? ==> sockets[s].sent == [] && !sockets[s].hooks.Detached?)
    }

    ghost predicate SubsShape()
      reads this`subs, this`objects, this`nextObject
    {
      (forall o :: o in objects ==> o < nextObject) && Shaped(subs, objects)
    }

    /** Every current subscription, except possibly one, still has a handler. */
    ghost predicate Handled(except: set<string>)
      reads this`subs, this`objects
    {
      forall k :: k in subs && k !in except ==> subs[k] in objects && objects[subs[k]].handlers != {}
    }

    /** The frames on an open socket amount to the current subscriptions. */
    ghost predicate WireOk()
      reads this`ws, this`sockets, this`subs, this`objects, this`nextObject
      requires SubsShape()
    {
      IsOpen() ==> Net(sockets[ws.value].sent) == TopicsOf(subs, objects)
    }

    ghost predicate Valid()
      reads this
    {
      && SocketsOk() && SubsShape() && Handled({}) && WireOk()
      // subscriptions have a socket or a timer, unless the manager is stuck or was closed by hand
      && (subs != map[] ==> ws.Some? || reconnectTimer || Stuck() || quiet)
    }

    constructor ()
      ensures Valid() && subs == map[] && sockets == map[] && !Stuck()
    {
      sockets, nextSocket, ws := map[], 0, None;
      objects, nextObject, subs := map[], 0, map[];
      connecting, pendingClose, heartbeat, reconnectTimer, retry, quiet := false, false, false, false, 0, false;
    }

    /** send: frames to a socket that is not open are dropped. */
    method Send(f: WireFrame)
      requires SocketsOk()
      modifies this`sockets
      ensures SocketsOk()
      ensures sockets == if !old(IsOpen()) then old(sockets)
                         else old(sockets)[ws.value := old(sockets)[ws.value].(sent := old(sockets)[ws.value].sent + [f])]
    {
      if ws.Some? && sockets[ws.value].ready.Open? {
        var s := sockets[ws.value];
        sockets := sockets[ws.value := s.(sent := s.sent + [f])];
      }
    }

    method Connect()
      requires SocketsOk()
      modifies this`sockets, this`nextSocket, this`ws, this`connecting, this`quiet
      ensures SocketsOk()
      ensures Stuck() <==> old(Stuck())
      ensures old(connecting || ws.Some?) ==> sockets == old(sockets) && ws == old(ws)
      ensures !old(connecting || ws.Some?) ==>
                ws == Some(old(nextSocket)) && sockets == old(sockets)[old(nextSocket) := Socket(Connecting, Live, [])]
      ensures !Stuck() ==> ws.Some?
      ensures old(connecting || ws.Some?) ==> quiet == old(quiet)
    {
      if connecting || ws.Some? {
        return;
      }
      connecting := true;
      quiet := false;
      sockets := sockets[nextSocket := Socket(Connecting, Live, [])];
      ws := Some(nextSocket);
      nextSocket := nextSocket + 1;
    }

    /** The delay in milliseconds, if a timer is started; random is the result of Math.random. */
    method ScheduleReconnect(random: real) returns (delay: Option<real>)
      requires 0.0 <= random < 1.0
      modifies this`reconnectTimer, this`retry
      ensures reconnectTimer == (old(reconnectTimer) || subs != map[])
      ensures delay.Some? <==> reconnectTimer && !old(reconnectTimer)
      ensures delay.Some? ==> UpperHalf(Min(1000 * Pow2(old(retry)), 30000), delay.value)
      ensures retry == old(retry) + if !old(reconnectTimer) && subs != map[] then 1 else 0
    {
      if reconnectTimer || subs == map[] {
        return None;
      }
      delay := Some(Jittered(BaseMs(retry), random));
      JitterInRange(BaseMs(retry), random);
      retry := retry + 1;
      reconnectTimer := true;
    }

    /** The reconnect timer fires. */
    method Reconnect()
      requires Valid() && reconnectTimer
      modifies this
      ensures Valid() && subs == old(subs) && objects == old(objects)
      ensures (Stuck() <==> old(Stuck())) && (Stuck() ==> sockets == old(sockets))
      ensures !Stuck() ==> ws.Some?
    {
      reconnectTimer := false;
      Connect();
    }

    // ---- Socket events ----

    /** A connecting socket opens. */
    method OnOpen(s: nat)
      requires Valid() && s in sockets && sockets[s].ready.Connecting?
      modifies this
      ensures Valid() && subs == old(subs) && objects == old(objects)
      ensures Stuck() <==> old(Stuck())
      ensures ws == old(ws) && (ws == Some(s) ==> IsOpen() && retry == 0)
      ensures ws != Some(s) ==> sockets.Keys == old(sockets).Keys && sockets[s].sent == old(sockets)[s].sent
    {
      if sockets[s].hooks.Live? {
        assert !pendingClose;  // the deferred-close branch of this callback is never taken
        sockets := sockets[s := sockets[s].(ready := Open)];
        connecting, heartbeat, retry := false, true, 0;
        Replay();
      } else {
        // close() replaced the callback: the socket closes as soon as it opens
        sockets := sockets[s := sockets[s].(ready := Closed)];
      }
    }

    /** Subscribes every topic on the socket that just opened. */
    method Replay()
      requires SocketsOk() && SubsShape() && IsOpen() && sockets[ws.value].sent == []
      modifies this`sockets
      ensures SocketsOk() && IsOpen() && WireOk() && sockets.Keys == old(sockets).Keys
    {
      var todo := subs.Keys;
      while todo != {}
        invariant todo <= subs.Keys && SocketsOk() && IsOpen() && sockets.Keys == old(sockets).Keys
        invariant Replayed(sockets[ws.value].sent, subs, objects, todo)
        decreases todo
      {
        var k :| k in todo;
        ReplayedSnoc(sockets[ws.value].sent, subs, objects, todo, k);
        todo := todo - {k};
        Send(SubscribeFrame(objects[subs[k]].topic));
      }
    }

    /** A socket fails to connect or drops; it is closed in the same step as its callback. */
    method OnClose(s: nat, random: real) returns (delay: Option<real>)
      requires 0.0 <= random < 1.0
      requires Valid() && s in sockets && !sockets[s].ready.Closed?
      modifies this
      ensures Valid() && subs == old(subs) && objects == old(objects)
      ensures Stuck() <==> old(Stuck())
      ensures old(ws) == Some(s) ==> ws == None && (subs != map[] ==> reconnectTimer)
      ensures old(ws) != Some(s) ==> ws == old(ws) && reconnectTimer == old(reconnectTimer)
      ensures delay.Some? ==> UpperHalf(Min(1000 * Pow2(old(retry)), 30000), delay.value)
    {
      if sockets[s].hooks.Live? {
        LoseCurrent(s);
        delay := ScheduleReconnect(random);
      } else {
        sockets := sockets[s := sockets[s].(ready := Closed)];
        delay := None;
      }
    }

    method LoseCurrent(s: nat)
      requires SocketsOk() && ws == Some(s)
      modifies this`sockets, this`ws, this`connecting, this`heartbeat
      ensures SocketsOk() && ws == None && !Stuck()
    {
      connecting, heartbeat, ws := false, false, None;
      sockets := sockets[s := sockets[s].(ready := Closed)];
    }

    /**
     * An event frame: every handler of every current subscription it matches is called once. A call is
     * a pair of the subscription object and the handler.
     */
    method OnMessage(cluster: string, resource: Resource, namespace: string) returns (calls: multiset<(nat, nat)>)
      requires SubsShape()
      ensures forall o, h :: calls[(o, h)] ==
                if o in subs.Values && Receives(objects[o].topic, cluster, resource, namespace) && h in objects[o].handlers
                then 1 else 0
    {
      calls := multiset{};
      var todo := subs.Keys;
      while todo != {}
        invariant todo <= subs.Keys
        invariant forall o, h :: calls[(o, h)] ==
                    if Handles(o, subs.Keys - todo, cluster, resource, namespace) && h in objects[o].handlers then 1 else 0
        decreases todo
      {
        var k :| k in todo;
        todo := todo - {k};
        var o := subs[k];
        if Receives(objects[o].topic, cluster, resource, namespace) {
          calls := calls + multiset(set h | h in objects[o].handlers :: (o, h));
        }
      }
    }

    /** The object is the current subscription of one of the keys, and receives the event. */
    ghost predicate Handles(o: nat, keys: set<string>, cluster: string, resource: Resource, namespace: string)
      requires SubsShape() && keys <= subs.Keys
      reads this`subs, this`objects, this`nextObject
    {
      o in objects && TopicKey(objects[o].topic) in keys && subs[TopicKey(objects[o].topic)] == o &&
      Receives(objects[o].topic, cluster, resource, namespace)
    }

    // ---- Components ----

    /** Returns the subscription object; a component cancels by calling Cancel with it. */
    method Subscribe(topic: Topic, handler: nat) returns (o: nat)
      requires Valid()
      modifies this
      ensures Valid() && (Stuck() <==> old(Stuck())) && (Stuck() ==> sockets == old(sockets))
      ensures TopicKey(topic) in old(subs) ==>
                o == old(subs)[TopicKey(topic)] && subs == old(subs) && sockets == old(sockets) &&
                objects == old(objects)[o := old(objects)[o].(handlers := old(objects)[o].handlers + {handler})]
      ensures TopicKey(topic) !in old(subs) ==>
                o == old(nextObject) && subs == old(subs)[TopicKey(topic) := o] &&
                objects == old(objects)[o := Subscription(topic, {handler})]
      ensures TopicKey(topic) !in old(subs) && !Stuck() ==>
                ws.Some? && (old(ws) == None ==> sockets[ws.value].ready.Connecting?)
    {
      var key := TopicKey(topic);
      if key in subs {
        o := subs[key];
        TopicsKept(subs, objects, o, objects[o].handlers + {handler});
        objects := objects[o := objects[o].(handlers := objects[o].handlers + {handler})];
      } else {
        o := SubscribeFirst(topic, handler);
      }
    }

    method SubscribeFirst(topic: Topic, handler: nat) returns (o: nat)
      requires Valid() && TopicKey(topic) !in subs
      modifies this
      ensures Valid() && (Stuck() <==> old(Stuck())) && (Stuck() ==> sockets == old(sockets))
      ensures o == old(nextObject) && subs == old(subs)[TopicKey(topic) := o]
      ensures objects == old(objects)[o := Subscription(topic, {handler})]
      ensures !Stuck() ==> ws.Some? && (old(ws) == None ==> sockets[ws.value].ready.Connecting?)
    {
      o := nextObject;
      nextObject := nextObject + 1;
      TopicsAdded(subs, objects, o, Subscription(topic, {handler}));
      objects := objects[o := Subscription(topic, {handler})];
      subs := subs[TopicKey(topic) := o];
      Announce(topic);
    }

    /** Connects if needed and sends the subscription if the socket is open already. */
    method Announce(topic: Topic)
      requires SocketsOk() && SubsShape()
      requires IsOpen() ==> Net(sockets[ws.value].sent) + {topic} == TopicsOf(subs, objects)
      modifies this`sockets, this`nextSocket, this`ws, this`connecting, this`quiet
      ensures SocketsOk() && WireOk()
      ensures (Stuck() <==> old(Stuck())) && (Stuck() ==> sockets == old(sockets))
      ensures !Stuck() ==> ws.Some? && (old(ws) == None ==> sockets[ws.value].ready.Connecting?)
    {
      Connect();
      if IsOpen() {
        NetSnoc(sockets[ws.value].sent, SubscribeFrame(topic));
      }
      Send(SubscribeFrame(topic));
    }

    /** What a component's cancel function does, any number of times. */
    method Cancel(o: nat, handler: nat)
      requires Valid() && o in objects
      modifies this
      ensures Valid()
      ensures var left, key := old(objects)[o].handlers - {handler}, TopicKey(old(objects)[o].topic);
              && objects == old(objects)[o := old(objects)[o].(handlers := left)]
              && subs == (if left == {} then old(subs) - {key} else old(subs))
              // other subscriptions are spared unless an object nobody listens to any more is
              // cancelled again while a new subscription holds its key
              && ((forall k :: k in old(subs) && old(subs)[k] != o ==> k in subs) <==>
                  !(left == {} && key in old(subs) && old(subs)[key] != o))
              // cancelling the last subscription of a connecting socket is the one way to get stuck
              && (Stuck() <==> old(Stuck()) || (left == {} && old(LastOfConnecting(key))))
    {
      var left, key := objects[o].handlers - {handler}, TopicKey(objects[o].topic);
      TopicsKept(subs, objects, o, left);
      objects := objects[o := objects[o].(handlers := left)];
      if left == {} {
        Unsubscribe(key);
      }
    }

    ghost predicate LastOfConnecting(key: string)
      reads this
    {
      subs.Keys == {key} && ws.Some? && ws.value in sockets && sockets[ws.value].ready.Connecting?
    }

    method Unsubscribe(key: string)
      requires SocketsOk() && SubsShape() && Handled({key}) && WireOk()
      requires subs != map[] ==> ws.Some? || reconnectTimer || Stuck() || quiet
      modifies this
      ensures Valid() && subs == old(subs) - {key} && objects == old(objects)
      ensures Stuck() <==> old(Stuck() || LastOfConnecting(key))
    {
      if key !in subs {
        return;
      }
      var f := UnsubscribeFrame(objects[subs[key]].topic);
      TopicsRemoved(subs, objects, key);
      subs := subs - {key};
      if IsOpen() {
        NetSnoc(sockets[ws.value].sent, f);
      }
      Send(f);
      if subs == map[] {
        Close();
      }
    }

    /** Closes the current socket; one that is still connecting is closed when it opens. */
    method Close()
      requires SocketsOk() && SubsShape() && Handled({}) && WireOk()
      modifies this
      ensures Valid() && subs == old(subs) && objects == old(objects)
      ensures ws == None && !reconnectTimer && !heartbeat
      ensures Stuck() <==> old(Stuck() || (ws.Some? && sockets[ws.value].ready.Connecting?))
    {
      reconnectTimer := false;
      quiet := true;
      Abandon();
    }

    /** Lets go of the current socket, if any. */
    method Abandon()
      requires SocketsOk()
      modifies this`sockets, this`ws, this`pendingClose, this`heartbeat
      ensures SocketsOk() && ws == None && !heartbeat
      ensures Stuck() <==> old(Stuck() || (ws.Some? && sockets[ws.value].ready.Connecting?))
    {
      var current := ws;
      heartbeat, ws, pendingClose := false, None, false;
      if current.Some? {
        var s := sockets[current.value];
        if s.ready.Connecting? {
          pendingClose := true;
          sockets := sockets[current.value := s.(hooks := CloseOnOpen)];
        } else {
          sockets := sockets[current.value := s.(hooks := Detached, ready := Closed)];
        }
      }
    }
  }

  /**
   * A cancel function called twice drops another component's subscription, in any state: the second
   * call finds no handlers on its own object and unsubscribes whatever now holds the key.
   */
  method StaleCancelDropsSubscription(m: WsManager, topic: Topic, h1: nat, h2: nat) returns (other: nat)
    requires m.Valid() && TopicKey(topic) !in m.subs
    modifies m
    ensures m.Valid() && other in m.objects && m.objects[other] == Subscription(topic, {h2})
    ensures TopicKey(topic) !in m.subs
  {
    var first := ComeAndGo(m, topic, h1);
    other := m.Subscribe(topic, h2);
    m.Cancel(first, h1);
  }

  /** A component that subscribes and cancels leaves an object without handlers. */
  method ComeAndGo(m: WsManager, topic: Topic, handler: nat) returns (first: nat)
    requires m.Valid() && TopicKey(topic) !in m.subs
    modifies m
    ensures m.Valid() && TopicKey(topic) !in m.subs
    ensures first in m.objects && m.objects[first] == Subscription(topic, {})
  {
    first := m.Subscribe(topic, handler);
    m.Cancel(first, handler);
  }

  /** Cancelling the only subscription before its socket opens leaves a manager that never connects again. */
  method CloseWhileConnectingSticks(m: WsManager, topic: Topic, handler: nat) returns (o: nat)
    requires m.Valid() && m.subs == map[] && m.ws == None
    modifies m
    ensures m.Valid() && m.Stuck() && TopicKey(topic) in m.subs && m.objects[m.subs[TopicKey(topic)]].topic == topic
  {
    var first := m.Subscribe(topic, handler);
    assert m.subs.Keys == {TopicKey(topic)};
    m.Cancel(first, handler);
    assert m.Stuck() && TopicKey(topic) !in m.subs;
    o := m.Subscribe(topic, handler);
  }
}
