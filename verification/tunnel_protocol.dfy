/**
 * The reverse tunnel as a protocol: dials, data channels and agent sessions interleave in steps the
 * size of one lock section, one channel operation or one network event.
 */
module TunnelProtocol {
  import opened Wrappers
  import opened TunnelRegistry

  /** DialContext for a cluster: from the session lookup to the deferred dropPipe. */
  datatype Dial =
    | Looking(cluster: string, session: Session)
    | Sending(cluster: string, id: Secret)
    | Waiting(cluster: string, id: Secret)
    | Dropping(cluster: string, id: Secret, got: Option<nat>)
    | Returned(cluster: string, id: Secret, got: Option<nat>)
    | Refused(cluster: string)

  /** ServeData after a successful claim; id and key are what the agent presented. */
  datatype Stage = Claimed | Upgraded | Injected | Discarded | Failed
  datatype Channel = Channel(id: Secret, key: Secret, stage: Stage)

  /** register between its two lock sections. */
  datatype Takeover = MustClose(old': Session) | MustInstall

  /** Where a pipe came from: the dial, its cluster, and the map entry of that cluster at that moment. */
  datatype Origin = Origin(dial: nat, cluster: string, session: Session)

  datatype State = State(
    reg: Registry,
    known: set<Session>,               // sessions ever created
    open: set<Session>,                // sessions not closed
    pending: map<Session, Takeover>,   // registrations in progress
    dials: map<nat, Dial>,
    channels: map<nat, Channel>,
    buffers: map<Secret, Option<nat>>, // the one-place channel of each pipe
    origin: map<Secret, Origin>)       // every pipe ever taken

  const INITIAL := State(Registry(map[], map[]), {}, {}, map[], map[], map[], map[], map[])

  datatype Action =
    | StartDial(d: nat, cluster: string)
    | TakePipe(d: nat, id: Secret)
    | SendDial(d: nat, ok: bool)
    | Receive(d: nat)
    | GiveUp(d: nat)                     // DialWait elapsed or the caller cancelled
    | DropPipe(d: nat)
    | Claim(c: nat, id: Secret, key: Secret)
    | Upgrade(c: nat, ok: bool)
    | Inject(c: nat)
    | Register(s: Session)               // both lock sections of register as one step
    | BeginRegister(s: Session)
    | CloseOld(s: Session)
    | Install(s: Session)
    | CloseSession(s: Session)           // failed registration, read error, half of Close
    | Evict(s: Session)
    | CloseHub                           // Close as one step
    | TakeSessions                       // the locked half of Close

  /** A session that was never seen before, under a key that was never drawn before. */
  predicate Newcomer(s: State, x: Session) {
    forall y :: y in s.known ==> y.id != x.id && y.key != x.key
  }

  predicate Enabled(s: State, a: Action) {
    match a
    case StartDial(d, cluster) => d !in s.dials
    case TakePipe(d, id) => d in s.dials && s.dials[d].Looking? && id !in s.origin
    case SendDial(d, _) => d in s.dials && s.dials[d].Sending?
    case Receive(d) => d in s.dials && s.dials[d].Waiting? && s.dials[d].id in s.buffers && s.buffers[s.dials[d].id].Some?
    case GiveUp(d) => d in s.dials && s.dials[d].Waiting?
    case DropPipe(d) => d in s.dials && s.dials[d].Dropping?
    case Claim(c, _, _) => c !in s.channels
    case Upgrade(c, _) => c in s.channels && s.channels[c].stage.Claimed?
    case Inject(c) => c in s.channels && s.channels[c].stage.Upgraded?
    case Register(x) => Newcomer(s, x)
    case BeginRegister(x) => Newcomer(s, x)
    case CloseOld(x) => x in s.pending && s.pending[x].MustClose?
    case Install(x) => x in s.pending && s.pending[x].MustInstall?
    case CloseSession(x) => x in s.known && x !in s.pending
    case Evict(x) => x in s.known && x !in s.open && x !in s.pending
    case CloseHub => true
    case TakeSessions => true
  }

  function Apply(s: State, a: Action): State
    requires Enabled(s, a)
  {
    match a
    case StartDial(d, cluster) =>
      s.(dials := s.dials[d := if cluster in s.reg.sessions then Looking(cluster, s.reg.sessions[cluster]) else Refused(cluster)])
    case TakePipe(d, id) =>
      var cluster, key := s.dials[d].cluster, s.dials[d].session.key;
      if CurrentKey(s.reg, cluster) != Some(key) then s.(dials := s.dials[d := Refused(cluster)])
      else s.(reg := WithPipe(s.reg, id, cluster, key),
              dials := s.dials[d := Sending(cluster, id)],
              buffers := s.buffers[id := None],
              origin := s.origin[id := Origin(d, cluster, s.reg.sessions[cluster])])
    case SendDial(d, ok) =>
      var cluster, id := s.dials[d].cluster, s.dials[d].id;
      s.(dials := s.dials[d := if ok then Waiting(cluster, id) else Dropping(cluster, id, None)])
    case Receive(d) =>
      var id := s.dials[d].id;
      s.(dials := s.dials[d := Dropping(s.dials[d].cluster, id, s.buffers[id])], buffers := s.buffers[id := None])
    case GiveUp(d) => s.(dials := s.dials[d := Dropping(s.dials[d].cluster, s.dials[d].id, None)])
    case DropPipe(d) =>
      var dial := s.dials[d];
      s.(reg := WithoutPipe(s.reg, dial.id), dials := s.dials[d := Returned(dial.cluster, dial.id, dial.got)])
    case Claim(c, id, key) =>
      if Claimable(s.reg, id, key) then
        s.(reg := WithoutPipe(s.reg, id), channels := s.channels[c := Channel(id, key, Claimed)])
      else s
    case Upgrade(c, ok) => s.(channels := s.channels[c := s.channels[c].(stage := if ok then Upgraded else Failed)])
    case Inject(c) =>
      var id := s.channels[c].id;
      if id in s.buffers && s.buffers[id] == None then
        s.(buffers := s.buffers[id := Some(c)], channels := s.channels[c := s.channels[c].(stage := Injected)])
      else s.(channels := s.channels[c := s.channels[c].(stage := Discarded)])
    case Register(x) =>
      var closed := if x.cluster in s.reg.sessions then {s.reg.sessions[x.cluster]} else {};
      s.(reg := Installed(s.reg, x), known := s.known + {x}, open := s.open - closed + {x})
    case BeginRegister(x) =>
      var born := s.(known := s.known + {x}, open := s.open + {x});
      if x.cluster in s.reg.sessions then born.(pending := s.pending[x := MustClose(s.reg.sessions[x.cluster])])
      else born.(reg := Installed(s.reg, x))
    case CloseOld(x) => s.(open := s.open - {s.pending[x].old'}, pending := s.pending[x := MustInstall])
    case Install(x) => s.(reg := Installed(s.reg, x), pending := s.pending - {x})
    case CloseSession(x) => s.(open := s.open - {x})
    case Evict(x) => s.(reg := Evicted(s.reg, x))
    case CloseHub => s.(reg := s.reg.(sessions := map[]), open := s.open - s.reg.sessions.Values)
    case TakeSessions => s.(reg := s.reg.(sessions := map[]))
  }

  // ---- Runs ----

  ghost predicate Legal(s: State, actions: seq<Action>)
    decreases |actions|
  {
    actions == [] || (Enabled(s, actions[0]) && Legal(Apply(s, actions[0]), actions[1..]))
  }

  ghost function Final(s: State, actions: seq<Action>): State
    requires Legal(s, actions)
    decreases |actions|
  {
    if actions == [] then s else Final(Apply(s, actions[0]), actions[1..])
  }

  // ---- Pipes, dials and data channels ----

  predicate Holding(dial: Dial, id: Secret) {
    (dial.Sending? || dial.Waiting? || dial.Dropping?) && dial.id == id
  }

  /** A registered pipe belongs to a dial still on its way to dropPipe; no channel has claimed it. */
  ghost predicate PipesInv(s: State) {
    forall id :: id in s.reg.pipes ==>
      && id in s.origin && s.origin[id].dial in s.dials && Holding(s.dials[s.origin[id].dial], id)
      && s.reg.pipes[id].sessionKey == s.origin[id].session.key
      && forall c :: c in s.channels ==> s.channels[c].id != id
  }

  /** A channel carries the key its pipe was taken under; a pipe has at most one channel. */
  ghost predicate ChannelsInv(s: State) {
    && (forall c :: c in s.channels ==>
          s.channels[c].id in s.origin && s.channels[c].key == s.origin[s.channels[c].id].session.key &&
          !s.channels[c].stage.Discarded?)
    && (forall c, e :: c in s.channels && e in s.channels && s.channels[c].id == s.channels[e].id ==> c == e)
  }

  /** A buffer holds only the injected channel of its own pipe. */
  ghost predicate BuffersInv(s: State) {
    && s.buffers.Keys == s.origin.Keys
    && (forall id :: id in s.buffers && s.buffers[id].Some? ==>
          var c := s.buffers[id].value; c in s.channels && s.channels[c].id == id && s.channels[c].stage.Injected?)
  }

  /** A dial works with the pipe it took, and what it received came through that pipe. */
  ghost predicate DialsInv(s: State) {
    && (forall d :: d in s.dials && !s.dials[d].Looking? && !s.dials[d].Refused? ==>
          s.dials[d].id in s.origin && s.origin[s.dials[d].id].dial == d &&
          s.origin[s.dials[d].id].cluster == s.dials[d].cluster)
    && (forall d :: d in s.dials && (s.dials[d].Dropping? || s.dials[d].Returned?) && s.dials[d].got.Some? ==>
          s.dials[d].got.value in s.channels && s.channels[s.dials[d].got.value].id == s.dials[d].id)
  }

  ghost predicate Inv(s: State) {
    PipesInv(s) && ChannelsInv(s) && BuffersInv(s) && DialsInv(s)
  }

  lemma InvFrame(s: State, t: State)
    requires Inv(s) && t == s.(reg := t.reg, known := t.known, open := t.open, pending := t.pending)
    requires t.reg.pipes == s.reg.pipes
    ensures Inv(t)
  {
    assert PipesInv(t);
    assert ChannelsInv(t);
    assert BuffersInv(t);
    assert DialsInv(t);
  }

  lemma InvStartDial(s: State, a: Action)
    requires Inv(s) && a.StartDial? && Enabled(s, a)
    ensures Inv(Apply(s, a))
  {
  }

  /** A fresh pipe for a looking dial. */
  ghost predicate NewPipe(s: State, t: State, d: nat, id: Secret, cluster: string, x: Session) {
    && d in s.dials && s.dials[d].Looking? && id !in s.origin
    && t.reg.pipes == s.reg.pipes[id := Pipe(cluster, x.key)]
    && s.dials[d].cluster == cluster && t.dials == s.dials[d := Sending(cluster, id)] && t.channels == s.channels
    && t.buffers == s.buffers[id := None] && t.origin == s.origin[id := Origin(d, cluster, x)]
  }

  lemma NewPipePipes(s: State, t: State, d: nat, id: Secret, cluster: string, x: Session)
    requires Inv(s) && NewPipe(s, t, d, id, cluster, x)
    ensures PipesInv(t)
  {
  }

  lemma NewPipeRest(s: State, t: State, d: nat, id: Secret, cluster: string, x: Session)
    requires Inv(s) && NewPipe(s, t, d, id, cluster, x)
    ensures ChannelsInv(t) && BuffersInv(t) && DialsInv(t)
  {
  }

  lemma InvTakePipe(s: State, a: Action)
    requires Inv(s) && a.TakePipe? && Enabled(s, a)
    ensures Inv(Apply(s, a))
  {
    var dial, t := s.dials[a.d], Apply(s, a);
    if CurrentKey(s.reg, dial.cluster) == Some(dial.session.key) {
      var x := s.reg.sessions[dial.cluster];
      assert t.reg.pipes == s.reg.pipes[a.id := Pipe(dial.cluster, x.key)];
      NewPipePipes(s, t, a.d, a.id, dial.cluster, x);
      NewPipeRest(s, t, a.d, a.id, dial.cluster, x);
    } else {
      assert DialsInv(t);
    }
  }

  lemma InvSendDial(s: State, a: Action)
    requires Inv(s) && a.SendDial? && Enabled(s, a)
    ensures Inv(Apply(s, a))
  {
  }

  lemma InvReceive(s: State, a: Action)
    requires Inv(s) && a.Receive? && Enabled(s, a)
    ensures Inv(Apply(s, a))
  {
  }

  lemma InvGiveUp(s: State, a: Action)
    requires Inv(s) && a.GiveUp? && Enabled(s, a)
    ensures Inv(Apply(s, a))
  {
  }

  lemma InvDropPipe(s: State, a: Action)
    requires Inv(s) && a.DropPipe? && Enabled(s, a)
    ensures Inv(Apply(s, a))
  {
  }

  /** A pipe leaves the registry together with the channel that claims it. */
  ghost predicate Claiming(s: State, t: State, c: nat, id: Secret) {
    && c !in s.channels && id in s.reg.pipes
    && t.reg.pipes == s.reg.pipes - {id}
    && t.channels == s.channels[c := Channel(id, s.reg.pipes[id].sessionKey, Claimed)]
    && t.dials == s.dials && t.buffers == s.buffers && t.origin == s.origin
  }

  lemma ClaimingPipes(s: State, t: State, c: nat, id: Secret)
    requires Inv(s) && Claiming(s, t, c, id)
    ensures PipesInv(t) && ChannelsInv(t)
  {
  }

  lemma ClaimingRest(s: State, t: State, c: nat, id: Secret)
    requires Inv(s) && Claiming(s, t, c, id)
    ensures BuffersInv(t) && DialsInv(t)
  {
  }

  lemma InvClaim(s: State, a: Action)
    requires Inv(s) && a.Claim? && Enabled(s, a)
    ensures Inv(Apply(s, a))
  {
    if Claimable(s.reg, a.id, a.key) {
      assert Claiming(s, Apply(s, a), a.c, a.id);
      ClaimingPipes(s, Apply(s, a), a.c, a.id);
      ClaimingRest(s, Apply(s, a), a.c, a.id);
    }
  }

  lemma InvUpgrade(s: State, a: Action)
    requires Inv(s) && a.Upgrade? && Enabled(s, a)
    ensures Inv(Apply(s, a))
  {
  }

  /** A channel put into the empty buffer of its pipe. */
  ghost predicate Injection(s: State, t: State, c: nat) {
    && c in s.channels && s.channels[c].stage.Upgraded?
    && s.channels[c].id in s.buffers && s.buffers[s.channels[c].id] == None
    && t.buffers == s.buffers[s.channels[c].id := Some(c)]
    && t.channels == s.channels[c := s.channels[c].(stage := Injected)]
    && t.reg == s.reg && t.dials == s.dials && t.origin == s.origin
  }

  lemma InjectionChannels(s: State, t: State, c: nat)
    requires Inv(s) && Injection(s, t, c)
    ensures ChannelsInv(t) && PipesInv(t)
  {
  }

  lemma InjectionBuffers(s: State, t: State, c: nat)
    requires Inv(s) && Injection(s, t, c)
    ensures BuffersInv(t) && DialsInv(t)
  {
  }

  /** The buffer of a claimed pipe is still empty: no channel is ever discarded as a duplicate. */
  lemma InvInject(s: State, a: Action)
    requires Inv(s) && a.Inject? && Enabled(s, a)
    ensures Inv(Apply(s, a))
  {
    assert s.buffers[s.channels[a.c].id] == None;
    assert Injection(s, Apply(s, a), a.c);
    InjectionChannels(s, Apply(s, a), a.c);
    InjectionBuffers(s, Apply(s, a), a.c);
  }

  lemma InvStep(s: State, a: Action)
    requires Inv(s) && Enabled(s, a)
    ensures Inv(Apply(s, a))
  {
    match a {
      case TakePipe(_, _) => InvTakePipe(s, a);
      case SendDial(_, _) => InvSendDial(s, a);
      case Receive(_) => InvReceive(s, a);
      case GiveUp(_) => InvGiveUp(s, a);
      case DropPipe(_) => InvDropPipe(s, a);
      case Claim(_, _, _) => InvClaim(s, a);
      case Upgrade(_, _) => InvUpgrade(s, a);
      case Inject(_) => InvInject(s, a);
      case StartDial(_, _) => InvStartDial(s, a);
      case _ => InvFrame(s, Apply(s, a));
    }
  }

  lemma {:induction false} InvRun(s: State, actions: seq<Action>)
    requires Inv(s) && Legal(s, actions)
    ensures Inv(Final(s, actions))
    decreases |actions|
  {
    if actions != [] {
      InvStep(s, actions[0]);
      InvRun(Apply(s, actions[0]), actions[1..]);
    }
  }

  predicate InFlight(dial: Dial) {
    dial.Sending? || dial.Waiting? || dial.Dropping?
  }

  /**
   * In every run, however dials, data channels, takeovers and exits interleave: a pipe is claimed by
   * at most one channel; a dial gets only a channel that presented the id of its own pipe, taken for
   * its own cluster, and the key of that pipe's session; injection never finds the buffer taken; and the registry holds no pipe once
   * no dial is in flight.
   */
  lemma TunnelSafety(actions: seq<Action>)
    requires Legal(INITIAL, actions)
    ensures var s := Final(INITIAL, actions);
            && (forall c, e :: c in s.channels && e in s.channels && c != e ==> s.channels[c].id != s.channels[e].id)
            && (forall d :: d in s.dials && s.dials[d].Returned? && s.dials[d].got.Some? ==>
                  var c, id := s.dials[d].got.value, s.dials[d].id;
                  c in s.channels && s.channels[c].id == id && id in s.origin &&
                  s.origin[id].dial == d && s.origin[id].cluster == s.dials[d].cluster &&
                  s.channels[c].key == s.origin[id].session.key)
            && (forall c :: c in s.channels ==> !s.channels[c].stage.Discarded?)
            && ((forall d :: d in s.dials ==> !InFlight(s.dials[d])) ==> s.reg.pipes == map[])
  {
    InvRun(INITIAL, actions);
  }

  /** A pipe's origin is never rewritten. */
  lemma {:induction false} OriginStays(s: State, actions: seq<Action>, id: Secret)
    requires Legal(s, actions) && id in s.origin
    ensures id in Final(s, actions).origin && Final(s, actions).origin[id] == s.origin[id]
    decreases |actions|
  {
    if actions != [] {
      OriginStays(Apply(s, actions[0]), actions[1..], id);
    }
  }

  lemma {:induction false} LegalPrefix(s: State, actions: seq<Action>, i: nat)
    requires Legal(s, actions) && i <= |actions|
    ensures Legal(s, actions[..i])
    decreases i
  {
    if i > 0 {
      LegalPrefix(Apply(s, actions[0]), actions[1..], i - 1);
      assert actions[..i][1..] == actions[1..][..i - 1];
    }
  }

  /** Only TakePipe gives a pipe its origin, and it takes the session that is the cluster's entry then. */
  lemma TakesPipe(s: State, a: Action, id: Secret)
    requires Enabled(s, a) && id !in s.origin && id in Apply(s, a).origin
    ensures var o := Apply(s, a).origin[id];
            && a == TakePipe(o.dial, id) && s.dials[o.dial].cluster == o.cluster
            && o.cluster in s.reg.sessions && s.reg.sessions[o.cluster] == o.session
  {
  }

  /** The session in a pipe's origin was the map entry of the dial's cluster at the step that took the pipe. */
  lemma {:induction false} OriginWasCurrent(s: State, actions: seq<Action>, id: Secret) returns (i: nat)
    requires Legal(s, actions) && id !in s.origin && id in Final(s, actions).origin
    ensures i < |actions| && Legal(s, actions[..i])
    ensures var o, then' := Final(s, actions).origin[id], Final(s, actions[..i]);
            && actions[i] == TakePipe(o.dial, id)
            && o.dial in then'.dials && then'.dials[o.dial].Looking? && then'.dials[o.dial].cluster == o.cluster
            && o.cluster in then'.reg.sessions && then'.reg.sessions[o.cluster] == o.session
    decreases |actions|
  {
    var t := Apply(s, actions[0]);
    if id in t.origin {
      i := 0;
      TakesPipe(s, actions[0], id);
      OriginStays(t, actions[1..], id);
      assert actions[..0] == [];
    } else {
      var j := OriginWasCurrent(t, actions[1..], id);
      i := j + 1;
      LegalPrefix(s, actions, i);
      assert actions[..i][1..] == actions[1..][..j];
    }
  }

  // ---- Sessions ----

  /** Entries are filed under their cluster; ids and keys are never shared. */
  ghost predicate SessionsInv(s: State) {
    && (forall x, y :: x in s.known && y in s.known && (x.id == y.id || x.key == y.key) ==> x == y)
    && (forall c :: c in s.reg.sessions ==> s.reg.sessions[c].cluster == c && s.reg.sessions[c] in s.known)
    && s.open <= s.known && s.pending.Keys <= s.known
    && (forall c :: c in s.reg.sessions ==> s.reg.sessions[c] !in s.pending)
  }

  lemma SessionsInvRegister(s: State, x: Session)
    requires SessionsInv(s) && Newcomer(s, x)
    ensures SessionsInv(Apply(s, Register(x)))
  {
    assert Apply(s, Register(x)).pending == s.pending;
  }

  lemma SessionsInvInstall(s: State, x: Session)
    requires SessionsInv(s) && x in s.pending && s.pending[x].MustInstall?
    ensures SessionsInv(Apply(s, Install(x)))
  {
    assert Apply(s, Install(x)).known == s.known;
  }

  lemma SessionsInvTakeover(s: State, x: Session)
    requires SessionsInv(s) && Newcomer(s, x) && x.cluster in s.reg.sessions
    ensures SessionsInv(Apply(s, BeginRegister(x)))
  {
    assert Apply(s, BeginRegister(x)).reg == s.reg;
    assert Apply(s, BeginRegister(x)).pending.Keys == s.pending.Keys + {x};
  }

  lemma SessionsInvFirst(s: State, x: Session)
    requires SessionsInv(s) && Newcomer(s, x) && x.cluster !in s.reg.sessions
    ensures SessionsInv(Apply(s, BeginRegister(x)))
  {
    assert Apply(s, BeginRegister(x)).pending == s.pending;
  }

  lemma SessionsInvCloseOld(s: State, a: Action)
    requires SessionsInv(s) && Enabled(s, a) && a.CloseOld?
    ensures SessionsInv(Apply(s, a))
  {
  }

  lemma SessionsInvClose(s: State, a: Action)
    requires SessionsInv(s) && Enabled(s, a) && (a.CloseSession? || a.Evict? || a.CloseHub? || a.TakeSessions?)
    ensures SessionsInv(Apply(s, a))
  {
  }

  lemma SessionsInvStep(s: State, a: Action)
    requires SessionsInv(s) && Enabled(s, a)
    ensures SessionsInv(Apply(s, a))
  {
    if !TouchesSessions(a) {
      SessionsUntouched(s, a);
    } else if a.Register? {
      SessionsInvRegister(s, a.s);
    } else if a.Install? {
      SessionsInvInstall(s, a.s);
    } else if a.BeginRegister? {
      if a.s.cluster in s.reg.sessions {
        SessionsInvTakeover(s, a.s);
      } else {
        SessionsInvFirst(s, a.s);
      }
    } else if a.CloseOld? {
      SessionsInvCloseOld(s, a);
    } else {
      SessionsInvClose(s, a);
    }
  }

  predicate TouchesSessions(a: Action) {
    a.Register? || a.BeginRegister? || a.CloseOld? || a.Install? || a.CloseSession? || a.Evict? || a.CloseHub? || a.TakeSessions?
  }

  lemma SessionsUntouched(s: State, a: Action)
    requires Enabled(s, a) && !TouchesSessions(a)
    ensures var t := Apply(s, a);
            t.reg.sessions == s.reg.sessions && t.known == s.known && t.open == s.open && t.pending == s.pending
  {
  }

  lemma {:induction false} SessionsInvRun(s: State, actions: seq<Action>)
    requires SessionsInv(s) && Legal(s, actions)
    ensures SessionsInv(Final(s, actions))
    decreases |actions|
  {
    if actions != [] {
      SessionsInvStep(s, actions[0]);
      SessionsInvRun(Apply(s, actions[0]), actions[1..]);
    }
  }

  /** Steps that may replace or remove the entry x of its cluster. */
  predicate Displaces(a: Action, x: Session) {
    || (a.Register? && a.s.cluster == x.cluster)
    || (a.Install? && a.s.cluster == x.cluster)
    || a.CloseHub? || a.TakeSessions? || a == Evict(x)
  }

  lemma EntryStaysStep(s: State, a: Action, x: Session)
    requires SessionsInv(s) && Enabled(s, a) && !Displaces(a, x)
    requires x.cluster in s.reg.sessions && s.reg.sessions[x.cluster] == x
    ensures var t := Apply(s, a); x.cluster in t.reg.sessions && t.reg.sessions[x.cluster] == x
  {
    if !TouchesSessions(a) {
      SessionsUntouched(s, a);
    }
  }

  /**
   * A session stays its cluster's entry until a takeover, a shutdown or its own exit: the late exit
   * of a session it replaced never evicts it, under any interleaving.
   */
  lemma {:induction false} EntryStays(s: State, actions: seq<Action>, x: Session)
    requires SessionsInv(s) && Legal(s, actions)
    requires x.cluster in s.reg.sessions && s.reg.sessions[x.cluster] == x
    requires forall a :: a in actions ==> !Displaces(a, x)
    ensures var t := Final(s, actions); x.cluster in t.reg.sessions && t.reg.sessions[x.cluster] == x
    decreases |actions|
  {
    if actions != [] {
      SessionsInvStep(s, actions[0]);
      EntryStaysStep(s, actions[0], x);
      EntryStays(Apply(s, actions[0]), actions[1..], x);
    }
  }

  /** Every open session is its cluster's entry, or still between the two halves of register. */
  ghost predicate OneOpen(s: State) {
    forall x :: x in s.open ==> x in s.pending || (x.cluster in s.reg.sessions && s.reg.sessions[x.cluster] == x)
  }

  /** Actions of a hub whose register and Close run as single steps. */
  predicate Atomic(a: Action) {
    !a.BeginRegister? && !a.CloseOld? && !a.Install? && !a.TakeSessions?
  }

  lemma OneOpenStep(s: State, a: Action)
    requires SessionsInv(s) && OneOpen(s) && s.pending == map[] && Enabled(s, a) && Atomic(a)
    ensures OneOpen(Apply(s, a)) && Apply(s, a).pending == map[]
  {
    if !TouchesSessions(a) {
      SessionsUntouched(s, a);
    }
  }

  lemma {:induction false} OneOpenRun(s: State, actions: seq<Action>)
    requires SessionsInv(s) && OneOpen(s) && s.pending == map[] && Legal(s, actions)
    requires forall a :: a in actions ==> Atomic(a)
    ensures OneOpen(Final(s, actions)) && Final(s, actions).pending == map[]
    decreases |actions|
  {
    if actions != [] {
      var t := Apply(s, actions[0]);
      SessionsInvStep(s, actions[0]);
      OneOpenStep(s, actions[0]);
      OneOpenRun(t, actions[1..]);
    }
  }

  /** With register and Close as single steps, a cluster never has two open sessions. */
  lemma AtMostOneOpenSession(actions: seq<Action>)
    requires Legal(INITIAL, actions) && forall a :: a in actions ==> Atomic(a)
    ensures var s := Final(INITIAL, actions);
            forall x, y :: x in s.open && y in s.open && x.cluster == y.cluster ==> x == y
  {
    OneOpenRun(INITIAL, actions);
  }

  /**
   * register drops its lock while it closes the old session. Installing then keeps the property
   * exactly when the entry it overwrites, if any, is closed by now.
   */
  lemma InstallKeepsOneOpen(s: State, x: Session)
    requires SessionsInv(s) && OneOpen(s) && Enabled(s, Install(x))
    ensures OneOpen(Apply(s, Install(x))) <==>
            x.cluster !in s.reg.sessions || s.reg.sessions[x.cluster] !in s.open
  {
    var t := Apply(s, Install(x));
    if x.cluster in s.reg.sessions && s.reg.sessions[x.cluster] in s.open {
      var lost := s.reg.sessions[x.cluster];
      assert lost in t.open && lost !in t.pending && t.reg.sessions[x.cluster] == x != lost;
    }
  }

  /** Two agents that register at once can both stay open. */
  lemma SplitRegisterLeavesTwoOpen() returns (actions: seq<Action>, x: Session, y: Session)
    ensures Legal(INITIAL, actions)
    ensures var s := Final(INITIAL, actions); x != y && x in s.open && y in s.open && x.cluster == y.cluster
  {
    var first := Session(0, "c", 10);
    x, y := Session(1, "c", 11), Session(2, "c", 12);
    var s1 := Apply(INITIAL, BeginRegister(first));
    var s2 := Apply(s1, BeginRegister(x));
    var s3 := Apply(s2, BeginRegister(y));
    var s4 := Apply(s3, CloseOld(x));
    var s5 := Apply(s4, CloseOld(y));
    var s6 := Apply(s5, Install(x));
    actions := [];
    actions := Before(s6, Install(y), actions);
    actions := Before(s5, Install(x), actions);
    actions := Before(s4, CloseOld(y), actions);
    actions := Before(s3, CloseOld(x), actions);
    actions := Before(s2, BeginRegister(y), actions);
    actions := Before(s1, BeginRegister(x), actions);
    actions := Before(INITIAL, BeginRegister(first), actions);
  }

  lemma Before(s: State, a: Action, rest: seq<Action>) returns (actions: seq<Action>)
    requires Enabled(s, a) && Legal(Apply(s, a), rest)
    ensures actions == [a] + rest && Legal(s, actions) && Final(s, actions) == Final(Apply(s, a), rest)
  {
    actions := [a] + rest;
    assert actions[1..] == rest;
  }
}
