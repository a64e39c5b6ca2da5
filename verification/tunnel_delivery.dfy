/** What becomes of a data channel: a dial that receives gets it, and none is lost. */
module TunnelDelivery {
  import opened Wrappers
  import opened TunnelRegistry
  import opened TunnelProtocol

  // ---- A dial returns a connection exactly when it received one ----

  predicate Holds(s: State, d: nat) {
    d in s.dials && (s.dials[d].Dropping? || s.dials[d].Returned?) && s.dials[d].got.Some?
  }

  lemma HoldsStep(s: State, a: Action, d: nat)
    requires Enabled(s, a)
    ensures Holds(Apply(s, a), d) <==> Holds(s, d) || a == Receive(d)
  {
  }

  lemma {:induction false} HoldsRun(s: State, actions: seq<Action>, d: nat)
    requires Legal(s, actions)
    ensures Holds(Final(s, actions), d) <==> Holds(s, d) || Receive(d) in actions
    decreases |actions|
  {
    if actions != [] {
      HoldsStep(s, actions[0], d);
      HoldsRun(Apply(s, actions[0]), actions[1..], d);
      assert Receive(d) in actions <==> actions[0] == Receive(d) || Receive(d) in actions[1..];
    }
  }

  /** In every run a dial that has returned holds a connection if and only if it took one out of its pipe. */
  lemma ReturnsIffReceived(actions: seq<Action>, d: nat)
    requires Legal(INITIAL, actions) && d in Final(INITIAL, actions).dials && Final(INITIAL, actions).dials[d].Returned?
    ensures Final(INITIAL, actions).dials[d].got.Some? <==> Receive(d) in actions
  {
    HoldsRun(INITIAL, actions, d);
  }

  // ---- No injected channel is lost ----

  /** An injected channel is still in the buffer of its pipe, or in the hands of the dial that took the pipe. */
  ghost predicate Conserved(s: State) {
    forall c :: c in s.channels && s.channels[c].stage.Injected? ==> Kept(s, c)
  }

  ghost predicate Kept(s: State, c: nat)
    requires c in s.channels
  {
    var id := s.channels[c].id;
    || (id in s.buffers && s.buffers[id] == Some(c))
    || (id in s.origin && Holds(s, s.origin[id].dial) && s.dials[s.origin[id].dial].id == id &&
        s.dials[s.origin[id].dial].got == Some(c))
  }

  /** A dial that holds something never changes what it holds. */
  lemma HandsStay(s: State, a: Action, d: nat)
    requires Enabled(s, a) && Holds(s, d)
    ensures Holds(Apply(s, a), d)
    ensures Apply(s, a).dials[d].id == s.dials[d].id && Apply(s, a).dials[d].got == s.dials[d].got
  {
  }

  lemma OriginStaysStep(s: State, a: Action, id: Secret)
    requires Enabled(s, a) && id in s.origin
    ensures id in Apply(s, a).origin && Apply(s, a).origin[id] == s.origin[id]
  {
  }

  /** The steps that leave every buffer alone. */
  lemma BuffersUntouched(s: State, a: Action)
    requires Enabled(s, a) && !a.TakePipe? && !a.Receive? && !a.Inject?
    ensures Apply(s, a).buffers == s.buffers
  {
  }

  lemma ReceiveMoves(s: State, d: nat, id: Secret, c: nat)
    requires Enabled(s, Receive(d)) && id in s.buffers && s.buffers[id] == Some(c)
    ensures var t := Apply(s, Receive(d));
            || (id in t.buffers && t.buffers[id] == Some(c))
            || (s.dials[d].id == id && Holds(t, d) && t.dials[d].id == id && t.dials[d].got == Some(c))
  {
  }

  lemma BufferStays(s: State, a: Action, id: Secret, c: nat)
    requires Inv(s) && Enabled(s, a) && id in s.buffers && s.buffers[id] == Some(c)
    ensures var t := Apply(s, a);
            || (id in t.buffers && t.buffers[id] == Some(c))
            || (a.Receive? && a.d in s.dials && s.dials[a.d].id == id && Holds(t, a.d) &&
                t.dials[a.d].id == id && t.dials[a.d].got == Some(c))
  {
    if a.Receive? {
      ReceiveMoves(s, a.d, id, c);
    } else if a.TakePipe? {
      assert a.id != id;
    } else if !a.Inject? {
      BuffersUntouched(s, a);
    }
  }

  lemma InjectedBefore(s: State, a: Action, c: nat)
    requires Enabled(s, a) && c in Apply(s, a).channels && Apply(s, a).channels[c].stage.Injected?
    ensures c in s.channels && Apply(s, a).channels[c].id == s.channels[c].id
    ensures s.channels[c].stage.Injected? ||
            (a == Inject(c) && s.channels[c].id in Apply(s, a).buffers && Apply(s, a).buffers[s.channels[c].id] == Some(c))
  {
  }

  lemma KeptStep(s: State, a: Action, c: nat)
    requires Inv(s) && Enabled(s, a) && c in s.channels && Kept(s, c)
    requires c in Apply(s, a).channels && Apply(s, a).channels[c].id == s.channels[c].id
    ensures Kept(Apply(s, a), c)
  {
    var id := s.channels[c].id;
    assert id in s.origin;
    OriginStaysStep(s, a, id);
    if id in s.buffers && s.buffers[id] == Some(c) {
      BufferStays(s, a, id, c);
    } else {
      HandsStay(s, a, s.origin[id].dial);
    }
  }

  lemma ConservedStep(s: State, a: Action)
    requires Inv(s) && Conserved(s) && Enabled(s, a)
    ensures Conserved(Apply(s, a))
  {
    var t := Apply(s, a);
    forall c | c in t.channels && t.channels[c].stage.Injected?
      ensures Kept(t, c)
    {
      InjectedBefore(s, a, c);
      if s.channels[c].stage.Injected? {
        KeptStep(s, a, c);
      }
    }
  }

  lemma {:induction false} ConservedRun(s: State, actions: seq<Action>)
    requires Inv(s) && Conserved(s) && Legal(s, actions)
    ensures Conserved(Final(s, actions))
    decreases |actions|
  {
    if actions != [] {
      ConservedStep(s, actions[0]);
      InvStep(s, actions[0]);
      ConservedRun(Apply(s, actions[0]), actions[1..]);
    }
  }

  /** In every run each injected channel waits in its pipe or was received by the dial of that pipe. */
  lemma NoChannelLost(actions: seq<Action>, c: nat)
    requires Legal(INITIAL, actions)
    requires c in Final(INITIAL, actions).channels && Final(INITIAL, actions).channels[c].stage.Injected?
    ensures Kept(Final(INITIAL, actions), c)
  {
    ConservedRun(INITIAL, actions);
  }

  // ---- A dial that works ----

  /** For any session, dial, pipe and channel there is a run in which the dial returns the agent's channel. */
  lemma SuccessfulDial(x: Session, d: nat, id: Secret, c: nat) returns (actions: seq<Action>)
    ensures actions == [Register(x), StartDial(d, x.cluster), TakePipe(d, id), SendDial(d, true), Claim(c, id, x.key),
                        Upgrade(c, true), Inject(c), Receive(d), DropPipe(d)]
    ensures Legal(INITIAL, actions)
    ensures var s := Final(INITIAL, actions);
            d in s.dials && s.dials[d] == Returned(x.cluster, id, Some(c)) && s.reg.pipes == map[]
  {
    var s7, s8 := Answered(x, d, id, c), Apply(Answered(x, d, id, c), Receive(d));
    actions := Before(s8, DropPipe(d), []);
    actions := Before(s7, Receive(d), actions);
    actions := AnswerFirst(x, d, id, c, actions);
    actions := DialFirst(x, d, id, actions);
  }

  /** The state after a session registered and a dial took a pipe and announced it. */
  function Dialled(x: Session, d: nat, id: Secret): (s: State)
    ensures s.reg == Registry(map[x.cluster := x], map[id := Pipe(x.cluster, x.key)])
    ensures s.dials == map[d := Waiting(x.cluster, id)] && s.channels == map[] && s.buffers == map[id := None]
  {
    Apply(Apply(Apply(Apply(INITIAL, Register(x)), StartDial(d, x.cluster)), TakePipe(d, id)), SendDial(d, true))
  }

  /** ... and the agent opened its data channel and the hub passed it on. */
  function Answered(x: Session, d: nat, id: Secret, c: nat): (s: State)
    ensures s.reg == Registry(map[x.cluster := x], map[]) && s.dials == map[d := Waiting(x.cluster, id)]
    ensures s.channels == map[c := Channel(id, x.key, Injected)] && s.buffers == map[id := Some(c)]
  {
    var s := Dialled(x, d, id);
    assert s.reg.pipes - {id} == map[];
    Apply(Apply(Apply(s, Claim(c, id, x.key)), Upgrade(c, true)), Inject(c))
  }

  lemma AnswerFirst(x: Session, d: nat, id: Secret, c: nat, rest: seq<Action>) returns (actions: seq<Action>)
    requires Legal(Answered(x, d, id, c), rest)
    ensures actions == [Claim(c, id, x.key), Upgrade(c, true), Inject(c)] + rest
    ensures Legal(Dialled(x, d, id), actions) && Final(Dialled(x, d, id), actions) == Final(Answered(x, d, id, c), rest)
  {
    AgentAnswers(x, d, id, c);
    actions := BeforeThree(Dialled(x, d, id), Claim(c, id, x.key), Upgrade(c, true), Inject(c), rest);
  }

  /** The three steps of the data channel are possible, one after the other. */
  lemma AgentAnswers(x: Session, d: nat, id: Secret, c: nat)
    ensures var s4 := Dialled(x, d, id);
            && Enabled(s4, Claim(c, id, x.key))
            && Enabled(Apply(s4, Claim(c, id, x.key)), Upgrade(c, true))
            && Enabled(Apply(Apply(s4, Claim(c, id, x.key)), Upgrade(c, true)), Inject(c))
            && Apply(Apply(Apply(s4, Claim(c, id, x.key)), Upgrade(c, true)), Inject(c)) == Answered(x, d, id, c)
  {
  }

  lemma BeforeThree(s: State, a: Action, b: Action, c: Action, rest: seq<Action>) returns (actions: seq<Action>)
    requires Enabled(s, a) && Enabled(Apply(s, a), b) && Enabled(Apply(Apply(s, a), b), c)
    requires Legal(Apply(Apply(Apply(s, a), b), c), rest)
    ensures actions == [a, b, c] + rest
    ensures Legal(s, actions) && Final(s, actions) == Final(Apply(Apply(Apply(s, a), b), c), rest)
  {
    actions := Before(Apply(Apply(s, a), b), c, rest);
    actions := Before(Apply(s, a), b, actions);
    actions := Before(s, a, actions);
  }

  lemma DialFirst(x: Session, d: nat, id: Secret, rest: seq<Action>) returns (actions: seq<Action>)
    requires Legal(Dialled(x, d, id), rest)
    ensures actions == [Register(x), StartDial(d, x.cluster), TakePipe(d, id), SendDial(d, true)] + rest
    ensures Legal(INITIAL, actions) && Final(INITIAL, actions) == Final(Dialled(x, d, id), rest)
  {
    var s1 := Apply(INITIAL, Register(x));
    var s2 := Apply(s1, StartDial(d, x.cluster));
    var s3 := Apply(s2, TakePipe(d, id));
    actions := Before(s3, SendDial(d, true), rest);
    actions := Before(s2, TakePipe(d, id), actions);
    actions := Before(s1, StartDial(d, x.cluster), actions);
    actions := Before(INITIAL, Register(x), actions);
  }
}
