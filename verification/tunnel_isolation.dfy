/** Whom a dial reaches: the agent that was its cluster's current one when its pipe was taken. */
module TunnelIsolation {
  import opened TunnelProtocol

  /** Every pipe was taken under a session of its own cluster. */
  ghost predicate OriginsFiled(s: State) {
    forall id :: id in s.origin ==> s.origin[id].session.cluster == s.origin[id].cluster && s.origin[id].session in s.known
  }

  lemma KnownGrows(s: State, a: Action)
    requires Enabled(s, a)
    ensures s.known <= Apply(s, a).known
  {
  }

  lemma OnlyTakePipeOriginates(s: State, a: Action)
    requires Enabled(s, a) && !a.TakePipe?
    ensures Apply(s, a).origin == s.origin
  {
  }

  lemma OriginsFiledStep(s: State, a: Action)
    requires SessionsInv(s) && OriginsFiled(s) && Enabled(s, a)
    ensures OriginsFiled(Apply(s, a))
  {
    KnownGrows(s, a);
    if a.TakePipe? {
      assert Apply(s, a).known == s.known;
    } else {
      OnlyTakePipeOriginates(s, a);
    }
  }

  lemma {:induction false} OriginsFiledRun(s: State, actions: seq<Action>)
    requires SessionsInv(s) && OriginsFiled(s) && Legal(s, actions)
    ensures OriginsFiled(Final(s, actions))
    decreases |actions|
  {
    if actions != [] {
      SessionsInvStep(s, actions[0]);
      OriginsFiledStep(s, actions[0]);
      OriginsFiledRun(Apply(s, actions[0]), actions[1..]);
    }
  }

  // ---- The cluster of a dial ----

  lemma ClusterKept(s: State, a: Action, d: nat)
    requires Enabled(s, a) && d in s.dials
    ensures d in Apply(s, a).dials && Apply(s, a).dials[d].cluster == s.dials[d].cluster
  {
  }

  lemma {:induction false} ClusterStays(s: State, actions: seq<Action>, d: nat)
    requires Legal(s, actions) && d in s.dials
    ensures d in Final(s, actions).dials && Final(s, actions).dials[d].cluster == s.dials[d].cluster
    decreases |actions|
  {
    if actions != [] {
      ClusterKept(s, actions[0], d);
      ClusterStays(Apply(s, actions[0]), actions[1..], d);
    }
  }

  lemma StartsDial(s: State, a: Action, d: nat)
    requires Enabled(s, a) && d !in s.dials && d in Apply(s, a).dials
    ensures a == StartDial(d, Apply(s, a).dials[d].cluster)
  {
  }

  /** A dial works for the cluster it was started for. */
  lemma {:induction false} DialWasStarted(s: State, actions: seq<Action>, d: nat) returns (j: nat)
    requires Legal(s, actions) && d !in s.dials && d in Final(s, actions).dials
    ensures j < |actions| && actions[j] == StartDial(d, Final(s, actions).dials[d].cluster)
    decreases |actions|
  {
    var t := Apply(s, actions[0]);
    if d in t.dials {
      j := 0;
      StartsDial(s, actions[0], d);
      ClusterStays(t, actions[1..], d);
    } else {
      var k := DialWasStarted(t, actions[1..], d);
      j := k + 1;
    }
  }

  /**
   * In every run, a dial that returns a connection was started for its cluster (step j), took its pipe
   * while a session was that cluster's entry (step i), and holds a data channel that presented the
   * pipe's id and the key of exactly that session: no session of any other cluster, and no other
   * session of its own, has that key.
   */
  lemma DialReachesItsCluster(actions: seq<Action>, d: nat) returns (j: nat, i: nat)
    requires Legal(INITIAL, actions)
    requires var s := Final(INITIAL, actions); d in s.dials && s.dials[d].Returned? && s.dials[d].got.Some?
    ensures j < i < |actions| && Legal(INITIAL, actions[..i])
    ensures var s, then' := Final(INITIAL, actions), Final(INITIAL, actions[..i]);
            var dial, c := s.dials[d], s.dials[d].got.value;
            && actions[j] == StartDial(d, dial.cluster) && actions[i] == TakePipe(d, dial.id)
            && c in s.channels && s.channels[c].id == dial.id
            && dial.cluster in then'.reg.sessions && s.channels[c].key == then'.reg.sessions[dial.cluster].key
            && forall x :: x in s.known && x.key == s.channels[c].key ==>
                 x == then'.reg.sessions[dial.cluster] && x.cluster == dial.cluster
  {
    var s := Final(INITIAL, actions);
    TunnelSafety(actions);
    SessionsInvRun(INITIAL, actions);
    OriginsFiledRun(INITIAL, actions);
    i := OriginWasCurrent(INITIAL, actions, s.dials[d].id);
    j := DialWasStarted(INITIAL, actions[..i], d);
    StartedBefore(actions, d, i);
  }

  /** The cluster a dial has at a prefix of a run is the one it has at the end. */
  lemma StartedBefore(actions: seq<Action>, d: nat, i: nat)
    requires Legal(INITIAL, actions) && i <= |actions| && Legal(INITIAL, actions[..i])
    requires d in Final(INITIAL, actions[..i]).dials
    ensures d in Final(INITIAL, actions).dials
    ensures Final(INITIAL, actions[..i]).dials[d].cluster == Final(INITIAL, actions).dials[d].cluster
  {
    SplitRun(INITIAL, actions, i);
    ClusterStays(Final(INITIAL, actions[..i]), actions[i..], d);
  }

  lemma {:induction false} SplitRun(s: State, actions: seq<Action>, i: nat)
    requires Legal(s, actions) && i <= |actions| && Legal(s, actions[..i])
    ensures Legal(Final(s, actions[..i]), actions[i..])
    ensures Final(Final(s, actions[..i]), actions[i..]) == Final(s, actions)
    decreases i
  {
    if i == 0 {
      assert actions[0..] == actions;
    } else {
      assert actions[..i][1..] == actions[1..][..i - 1];
      assert actions[i..] == actions[1..][i - 1..];
      SplitRun(Apply(s, actions[0]), actions[1..], i - 1);
    }
  }
}
