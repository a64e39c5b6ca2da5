/** Closed sessions that are still their cluster's entry. */
module StaleSessions {
  import opened TunnelRegistry
  import opened TunnelProtocol

  predicate IsEntry(s: State, x: Session) {
    x.cluster in s.reg.sessions && s.reg.sessions[x.cluster] == x
  }

  /**
   * A registration that fails after the session was installed, or a signaling channel that breaks,
   * closes the session and leaves it in the map: until its exit is handled a dial takes its pipe
   * under the dead session's key.
   */
  lemma FailedRegistrationStays(x: Session, d: nat, id: Secret) returns (actions: seq<Action>)
    ensures actions == [Register(x), CloseSession(x), StartDial(d, x.cluster), TakePipe(d, id)]
    ensures Legal(INITIAL, actions)
    ensures var s := Final(INITIAL, actions);
            IsEntry(s, x) && x !in s.open && id in s.reg.pipes && s.reg.pipes[id].sessionKey == x.key
  {
    var s1 := Apply(INITIAL, Register(x));
    var s2 := Apply(s1, CloseSession(x));
    var s3 := Apply(s2, StartDial(d, x.cluster));
    actions := [];
    actions := Before(s3, TakePipe(d, id), actions);
    actions := Before(s2, StartDial(d, x.cluster), actions);
    actions := Before(s1, CloseSession(x), actions);
    actions := Before(INITIAL, Register(x), actions);
  }

  // ---- Exactly which entries are closed ----

  /** A session that lost its place in the map never gets it back. */
  lemma GoneStaysGone(s: State, a: Action, x: Session)
    requires Enabled(s, a) && Atomic(a) && s.pending == map[] && x in s.known && !IsEntry(s, x)
    ensures x in Apply(s, a).known && !IsEntry(Apply(s, a), x)
  {
    if !TouchesSessions(a) {
      SessionsUntouched(s, a);
    }
  }

  lemma {:induction false} GoneForGood(s: State, actions: seq<Action>, x: Session)
    requires SessionsInv(s) && OneOpen(s) && s.pending == map[] && Legal(s, actions)
    requires forall a :: a in actions ==> Atomic(a)
    requires x in s.known && !IsEntry(s, x)
    ensures !IsEntry(Final(s, actions), x)
    decreases |actions|
  {
    if actions != [] {
      GoneStaysGone(s, actions[0], x);
      SessionsInvStep(s, actions[0]);
      OneOpenStep(s, actions[0]);
      GoneForGood(Apply(s, actions[0]), actions[1..], x);
    }
  }

  predicate Closed(s: State, x: Session) {
    x in s.known && x !in s.open
  }

  /** While x is the entry, or not there yet, only CloseSession(x) closes it. */
  lemma OnlyItsOwnClose(s: State, a: Action, x: Session)
    requires SessionsInv(s) && Enabled(s, a) && Atomic(a) && s.pending == map[]
    requires x in Apply(s, a).known ==> IsEntry(Apply(s, a), x)
    ensures Closed(Apply(s, a), x) <==> Closed(s, x) || a == CloseSession(x)
  {
    if !TouchesSessions(a) {
      SessionsUntouched(s, a);
    }
  }

  lemma {:induction false} ClosedEntries(s: State, actions: seq<Action>, x: Session)
    requires SessionsInv(s) && OneOpen(s) && s.pending == map[] && Legal(s, actions)
    requires forall a :: a in actions ==> Atomic(a)
    requires IsEntry(Final(s, actions), x) && (actions == [] ==> x in s.known)
    ensures x !in Final(s, actions).open <==> Closed(s, x) || CloseSession(x) in actions
    decreases |actions|
  {
    if actions != [] {
      var a, rest, t := actions[0], actions[1..], Apply(s, actions[0]);
      SessionsInvStep(s, a);
      OneOpenStep(s, a);
      if x in t.known && !IsEntry(t, x) {
        GoneForGood(t, rest, x);
        assert false;
      }
      if rest == [] && x !in t.known {
        assert false;
      }
      ClosedEntries(t, rest, x);
      OnlyItsOwnClose(s, a, x);
      assert CloseSession(x) in actions <==> a == CloseSession(x) || CloseSession(x) in rest;
    }
  }

  /**
   * With register and Close as single steps, the sessions a dial can find closed are exactly the
   * entries that were closed on their own account: by a failed registration or a broken channel.
   */
  lemma StaleEntriesIff(actions: seq<Action>, x: Session)
    requires Legal(INITIAL, actions) && forall a :: a in actions ==> Atomic(a)
    requires IsEntry(Final(INITIAL, actions), x)
    ensures x !in Final(INITIAL, actions).open <==> CloseSession(x) in actions
  {
    ClosedEntries(INITIAL, actions, x);
  }

  /** A stale entry goes by its own exit, by a takeover or by a shutdown, and its own exit is always possible. */
  lemma StaleEntryGoes(s: State, a: Action, x: Session)
    requires SessionsInv(s) && Enabled(s, a) && IsEntry(s, x) && x !in s.open
    ensures !IsEntry(Apply(s, a), x) ==> Displaces(a, x)
    ensures Enabled(s, Evict(x)) && !IsEntry(Apply(s, Evict(x)), x)
  {
    if !Displaces(a, x) {
      EntryStaysStep(s, a, x);
    }
  }
}
