/** The health loop of one cluster and the agent's reconnect loop. */
module ProbeHistory {
  import opened Backoff

  const DEGRADED_AT := 3
  const RECONNECTING_AT := 10

  datatype Status = Ready | Degraded | Reconnecting
  datatype Message = Blank | ProbeFailing | ProbeFailedTimes(n: nat)
  datatype Change = Change(status: Status, message: Message)

  // ---- What a probe history means ----

  /** The failures at the end of a history. */
  function Trailing(h: seq<bool>): (n: nat)
    ensures n <= |h|
  {
    if h == [] || h[|h| - 1] then 0 else 1 + Trailing(h[..|h| - 1])
  }

  /** The lengths of the failure runs that a success ended. */
  function Ended(h: seq<bool>): seq<nat> {
    if h == [] then []
    else
      var init := h[..|h| - 1];
      if h[|h| - 1] then Ended(init) + [Trailing(init)] else Ended(init)
  }

  function Current(n: nat): Change {
    if n < DEGRADED_AT then Change(Ready, Blank)
    else if n < RECONNECTING_AT then Change(Degraded, ProbeFailing)
    else Change(Reconnecting, ProbeFailedTimes(n))
  }

  ghost predicate NoRepeats(published: seq<Change>) {
    forall i :: 0 < i < |published| ==> published[i - 1] != published[i]
  }

  /** Publications while a run of n failures lasts: one at 3, one a failure from 10 on. */
  function RunPublications(n: nat): nat {
    (if n >= DEGRADED_AT then 1 else 0) + (if n >= RECONNECTING_AT then n - RECONNECTING_AT + 1 else 0)
  }

  /** Publications of ended runs: each run of 3 or more adds one for its recovery. */
  function EndedPublications(runs: seq<nat>): nat {
    if runs == [] then 0
    else
      var n := runs[|runs| - 1];
      EndedPublications(runs[..|runs| - 1]) + RunPublications(n) + (if n >= DEGRADED_AT then 1 else 0)
  }

  function Successes(h: seq<bool>): nat {
    if h == [] then 0 else Successes(h[..|h| - 1]) + (if h[|h| - 1] then 1 else 0)
  }

  /** A success among the first three probes. */
  predicate EarlySuccess(h: seq<bool>) {
    h != [] && (EarlySuccess(h[..|h| - 1]) || (h[|h| - 1] && |h| <= DEGRADED_AT))
  }

  /** The wait after the n-th consecutive failure, n = 0 for a success. */
  function Delay(interval: int, start: int, n: nat): int {
    if n < RECONNECTING_AT then interval else Wait(start, n - RECONNECTING_AT)
  }

  lemma NoSuccessTrailing(h: seq<bool>)
    requires true !in h
    ensures Trailing(h) == |h|
  {
    if h != [] {
      assert h[|h| - 1] in h;
      NoSuccessTrailing(h[..|h| - 1]);
    }
  }

  /** The counters of the loop: consecutive failures, publications, whether a status was recorded, resets. */
  datatype Tally = Tally(failCount: nat, publications: nat, seen: bool, resets: nat)

  function AfterProbe(t: Tally, ok: bool): Tally {
    if ok then
      Tally(0, t.publications + (if t.failCount >= DEGRADED_AT then 1 else 0), true, t.resets + (if t.seen then 1 else 0))
    else
      var n := t.failCount + 1;
      Tally(n, t.publications + (if Current(n) == Current(t.failCount) then 0 else 1), t.seen || n >= DEGRADED_AT, t.resets)
  }

  function Count(h: seq<bool>): Tally {
    if h == [] then Tally(0, 1, false, 0) else AfterProbe(Count(h[..|h| - 1]), h[|h| - 1])
  }

  lemma CountSnoc(h: seq<bool>, ok: bool)
    ensures Count(h + [ok]) == AfterProbe(Count(h), ok)
  {
    assert (h + [ok])[..|h|] == h;
  }

  /** The counters in closed form: only the run lengths matter, and for resets the early successes. */
  lemma {:induction false} CountClosedForm(h: seq<bool>)
    ensures Count(h).failCount == Trailing(h)
    ensures Count(h).publications == 1 + EndedPublications(Ended(h)) + RunPublications(Trailing(h))
    ensures Count(h).seen <==> Successes(h) > 0 || Trailing(h) >= DEGRADED_AT
    ensures Count(h).resets == Successes(h) - (if EarlySuccess(h) then 1 else 0)
  {
    if h != [] {
      var init, ok := h[..|h| - 1], h[|h| - 1];
      CountClosedForm(init);
      assert h == init + [ok];
      TrailingStep(init, ok);
      PublicationsStep(init, ok);
      ResetsStep(init, ok);
      BeforeFirstStatus(init);
    }
  }

  lemma TrailingStep(h: seq<bool>, ok: bool)
    ensures Trailing(h + [ok]) == if ok then 0 else Trailing(h) + 1
  {
    assert (h + [ok])[..|h|] == h;
  }

  lemma PublicationsStep(h: seq<bool>, ok: bool)
    ensures EndedPublications(Ended(h + [ok])) == EndedPublications(Ended(h)) +
            if ok then RunPublications(Trailing(h)) + (if Trailing(h) >= DEGRADED_AT then 1 else 0) else 0
  {
    assert (h + [ok])[..|h|] == h;
    if ok {
      var runs := Ended(h) + [Trailing(h)];
      assert runs[..|runs| - 1] == Ended(h);
    }
  }

  lemma ResetsStep(h: seq<bool>, ok: bool)
    ensures Successes(h + [ok]) == Successes(h) + (if ok then 1 else 0)
    ensures EarlySuccess(h + [ok]) <==> EarlySuccess(h) || (ok && |h| < DEGRADED_AT)
  {
    assert (h + [ok])[..|h|] == h;
  }

  /** The loop has recorded a status exactly after a success or three failures. */
  lemma {:induction false} BeforeFirstStatus(h: seq<bool>)
    ensures Successes(h) == 0 ==> Trailing(h) == |h| && !EarlySuccess(h)
    ensures Successes(h) > 0 && |h| <= DEGRADED_AT ==> EarlySuccess(h)
  {
    if h != [] {
      BeforeFirstStatus(h[..|h| - 1]);
    }
  }
}

/** The health loop of a cluster and the reconnect loop of an agent. */
module Health {
  import opened Wrappers
  import opened Backoff
  import opened ProbeHistory

  class ClusterHealth {
    const interval: int
    const start: int
    // ClusterRuntime
    var status: Status
    var message: Message
    // locals of runHealth
    var failCount: nat
    var backoff: int
    var seen: Option<Status>
    // what the loop did
    var published: seq<Change>
    var resets: nat
    ghost var history: seq<bool>

    /** The last published change is the current status and message, and no change was published twice in a row. */
    ghost predicate Published()
      reads this`status, this`message, this`published
    {
      && published != [] && published[|published| - 1] == Change(status, message)
      && NoRepeats(published)
    }

    ghost predicate Shown()
      reads this`status, this`message, this`failCount, this`published
    {
      Published() && Change(status, message) == Current(failCount)
    }

    ghost predicate Counted()
      reads this`failCount, this`published, this`seen, this`resets, this`history
    {
      Count(history) == Tally(failCount, |published|, seen.Some?, resets)
    }

    ghost predicate Waiting()
      reads this`failCount, this`backoff
    {
      start > 0 && backoff == if failCount < RECONNECTING_AT then start else Wait(start, failCount - RECONNECTING_AT + 1)
    }

    ghost predicate Valid()
      reads this
    {
      Shown() && Counted() && Waiting()
    }

    /** Register: the runtime is published as ready before the loop starts. */
    constructor (interval: int, start: int)
      requires start > 0
      ensures Valid() && history == [] && published == [Change(Ready, Blank)]
      ensures this.interval == interval && this.start == start
    {
      this.interval, this.start := interval, start;
      status, message, failCount, backoff, seen := Ready, Blank, 0, start, None;
      published, resets, history := [Change(Ready, Blank)], 0, [];
    }

    /** setStatus followed by onTransition when something changed. */
    method SetStatus(s: Status, m: Message)
      requires Published()
      modifies this`status, this`message, this`published
      ensures Published() && status == s && message == m
      ensures published == if old(Change(status, message)) == Change(s, m) then old(published)
                           else old(published) + [Change(s, m)]
    {
      if status == s && message == m {
        return;
      }
      status, message := s, m;
      published := published + [Change(status, message)];
    }

    /** One turn of the loop; returns the time until the next probe. */
    method Probe(ok: bool) returns (delay: int)
      requires Valid()
      modifies this
      ensures Valid() && history == old(history) + [ok]
      ensures delay == Delay(interval, start, Trailing(history))
    {
      if ok {
        delay := Recover();
      } else {
        delay := Fail();
      }
      CountClosedForm(history);
    }

    method Recover() returns (delay: int)
      requires Valid()
      modifies this
      ensures Valid() && history == old(history) + [true]
      ensures delay == Delay(interval, start, failCount)
    {
      CountSnoc(history, true);
      failCount := 0;
      backoff := start;
      SetStatus(Ready, Blank);
      NoteReady();
      history := history + [true];
      return interval;
    }

    /** The first recorded status does not reset the mapper, whatever it was before. */
    method NoteReady()
      modifies this`seen, this`resets
      ensures seen == Some(Ready) && resets == old(resets) + (if old(seen).Some? then 1 else 0)
    {
      if seen.Some? {
        resets := resets + 1;
      }
      seen := Some(Ready);
    }

    method Fail() returns (delay: int)
      requires Valid()
      modifies this
      ensures Valid() && history == old(history) + [false]
      ensures delay == Delay(interval, start, failCount)
    {
      CountSnoc(history, false);
      failCount := failCount + 1;
      delay := Escalate();
      history := history + [false];
    }

    /** The switch on the failure count. */
    method Escalate() returns (delay: int)
      requires start > 0 && failCount > 0 && Published() && Change(status, message) == Current(failCount - 1)
      requires backoff == Wait(start, if failCount <= RECONNECTING_AT then 0 else failCount - RECONNECTING_AT)
      modifies this`status, this`message, this`published, this`seen, this`backoff
      ensures Published() && Change(status, message) == Current(failCount)
      ensures published == old(published) + (if Current(failCount) == Current(failCount - 1) then [] else [Current(failCount)])
      ensures seen == if failCount < DEGRADED_AT then old(seen) else Some(status)
      ensures delay == Delay(interval, start, failCount)
      ensures backoff == Wait(start, if failCount < RECONNECTING_AT then 0 else failCount - RECONNECTING_AT + 1)
    {
      delay := interval;
      if failCount >= RECONNECTING_AT {
        SetStatus(Reconnecting, ProbeFailedTimes(failCount));
        seen := Some(Reconnecting);
        delay := backoff;
        WaitDoubles(start, failCount - RECONNECTING_AT);
        backoff := Min(backoff * 2, CAP);
      } else if failCount >= DEGRADED_AT {
        SetStatus(Degraded, ProbeFailing);
        seen := Some(Degraded);
      }
    }
  }

  /** Any run of the loop: the waits and the final state follow from the history alone. */
  method Loop(c: ClusterHealth, probes: seq<bool>) returns (delays: seq<int>)
    requires c.Valid() && c.history == []
    modifies c
    ensures c.Valid() && c.history == probes && |delays| == |probes|
    ensures forall i :: 0 <= i < |probes| ==> delays[i] == Delay(c.interval, c.start, Trailing(probes[..i + 1]))
    ensures forall i :: 0 <= i < |probes| ==>
              var n := Trailing(probes[..i + 1]);
              delays[i] == if n < 10 then c.interval else if c.start <= 60 then Min(c.start * Pow2(n - 10), 60)
                           else Wait(c.start, n - 10)
    ensures var n := Trailing(probes);
            && (n < 3 ==> c.status.Ready? && c.message.Blank?)
            && (3 <= n < 10 ==> c.status.Degraded? && c.message.ProbeFailing?)
            && (n >= 10 ==> c.status.Reconnecting? && c.message == ProbeFailedTimes(n))
    ensures c.published != [] && |c.published| == 1 + EndedPublications(Ended(probes)) + RunPublications(Trailing(probes))
    ensures NoRepeats(c.published) && c.published[|c.published| - 1] == Change(c.status, c.message)
    ensures c.resets == Successes(probes) - (if EarlySuccess(probes) then 1 else 0)
  {
    delays := [];
    for i := 0 to |probes|
      invariant c.Valid() && c.history == probes[..i] && |delays| == i
      invariant forall j :: 0 <= j < i ==> delays[j] == Delay(c.interval, c.start, Trailing(probes[..j + 1]))
    {
      var delay := c.Probe(probes[i]);
      assert probes[..i + 1] == probes[..i] + [probes[i]];
      delays := delays + [delay];
    }
    assert probes[..|probes|] == probes;
    CountClosedForm(probes);
    if c.start <= 60 {
      ClosedForm(c.start);
    }
  }

  // ---- The agent's reconnect loop ----

  /** Failed attempts since the last registered session, or earlier failures at startup. */
  function FailuresBefore(attempts: seq<bool>): nat
    requires attempts != []
  {
    if true in attempts then Trailing(attempts) else |attempts| - 1
  }

  class AgentClient {
    var backoff: int
    ghost var attempts: seq<bool>  // whether each session had registered

    ghost predicate Valid()
      reads this
    {
      backoff == Wait(1, if true in attempts then Trailing(attempts) + 1 else |attempts|)
    }

    constructor ()
      ensures Valid() && attempts == []
    {
      backoff, attempts := 1, [];
    }

    /** One turn of Run after runOnce returned; returns the wait before the next attempt. */
    method Turn(registered: bool) returns (wait: int)
      requires Valid()
      modifies this
      ensures Valid() && attempts == old(attempts) + [registered]
      ensures wait == Min(Pow2(FailuresBefore(attempts)), 60)
    {
      TrailingStep(attempts, registered);
      if true !in attempts {
        NoSuccessTrailing(attempts);
      }
      attempts := attempts + [registered];
      if registered {
        backoff := 1;
      }
      wait := backoff;
      WaitDoubles(1, FailuresBefore(attempts));
      ClosedForm(1);
      backoff := backoff * 2;
      if backoff > CAP {
        backoff := CAP;
      }
    }
  }
}
