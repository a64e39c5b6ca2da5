/** Doubling waits with a cap, as the health loop and the agent's reconnect loop use them. */
module Backoff {
  import opened Wrappers

  /** Both caps, in seconds. */
  const CAP := 60

  function Pow2(n: nat): (p: int)
    ensures p >= 1
  {
    if n == 0 then 1 else 2 * Pow2(n - 1)
  }

  /** The n-th wait of a sequence that starts at start and doubles up to the cap after each wait. */
  function Wait(start: int, n: nat): int {
    if n == 0 then start else Min(start * Pow2(n), CAP)
  }

  /** One doubling step of either loop leads from a wait to the next. */
  lemma WaitDoubles(start: int, n: nat)
    requires start > 0
    ensures Min(Wait(start, n) * 2, CAP) == Wait(start, n + 1)
  {
    assert start * Pow2(n + 1) == (start * Pow2(n)) * 2;
  }

  /**
   * The cap applies only after the first doubling, so every wait is min(60, start * 2^n) exactly
   * when the start is within the cap.
   */
  lemma ClosedForm(start: int)
    requires start > 0
    ensures (forall n: nat :: Wait(start, n) == Min(start * Pow2(n), CAP)) <==> start <= CAP
  {
    assert Pow2(0) == 1;
    assert Wait(start, 0) == start && start * Pow2(0) == start;
    if start <= CAP {
      forall n: nat
        ensures Wait(start, n) == Min(start * Pow2(n), CAP)
      {
      }
    }
  }
}
