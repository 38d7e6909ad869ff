/**
 * Capped exponential backoff, `min(backoff_factor ** attempt, max_backoff_time)`,
 * as computed after every failed attempt by both token-request loops and by
 * the agent's reconnect loop.
 */
module Backoff {

  /** `base ** exp` on Python integers. */
  function Pow(base: nat, exp: nat): nat
  {
    if exp == 0 then 1 else base * Pow(base, exp - 1)
  }

  /** How many passes `while retry_attempts < max_retries` can make from 0. */
  function AttemptBudget(maxRetries: int): nat
  {
    if maxRetries > 0 then maxRetries else 0
  }

  /** The wait, in seconds, after the `attempt`-th consecutive failure. */
  function WaitTime(factor: nat, attempt: nat, cap: int): (w: int)
    ensures w <= cap && w <= Pow(factor, attempt)
    ensures w == cap || w == Pow(factor, attempt)
  {
    if Pow(factor, attempt) <= cap then Pow(factor, attempt) else cap
  }

  /** The waits after failures 1, 2, ..., n, in order. */
  function BackoffWaits(factor: nat, cap: int, n: nat): (ws: seq<int>)
    ensures |ws| == n
    ensures forall i :: 0 <= i < n ==> ws[i] == WaitTime(factor, i + 1, cap)
  {
    seq(n, i requires 0 <= i < n => WaitTime(factor, i + 1, cap))
  }

  /** Seconds actually slept for a list of requested waits: `range(w)` is empty when `w <= 0`. */
  function TotalSleep(ws: seq<int>): (t: nat)
    ensures forall i :: 0 <= i < |ws| ==> (if ws[i] > 0 then ws[i] else 0) <= t
  {
    if ws == [] then 0
    else TotalSleep(ws[..|ws| - 1]) + (if ws[|ws| - 1] > 0 then ws[|ws| - 1] else 0)
  }

  /** The seconds `interruptible_sleep(w)` sleeps when not interrupted: `range(w)` is empty for `w <= 0`. */
  function WaitSleep(w: int): nat
  {
    if w > 0 then w else 0
  }

  /** The seconds the first `n` capped backoff waits sleep when not interrupted. */
  function BackoffSleep(factor: nat, cap: int, n: nat): nat
  {
    if n == 0 then 0 else BackoffSleep(factor, cap, n - 1) + WaitSleep(WaitTime(factor, n, cap))
  }

  /** `BackoffSleep` is the total sleep of the backoff waits. */
  lemma {:induction false} BackoffSleepTotal(factor: nat, cap: int, n: nat)
    ensures BackoffSleep(factor, cap, n) == TotalSleep(BackoffWaits(factor, cap, n))
  {
    if n > 0 {
      BackoffSleepTotal(factor, cap, n - 1);
      BackoffWaitsSnoc(factor, cap, n - 1);
      TotalSleepSnoc(BackoffWaits(factor, cap, n - 1), WaitTime(factor, n, cap));
    }
  }

  /** Sleeping one more wait adds its non-negative part to the total. */
  lemma TotalSleepSnoc(ws: seq<int>, w: int)
    ensures TotalSleep(ws + [w]) == TotalSleep(ws) + (if w > 0 then w else 0)
  {
    assert (ws + [w])[..|ws|] == ws;
  }

  lemma BackoffWaitsSnoc(factor: nat, cap: int, n: nat)
    ensures BackoffWaits(factor, cap, n + 1) == BackoffWaits(factor, cap, n) + [WaitTime(factor, n + 1, cap)]
  {
  }

  /** Multiplying by a factor of at least 1 does not decrease a natural number. */
  lemma ScaleUp(factor: nat, x: nat)
    requires 1 <= factor
    ensures x <= factor * x
  {
    assert factor * x == x + (factor - 1) * x;
  }

  lemma {:induction false} PowMonotone(base: nat, j: nat, k: nat)
    requires 1 <= base && j <= k
    ensures Pow(base, j) <= Pow(base, k)
  {
    if j < k {
      PowMonotone(base, j, k - 1);
      assert Pow(base, k) == base * Pow(base, k - 1);
      ScaleUp(base, Pow(base, k - 1));
    }
  }

  /** With a factor of at least 1 the waits never decrease. */
  lemma WaitNonDecreasing(factor: nat, j: nat, k: nat, cap: int)
    requires 1 <= factor && j <= k
    ensures WaitTime(factor, j, cap) <= WaitTime(factor, k, cap)
  {
    PowMonotone(factor, j, k);
  }

  /** Once a wait reaches the cap, every later wait is exactly the cap. */
  lemma WaitStaysCapped(factor: nat, j: nat, k: nat, cap: int)
    requires 1 <= factor && j <= k && WaitTime(factor, j, cap) == cap
    ensures WaitTime(factor, k, cap) == cap
  {
    WaitNonDecreasing(factor, j, k, cap);
  }

  /** The default loop (factor 2, cap 120, five attempts) waits 2, 4, 8, 16, 32 seconds: 62 in all. */
  lemma DefaultWaits()
    ensures BackoffWaits(2, 120, 5) == [2, 4, 8, 16, 32]
    ensures TotalSleep(BackoffWaits(2, 120, 5)) == 62
  {
    var ws := BackoffWaits(2, 120, 5);
    assert Pow(2, 1) == 2 && Pow(2, 2) == 4 && Pow(2, 3) == 8 && Pow(2, 4) == 16 && Pow(2, 5) == 32;
    assert ws[0] == 2 && ws[1] == 4 && ws[2] == 8 && ws[3] == 16 && ws[4] == 32;
    assert ws == [2, 4, 8, 16, 32];
    assert ws[..4] == [2, 4, 8, 16];
    assert ws[..4][..3] == [2, 4, 8];
    assert ws[..4][..3][..2] == [2, 4];
    assert ws[..4][..3][..2][..1] == [2];
    assert ws[..4][..3][..2][..1][..0] == [];
    assert TotalSleep([2]) == 2;
    assert TotalSleep([2, 4]) == 6;
    assert TotalSleep([2, 4, 8]) == 14;
    assert TotalSleep([2, 4, 8, 16]) == 30;
  }

  /** The reconnect wait reaches the 120-second cap at the seventh consecutive failure. */
  lemma DefaultCapReached()
    ensures WaitTime(2, 6, 120) == 64
    ensures forall k :: k >= 7 ==> WaitTime(2, k, 120) == 120
  {
    forall k | k >= 7 ensures WaitTime(2, k, 120) == 120 {
      assert Pow(2, 7) == 128;
      WaitStaysCapped(2, 7, k, 120);
    }
  }
}
