/**
 * The retry-delay arithmetic of the connection watcher's retry loop.
 *
 * The retry delay is a whole number of seconds. It starts at 1, is reset to 1
 * when a connection opens, and after every attempt is doubled, but only while it
 * is strictly below the configured maximum: it is never clamped to that maximum.
 * The wait before the next attempt is the delay plus a jitter fraction of it.
 */
module Backoff {

  /** The delay the hub starts with and returns to when a connection opens. */
  const InitialDelay: int := 1

  function Pow2(k: nat): (r: nat)
    ensures r >= 1
  {
    if k == 0 then 1 else 2 * Pow2(k - 1)
  }

  function Min(a: nat, b: nat): nat
  {
    if a <= b then a else b
  }

  predicate IsPowerOfTwo(d: int)
    decreases if d < 0 then 0 else d
  {
    d == 1 || (d > 1 && d % 2 == 0 && IsPowerOfTwo(d / 2))
  }

  /** The exponent of a power of two. */
  function Log2(d: int): (k: nat)
    requires IsPowerOfTwo(d)
    ensures Pow2(k) == d
    decreases if d < 0 then 0 else d
  {
    if d == 1 then 0 else 1 + Log2(d / 2)
  }

  /** The least exponent whose power of two is at least `m`. */
  function CeilLog2(m: int): (k: nat)
    ensures Pow2(k) >= m
    ensures k == 0 <==> m <= 1
    ensures k > 0 ==> Pow2(k - 1) < m
    decreases if m < 0 then 0 else m
  {
    if m <= 1 then 0 else 1 + CeilLog2((m + 1) / 2)
  }

  /** The delay used after an attempt that did not reset it. */
  function NextDelay(d: int, maxDelay: int): int
  {
    if d < maxDelay then 2 * d else d
  }

  /** A retry delay grows by doubling, and only while it is below the maximum. */
  lemma NextDelayKeepsReachable(d: int, maxDelay: int)
    requires Reachable(d, maxDelay)
    ensures Reachable(NextDelay(d, maxDelay), maxDelay)
    ensures d <= NextDelay(d, maxDelay) <= 2 * d
    ensures NextDelay(d, maxDelay) != d <==> d < maxDelay
  {
    if d < maxDelay {
      assert (2 * d) / 2 == d;
    }
  }

  /**
   * The values the retry delay can hold: a power of two that is 1 or below twice
   * the maximum (the last doubling happened from a value below the maximum).
   */
  predicate Reachable(d: int, maxDelay: int)
  {
    IsPowerOfTwo(d) && (d == InitialDelay || d < 2 * maxDelay)
  }

  /** The delay an attempt waits on: an attempt that opens the connection resets it to the initial delay. */
  function BaseDelay(d: int, didOpen: bool): int
  {
    if didOpen then InitialDelay else d
  }

  /**
   * The retry delay after attempts with the given outcomes (true: the attempt
   * opens the connection), starting from delay `d`.
   */
  function FinalDelay(d: int, maxDelay: int, outcomes: seq<bool>): int
    decreases |outcomes|
  {
    if outcomes == [] then d
    else
      var earlier := outcomes[..|outcomes| - 1];
      NextDelay(BaseDelay(FinalDelay(d, maxDelay, earlier), outcomes[|outcomes| - 1]), maxDelay)
  }

  /** The base delay of the wait that follows each attempt. */
  function Schedule(d: int, maxDelay: int, outcomes: seq<bool>): (r: seq<int>)
    ensures |r| == |outcomes|
    decreases |outcomes|
  {
    if outcomes == [] then []
    else
      var earlier := outcomes[..|outcomes| - 1];
      Schedule(d, maxDelay, earlier) + [BaseDelay(FinalDelay(d, maxDelay, earlier), outcomes[|outcomes| - 1])]
  }

  /** The wait before the next attempt: the delay plus a jitter fraction of it. */
  function JitteredDelay(d: int, fraction: real): (w: real)
    ensures d >= 0 && 0.0 <= fraction <= 0.5 ==> d as real <= w <= 1.5 * d as real
  {
    var base := d as real;
    assert d >= 0 && 0.0 <= fraction <= 0.5 ==> 0.0 <= fraction * base <= 0.5 * base by {
      if d >= 0 && 0.0 <= fraction <= 0.5 {
        JitterBound(fraction, base);
      }
    }
    base + fraction * base
  }

  lemma JitterBound(fraction: real, base: real)
    requires 0.0 <= fraction <= 0.5 && base >= 0.0
    ensures 0.0 <= fraction * base <= 0.5 * base
  {
  }

  /** `n` consecutive failed attempts. */
  function Failures(n: nat): (r: seq<bool>)
    ensures |r| == n
  {
    seq(n, _ => false)
  }

  lemma ReachableBounds(d: int, maxDelay: int)
    requires Reachable(d, maxDelay)
    ensures d >= 1
    ensures maxDelay >= 1 ==> d < 2 * maxDelay
    ensures maxDelay <= 1 ==> d == InitialDelay
  {
  }

  lemma {:induction false} FinalDelayReachable(d: int, maxDelay: int, outcomes: seq<bool>)
    requires Reachable(d, maxDelay)
    ensures Reachable(FinalDelay(d, maxDelay, outcomes), maxDelay)
    decreases |outcomes|
  {
    if outcomes != [] {
      var earlier := outcomes[..|outcomes| - 1];
      FinalDelayReachable(d, maxDelay, earlier);
      NextDelayKeepsReachable(BaseDelay(FinalDelay(d, maxDelay, earlier), outcomes[|outcomes| - 1]), maxDelay);
    }
  }

  /** Every wait the loop performs is on a reachable delay. */
  lemma ScheduleReachable(d: int, maxDelay: int, outcomes: seq<bool>, k: nat)
    requires Reachable(d, maxDelay) && k < |outcomes|
    ensures Reachable(Schedule(d, maxDelay, outcomes)[k], maxDelay)
    ensures maxDelay >= 1 ==> Schedule(d, maxDelay, outcomes)[k] < 2 * maxDelay
  {
    FinalDelayReachable(d, maxDelay, outcomes[..k]);
    ScheduleAt(d, maxDelay, outcomes, k);
    ReachableBounds(Schedule(d, maxDelay, outcomes)[k], maxDelay);
  }

  lemma {:induction false} FinalDelayAppend(d: int, maxDelay: int, f: seq<bool>, g: seq<bool>)
    ensures FinalDelay(d, maxDelay, f + g) == FinalDelay(FinalDelay(d, maxDelay, f), maxDelay, g)
    decreases |g|
  {
    if g == [] {
      assert f + g == f;
    } else {
      var g' := g[..|g| - 1];
      assert (f + g)[..|f + g| - 1] == f + g';
      assert (f + g)[|f + g| - 1] == g[|g| - 1];
      FinalDelayAppend(d, maxDelay, f, g');
    }
  }

  /** The wait after attempt k depends on the delay the attempts before it left. */
  lemma {:induction false} ScheduleAt(d: int, maxDelay: int, outcomes: seq<bool>, k: nat)
    requires k < |outcomes|
    ensures Schedule(d, maxDelay, outcomes)[k] == BaseDelay(FinalDelay(d, maxDelay, outcomes[..k]), outcomes[k])
    ensures outcomes[k] ==> Schedule(d, maxDelay, outcomes)[k] == InitialDelay
    decreases |outcomes|
  {
    var earlier := outcomes[..|outcomes| - 1];
    if k < |earlier| {
      ScheduleAt(d, maxDelay, earlier, k);
      assert earlier[..k] == outcomes[..k];
    }
  }

  /** The waits of two runs of attempts are those of the first, then those of the second from where it left off. */
  lemma {:induction false} ScheduleAppend(d: int, maxDelay: int, f: seq<bool>, g: seq<bool>)
    ensures Schedule(d, maxDelay, f + g) == Schedule(d, maxDelay, f) + Schedule(FinalDelay(d, maxDelay, f), maxDelay, g)
    decreases |g|
  {
    if g == [] {
      assert f + g == f;
    } else {
      var g' := g[..|g| - 1];
      assert (f + g)[..|f + g| - 1] == f + g';
      assert (f + g)[|f + g| - 1] == g[|g| - 1];
      ScheduleAppend(d, maxDelay, f, g');
      FinalDelayAppend(d, maxDelay, f, g');
    }
  }

  /**
   * A successful open makes the backoff forget its history: the delays after it
   * are those of a fresh start from the reset delay, whatever came before.
   */
  lemma OpenForgetsHistory(d: int, maxDelay: int, f: seq<bool>, g: seq<bool>)
    ensures FinalDelay(d, maxDelay, f + [true] + g) == FinalDelay(NextDelay(InitialDelay, maxDelay), maxDelay, g)
    ensures Schedule(d, maxDelay, f + [true] + g)[|f| + 1..] == Schedule(NextDelay(InitialDelay, maxDelay), maxDelay, g)
  {
    assert (f + [true])[..|f|] == f;
    FinalDelayAppend(d, maxDelay, f + [true], g);
    ScheduleAppend(d, maxDelay, f + [true], g);
  }

  lemma {:induction false} Pow2Monotone(i: nat, j: nat)
    requires i <= j
    ensures Pow2(i) <= Pow2(j)
    decreases j
  {
    if i < j {
      Pow2Monotone(i, j - 1);
    }
  }

  /**
   * After `n` consecutive failures from the initial delay, the delay is 2^n until
   * it first reaches the maximum, and stays at that power of two from then on.
   */
  lemma {:induction false} ConsecutiveFailures(maxDelay: int, n: nat)
    ensures FinalDelay(InitialDelay, maxDelay, Failures(n)) == Pow2(Min(n, CeilLog2(maxDelay)))
  {
    if n > 0 {
      ConsecutiveFailures(maxDelay, n - 1);
      assert Failures(n)[..n - 1] == Failures(n - 1);
      var top := CeilLog2(maxDelay);
      if n - 1 < top {
        Pow2Monotone(n - 1, top - 1);
      }
    }
  }

  /** The base delay of the wait after the (k+1)-th of consecutive failures. */
  lemma ConsecutiveFailureWaits(maxDelay: int, n: nat, k: nat)
    requires k < n
    ensures Schedule(InitialDelay, maxDelay, Failures(n))[k] == Pow2(Min(k, CeilLog2(maxDelay)))
  {
    assert Failures(n)[..k] == Failures(k);
    ScheduleAt(InitialDelay, maxDelay, Failures(n), k);
    ConsecutiveFailures(maxDelay, k);
  }

  /** The reachable delays are exactly the delays some run of failures produces. */
  lemma ReachableIsReached(d: int, maxDelay: int)
    ensures Reachable(d, maxDelay) <==> exists n: nat :: FinalDelay(InitialDelay, maxDelay, Failures(n)) == d
  {
    forall n: nat | FinalDelay(InitialDelay, maxDelay, Failures(n)) == d
      ensures Reachable(d, maxDelay)
    {
      FinalDelayReachable(InitialDelay, maxDelay, Failures(n));
    }
    if Reachable(d, maxDelay) {
      var k := Log2(d);
      var top := CeilLog2(maxDelay);
      if k > top {
        Pow2Monotone(top, k - 1);
      }
      ConsecutiveFailures(maxDelay, k);
      assert FinalDelay(InitialDelay, maxDelay, Failures(k)) == d;
    }
  }

  /** The delay grows past a maximum that is not a power of two: 1, 2, 4, 8 with maximum 5. */
  lemma DelayIsNotClamped()
    ensures FinalDelay(InitialDelay, 5, Failures(3)) == 8
  {
    ConsecutiveFailures(5, 3);
    assert CeilLog2(5) == 3 by {
      assert CeilLog2(2) == 1;
      assert CeilLog2(3) == 2;
    }
  }

  /**
   * With maximum 4, three consecutive failures wait on 1, 2 and 4: the wait
   * after the third failure, before the fourth attempt, lies in [4, 6].
   */
  lemma FourthAttemptWaitWithMaximumFour(fraction: real)
    requires 0.0 <= fraction <= 0.5
    ensures Schedule(InitialDelay, 4, Failures(3)) == [1, 2, 4]
    ensures 4.0 <= JitteredDelay(Schedule(InitialDelay, 4, Failures(3))[2], fraction) <= 6.0
  {
    ConsecutiveFailureWaits(4, 3, 0);
    ConsecutiveFailureWaits(4, 3, 1);
    ConsecutiveFailureWaits(4, 3, 2);
    assert CeilLog2(4) == 2 by {
      assert CeilLog2(2) == 1;
    }
  }

  /** fail, fail, open, fail: the wait after the open is back at the initial delay. */
  lemma OpenResetsBackoff(maxDelay: int)
    requires maxDelay >= 2
    ensures Schedule(InitialDelay, maxDelay, [false, false, true, false]) == [1, 2, 1, 2]
  {
    var f := [false, false, true, false];
    assert f[..1] == [false] && f[..2] == [false, false] && f[..3] == [false, false, true];
    assert [false, false][..1] == [false];
    assert [false, false, true][..2] == [false, false];
  }
}
