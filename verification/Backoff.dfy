/** The retry delay of `handleRetry` (internal/service/delivery.go:227-234): int64 nanoseconds,
    doubling with each retry, capped, with a jitter factor in [0.8, 1.2). */
module Backoff {
  const TWO63: int := 0x8000_0000_0000_0000
  const TWO64: int := 0x1_0000_0000_0000_0000

  function Pow2(k: nat): nat {
    if k == 0 then 1 else 2 * Pow2(k - 1)
  }

  /** int64 arithmetic wraps around. */
  function Wrap(x: int): int {
    (x + TWO63) % TWO64 - TWO63
  }

  /** time.Duration(math.Pow(2, k)): powers of two are exact in a float64; one that does not fit an
      int64 converts to the least int64 on amd64. */
  function PowDuration(k: nat): int {
    if k < 63 then Pow2(k) else -TWO63
  }

  function Delay(baseDelay: int, maxDelay: int, retryCount: nat): int
    requires retryCount >= 1
  {
    var delay := Wrap(baseDelay * PowDuration(retryCount - 1));
    if delay > maxDelay then maxDelay else delay
  }

  /** time.Duration(float64(delay) * factor), without the rounding of floats: truncation toward zero. */
  function Jitter(delay: int, factor: real): int {
    if delay >= 0 then (delay as real * factor).Floor else -(-delay as real * factor).Floor
  }

  /** 0.8 + rand.Float64()*0.4 */
  predicate IsFactor(factor: real) {
    0.8 <= factor < 1.2
  }

  /** A wait of the documented delay times the factor, cut to a whole nanosecond, unless the product overflows. */
  ghost predicate WaitsAbout(baseDelay: int, maxDelay: int, retryCount: nat, factor: real, wait: int)
    requires retryCount >= 1
  {
    0 <= baseDelay && 0 <= maxDelay && baseDelay * Pow2(retryCount - 1) < 0x8000_0000_0000_0000 && 0.8 <= factor < 1.2
    ==>
      var doubled := baseDelay * Pow2(retryCount - 1);
      var ideal := if doubled > maxDelay then maxDelay else doubled;
      Cuts(ideal, factor, wait) && 8 * ideal - 10 < 10 * wait <= 12 * ideal
  }

  /** `wait` is the product in whole nanoseconds. */
  ghost predicate Cuts(ideal: int, factor: real, wait: int) {
    wait as real <= ideal as real * factor < (wait + 1) as real
  }

  lemma {:induction false} JitterCuts(delay: nat, factor: real)
    requires IsFactor(factor)
    ensures Cuts(delay, factor, Jitter(delay, factor))
  {
  }

  method NextDelay(baseDelay: int, maxDelay: int, retryCount: nat, factor: real) returns (jitter: int)
    requires retryCount >= 1
    ensures jitter == Jitter(Delay(baseDelay, maxDelay, retryCount), factor)
    ensures WaitsAbout(baseDelay, maxDelay, retryCount, factor, jitter)
  {
    var delay := Wrap(baseDelay * PowDuration(retryCount - 1));
    if delay > maxDelay {
      delay := maxDelay;
    }
    if delay >= 0 {
      jitter := (delay as real * factor).Floor;
    } else {
      jitter := -(-delay as real * factor).Floor;
    }
    assert jitter == Jitter(Delay(baseDelay, maxDelay, retryCount), factor);
    NextDelayRange(baseDelay, maxDelay, retryCount, factor);
  }

  lemma {:induction false} NextDelayRange(baseDelay: int, maxDelay: int, retryCount: nat, factor: real)
    requires retryCount >= 1
    ensures WaitsAbout(baseDelay, maxDelay, retryCount, factor, Jitter(Delay(baseDelay, maxDelay, retryCount), factor))
  {
    if 0 <= baseDelay && 0 <= maxDelay && baseDelay * Pow2(retryCount - 1) < 0x8000_0000_0000_0000 && IsFactor(factor) {
      NoWrapBelow(baseDelay, maxDelay, retryCount);
      var ideal := Ideal(baseDelay, maxDelay, retryCount);
      JitterRange(ideal, factor);
      JitterCuts(ideal, factor);
    }
  }

  /** The delay the service documents. */
  function Ideal(baseDelay: nat, maxDelay: nat, retryCount: nat): nat
    requires retryCount >= 1
  {
    var delay := baseDelay * Pow2(retryCount - 1);
    if delay > maxDelay then maxDelay else delay
  }

  /** The documented delay starts at the base delay and doubles with every retry, up to the cap. */
  lemma {:induction false} DelaysDouble(baseDelay: nat, maxDelay: nat, r: nat)
    requires r >= 1
    ensures Ideal(baseDelay, maxDelay, 1) == (if baseDelay < maxDelay then baseDelay else maxDelay)
    ensures var doubled := 2 * Ideal(baseDelay, maxDelay, r);
      Ideal(baseDelay, maxDelay, r + 1) == if doubled < maxDelay then doubled else maxDelay
  {
    Regroup(baseDelay, Pow2(r - 1));
  }

  /** Checked on the configuration alone: the longest uncapped delay fits an int64. */
  predicate Fits(baseDelay: nat, maxRetries: nat)
    requires maxRetries >= 2
  {
    baseDelay * Pow2(maxRetries - 2) < TWO63
  }

  lemma {:induction false} Pow2Grows(j: nat, k: nat)
    requires j <= k
    ensures Pow2(j) <= Pow2(k)
    decreases k
  {
    if j < k {
      Pow2Grows(j, k - 1);
    }
  }

  lemma {:induction false} Scaled(x: nat, a: nat, b: nat)
    requires a <= b
    ensures x * a <= x * b
  {
  }

  lemma {:induction false} Pow2At63()
    ensures Pow2(62) == TWO63 / 2 && Pow2(63) == TWO63
  {
    assert Pow2(2) == 4;
    Pow2Sum(2, 2);
    Pow2Sum(4, 4);
    Pow2Sum(8, 8);
    Pow2Sum(16, 16);
    Pow2Sum(32, 16);
    Pow2Sum(48, 8);
    Pow2Sum(56, 4);
    Pow2Sum(60, 2);
  }

  lemma {:induction false} Pow2Sum(j: nat, k: nat)
    ensures Pow2(j + k) == Pow2(j) * Pow2(k)
  {
    if k > 0 {
      Pow2Sum(j, k - 1);
      assert Pow2(j + k) == 2 * Pow2(j + (k - 1));
      Regroup(Pow2(j), Pow2(k - 1));
    }
  }

  lemma {:induction false} Regroup(x: int, y: int)
    ensures 2 * (x * y) == x * (2 * y)
  {
  }

  lemma {:induction false} NoWrapBelow(baseDelay: nat, maxDelay: nat, retryCount: nat)
    requires retryCount >= 1 && baseDelay * Pow2(retryCount - 1) < TWO63
    ensures Delay(baseDelay, maxDelay, retryCount) == Ideal(baseDelay, maxDelay, retryCount)
  {
    if retryCount - 1 >= 63 {
      Pow2At63();
      Pow2Grows(63, retryCount - 1);
      assert baseDelay == 0;
    }
  }

  /** The first retry whose delay no longer fits wraps to a negative one. */
  lemma {:induction false} WrapsNegative(baseDelay: nat, maxDelay: nat, retryCount: nat)
    requires retryCount >= 2
    requires baseDelay * Pow2(retryCount - 2) < TWO63 <= baseDelay * Pow2(retryCount - 1)
    ensures Delay(baseDelay, maxDelay, retryCount) < 0
  {
    Regroup(baseDelay, Pow2(retryCount - 2));
    if retryCount - 1 >= 63 {
      Pow2At63();
      Pow2Grows(62, retryCount - 2);
      Scaled(baseDelay, Pow2(62), Pow2(retryCount - 2));
      assert baseDelay == 1;
    }
  }

  lemma {:induction false} FirstMisfit(baseDelay: nat, n: nat) returns (retryCount: nat)
    requires baseDelay < TWO63 <= baseDelay * Pow2(n)
    ensures 2 <= retryCount <= n + 1
    ensures baseDelay * Pow2(retryCount - 2) < TWO63 <= baseDelay * Pow2(retryCount - 1)
  {
    if baseDelay * Pow2(n - 1) < TWO63 {
      retryCount := n + 1;
    } else {
      retryCount := FirstMisfit(baseDelay, n - 1);
    }
  }

  /** Every retry the service can reach waits for min(baseDelay * 2^(r-1), maxDelay), with no
      wrap-around, exactly when baseDelay * 2^(maxRetries-2) fits an int64. */
  lemma {:induction false} DelayIsIdealIffFits(baseDelay: nat, maxDelay: nat, maxRetries: nat)
    requires maxRetries >= 2 && baseDelay < TWO63
    ensures (forall r :: 1 <= r < maxRetries ==> Delay(baseDelay, maxDelay, r) == Ideal(baseDelay, maxDelay, r))
       <==> Fits(baseDelay, maxRetries)
  {
    if Fits(baseDelay, maxRetries) {
      forall r | 1 <= r < maxRetries ensures Delay(baseDelay, maxDelay, r) == Ideal(baseDelay, maxDelay, r) {
        Pow2Grows(r - 1, maxRetries - 2);
        Scaled(baseDelay, Pow2(r - 1), Pow2(maxRetries - 2));
        NoWrapBelow(baseDelay, maxDelay, r);
      }
    } else {
      var r := FirstMisfit(baseDelay, maxRetries - 2);
      WrapsNegative(baseDelay, maxDelay, r);
    }
  }

  lemma {:induction false} DelaysGrow(baseDelay: nat, maxDelay: nat, r: nat, s: nat)
    requires 1 <= r <= s
    ensures Ideal(baseDelay, maxDelay, r) <= Ideal(baseDelay, maxDelay, s) <= maxDelay
  {
    Pow2Grows(r - 1, s - 1);
    Scaled(baseDelay, Pow2(r - 1), Pow2(s - 1));
  }

  lemma {:induction false} ScaledReal(x: real, a: real, b: real)
    requires x >= 0.0 && a <= b
    ensures x * a <= x * b
  {
  }

  /** The jitter keeps the delay within 20%, so it can exceed the cap by that much. */
  lemma {:induction false} JitterRange(delay: nat, factor: real)
    requires IsFactor(factor)
    ensures 10 * Jitter(delay, factor) <= 12 * delay
    ensures 10 * Jitter(delay, factor) > 8 * delay - 10
  {
    var d := delay as real;
    ScaledReal(d, 0.8, factor);
    ScaledReal(d, factor, 1.2);
    FloorRange(delay, d * factor);
  }

  lemma {:induction false} FloorRange(delay: nat, x: real)
    requires delay as real * 0.8 <= x <= delay as real * 1.2
    ensures 8 * delay - 10 < 10 * x.Floor <= 12 * delay
  {
    var j := x.Floor;
    assert j as real <= x < (j + 1) as real;
    assert (10 * j) as real <= (12 * delay) as real;
    assert (10 * j + 10) as real > (8 * delay) as real;
  }

  /** Below the cap, even the longest wait before one retry is shorter than the shortest before the next. */
  lemma {:induction false} JitterRangesDisjoint(baseDelay: nat, maxDelay: nat, r: nat, f: real, g: real)
    requires baseDelay >= 2 && r >= 1 && IsFactor(f) && IsFactor(g)
    requires baseDelay * Pow2(r) <= maxDelay
    ensures Jitter(Ideal(baseDelay, maxDelay, r), f) < Jitter(Ideal(baseDelay, maxDelay, r + 1), g)
  {
    Regroup(baseDelay, Pow2(r - 1));
    Pow2Grows(0, r - 1);
    Scaled(baseDelay, 1, Pow2(r - 1));
    var d := baseDelay * Pow2(r - 1);
    JitterRange(d, f);
    JitterRange(2 * d, g);
  }

  /** The waits before retries 1 to |factors|. */
  function TotalWait(baseDelay: nat, maxDelay: nat, factors: seq<real>): int {
    if factors == [] then 0
    else
      TotalWait(baseDelay, maxDelay, factors[..|factors| - 1])
      + Jitter(Delay(baseDelay, maxDelay, |factors|), factors[|factors| - 1])
  }

  /** All waits together: at most 1.2 * baseDelay * (2^n - 1), and at most 1.2 * maxDelay for each. */
  lemma {:induction false} TotalWaitBound(baseDelay: nat, maxDelay: nat, maxRetries: nat, factors: seq<real>)
    requires maxRetries >= 2 && baseDelay < TWO63 && Fits(baseDelay, maxRetries)
    requires |factors| < maxRetries && forall i :: 0 <= i < |factors| ==> IsFactor(factors[i])
    ensures 10 * TotalWait(baseDelay, maxDelay, factors) <= 12 * (baseDelay * (Pow2(|factors|) - 1))
    ensures 10 * TotalWait(baseDelay, maxDelay, factors) <= 12 * (maxDelay * |factors|)
  {
    if factors != [] {
      var r := |factors|;
      TotalWaitBound(baseDelay, maxDelay, maxRetries, factors[..r - 1]);
      DelayIsIdealIffFits(baseDelay, maxDelay, maxRetries);
      JitterRange(Ideal(baseDelay, maxDelay, r), factors[r - 1]);
      Distribute(baseDelay, Pow2(r - 1), maxDelay, r);
    }
  }

  lemma {:induction false} Distribute(x: nat, p: nat, y: nat, r: nat)
    requires r >= 1
    ensures x * (2 * p - 1) == x * (p - 1) + x * p
    ensures y * r == y * (r - 1) + y
  {
  }
}
