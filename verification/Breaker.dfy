/** The circuit breaker of pkg/circuitbreaker/breaker.go.

    `Step` is the specification: one locked call, as a function of the breaker's value and the clock.
    The class refines it in place and keeps its history of calls; what the breaker promises is proved
    about runs of `Step`, for every interleaving of `Allow` with late outcomes. */
module Breaker {
  import opened Sequences

  datatype State = Closed | Open | HalfOpen

  datatype Config = Config(failureThreshold: int, successThreshold: int, halfOpenMax: int, resetTimeout: int)

  datatype Value = Value(state: State, failureCount: int, successCount: int, halfOpenCount: int, lastFailure: int)

  /** One call under the mutex, with the clock reading it would see. */
  datatype Call = AllowAt(at: int) | SuccessAt(at: int) | FailureAt(at: int)

  /** `New` leaves every field at its zero value; 0 stands for the zero time. */
  const INITIAL := Value(Closed, 0, 0, 0, 0)

  predicate Admits(cfg: Config, b: Value, now: int) {
    match b.state
    case Closed => true
    case Open => now - b.lastFailure > cfg.resetTimeout
    case HalfOpen => b.halfOpenCount < cfg.halfOpenMax
  }

  function Step(cfg: Config, b: Value, call: Call): Value {
    match call
    case AllowAt(now) =>
      if !Admits(cfg, b, now) || b.state == Closed then b
      else if b.state == Open then b.(state := HalfOpen, halfOpenCount := 1, successCount := 0)
      else b.(halfOpenCount := b.halfOpenCount + 1)
    case SuccessAt(_) =>
      if b.state == Closed then b.(failureCount := 0)
      else if b.state == HalfOpen then
        if b.successCount + 1 >= cfg.successThreshold
        then b.(state := Closed, failureCount := 0, successCount := 0)
        else b.(successCount := b.successCount + 1)
      else b
    case FailureAt(now) =>
      var b := b.(lastFailure := now);
      if b.state == Closed then
        var failures := b.failureCount + 1;
        b.(failureCount := failures, state := if failures >= cfg.failureThreshold then Open else Closed)
      else if b.state == HalfOpen then b.(state := Open, halfOpenCount := 0)
      else b
  }

  /** The value after a history of calls. */
  function Run(cfg: Config, b: Value, calls: seq<Call>): Value {
    if calls == [] then b else Step(cfg, Run(cfg, b, Front(calls)), Last(calls))
  }

  /** How many calls of the history were admitted. */
  function Admissions(cfg: Config, b: Value, calls: seq<Call>): nat {
    if calls == [] then 0
    else
      Admissions(cfg, b, Front(calls))
      + if Last(calls).AllowAt? && Admits(cfg, Run(cfg, b, Front(calls)), Last(calls).at) then 1 else 0
  }

  function Records(calls: seq<Call>): nat {
    if calls == [] then 0 else Records(Front(calls)) + if Last(calls).AllowAt? then 0 else 1
  }

  /** The clock never runs backwards, and starts at `from`. */
  predicate Monotone(calls: seq<Call>, from: int) {
    && (forall i :: 0 <= i < |calls| ==> from <= calls[i].at)
    && (forall i, j :: 0 <= i < j < |calls| ==> calls[i].at <= calls[j].at)
  }

  lemma {:induction false} RunConcat(cfg: Config, b: Value, xs: seq<Call>, ys: seq<Call>)
    ensures Run(cfg, b, xs + ys) == Run(cfg, Run(cfg, b, xs), ys)
    ensures Admissions(cfg, b, xs + ys) == Admissions(cfg, b, xs) + Admissions(cfg, Run(cfg, b, xs), ys)
    ensures Records(xs + ys) == Records(xs) + Records(ys)
  {
    if ys == [] {
      assert xs + ys == xs;
    } else {
      assert Front(xs + ys) == xs + Front(ys);
      RunConcat(cfg, b, xs, Front(ys));
    }
  }

  lemma {:induction false} RecordsAppend(calls: seq<Call>, call: Call)
    ensures Records(calls + [call]) == Records(calls) + if call.AllowAt? then 0 else 1
  {
    assert Front(calls + [call]) == calls;
  }

  class CircuitBreaker {
    const cfg: Config
    var state: State
    var failureCount: int
    var successCount: int
    var halfOpenCount: int
    var lastFailure: int
    ghost var history: seq<Call>

    function Contents(): Value
      reads this
    {
      Value(state, failureCount, successCount, halfOpenCount, lastFailure)
    }

    ghost predicate Valid()
      reads this
    {
      Contents() == Run(cfg, INITIAL, history)
    }

    constructor (failureThreshold: int, successThreshold: int, halfOpenMax: int, resetTimeout: int)
      ensures Valid() && history == [] && Contents() == INITIAL
      ensures cfg == Config(failureThreshold, successThreshold, halfOpenMax, resetTimeout)
    {
      cfg := Config(failureThreshold, successThreshold, halfOpenMax, resetTimeout);
      state, failureCount, successCount, halfOpenCount, lastFailure := Closed, 0, 0, 0, 0;
      history := [];
    }

    method Allow(now: int) returns (admitted: bool)
      requires Valid()
      modifies this
      ensures Valid() && history == old(history) + [AllowAt(now)]
      ensures admitted == Admits(cfg, old(Contents()), now)
      ensures old(state) == Closed ==> admitted && Contents() == old(Contents())
      ensures old(state) == Open ==> admitted == (now - old(lastFailure) > cfg.resetTimeout)
      ensures old(state) == Open && admitted ==>
        Contents() == Value(HalfOpen, old(failureCount), 0, 1, old(lastFailure))
      ensures old(state) == HalfOpen ==> admitted == (old(halfOpenCount) < cfg.halfOpenMax)
      ensures old(state) == HalfOpen && admitted ==>
        Contents() == Value(HalfOpen, old(failureCount), old(successCount), old(halfOpenCount) + 1, old(lastFailure))
      ensures !admitted ==> Contents() == old(Contents())
    {
      history := history + [AllowAt(now)];
      assert Front(history) == old(history);
      match state {
        case Closed =>
          admitted := true;
        case Open =>
          admitted := false;
          if now - lastFailure > cfg.resetTimeout {
            state, halfOpenCount, successCount := HalfOpen, 1, 0;
            admitted := true;
          }
        case HalfOpen =>
          admitted := false;
          if halfOpenCount < cfg.halfOpenMax {
            halfOpenCount := halfOpenCount + 1;
            admitted := true;
          }
      }
    }

    method RecordSuccess(now: int)
      requires Valid()
      modifies this
      ensures Valid() && history == old(history) + [SuccessAt(now)]
      ensures halfOpenCount == old(halfOpenCount) && lastFailure == old(lastFailure)
      ensures old(state) == Closed ==> state == Closed && failureCount == 0 && successCount == old(successCount)
      ensures old(state) == Open ==> Contents() == old(Contents())
      ensures old(state) == HalfOpen ==>
        if old(successCount) + 1 >= cfg.successThreshold then state == Closed && failureCount == successCount == 0
        else state == HalfOpen && failureCount == old(failureCount) && successCount == old(successCount) + 1
    {
      history := history + [SuccessAt(now)];
      assert Front(history) == old(history);
      match state {
        case Closed =>
          failureCount := 0;
        case HalfOpen =>
          successCount := successCount + 1;
          if successCount >= cfg.successThreshold {
            state, failureCount, successCount := Closed, 0, 0;
          }
        case Open =>
      }
    }

    method RecordFailure(now: int)
      requires Valid()
      modifies this
      ensures Valid() && history == old(history) + [FailureAt(now)]
      ensures lastFailure == now && successCount == old(successCount)
      ensures old(state) == Closed ==>
        && state == (if old(failureCount) + 1 >= cfg.failureThreshold then Open else Closed)
        && failureCount == old(failureCount) + 1 && halfOpenCount == old(halfOpenCount)
      ensures old(state) == HalfOpen ==> state == Open && failureCount == old(failureCount) && halfOpenCount == 0
      ensures old(state) == Open ==>
        state == Open && failureCount == old(failureCount) && halfOpenCount == old(halfOpenCount)
    {
      history := history + [FailureAt(now)];
      assert Front(history) == old(history);
      lastFailure := now;
      match state {
        case Closed =>
          failureCount := failureCount + 1;
          if failureCount >= cfg.failureThreshold {
            state := Open;
          }
        case HalfOpen =>
          state, halfOpenCount := Open, 0;
        case Open =>
      }
    }
  }
}

/** The counters are functions of the history of outcomes. */
module BreakerHistory {
  import opened Sequences
  import opened Breaker

  /** Failures recorded since the last recorded success, whatever state each one met. */
  function TrailingFailures(calls: seq<Call>): nat {
    if calls == [] || Last(calls).SuccessAt? then 0
    else TrailingFailures(Front(calls)) + if Last(calls).FailureAt? then 1 else 0
  }

  /** The time of the last recorded failure, in whatever state it arrived. */
  function LatestFailure(calls: seq<Call>): int {
    if calls == [] then 0
    else if Last(calls).FailureAt? then Last(calls).at
    else LatestFailure(Front(calls))
  }

  lemma {:induction false} CountersAgreeWithHistory(cfg: Config, calls: seq<Call>)
    requires cfg.failureThreshold >= 1
    ensures var b := Run(cfg, INITIAL, calls);
      && (b.state == Closed ==> b.failureCount == TrailingFailures(calls) < cfg.failureThreshold)
      && (b.state != Closed ==> b.failureCount == cfg.failureThreshold)
      && b.lastFailure == LatestFailure(calls)
  {
    if calls != [] {
      CountersAgreeWithHistory(cfg, Front(calls));
    }
  }

  /** The breaker is closed throughout exactly as long as no `failureThreshold` failures come in a row, with no
      success between them. */
  lemma {:induction false} ClosedIff(cfg: Config, calls: seq<Call>)
    requires cfg.failureThreshold >= 1
    ensures (forall i :: 0 <= i <= |calls| ==> Run(cfg, INITIAL, calls[..i]).state == Closed)
       <==> (forall i :: 0 <= i <= |calls| ==> TrailingFailures(calls[..i]) < cfg.failureThreshold)
  {
    if forall i :: 0 <= i <= |calls| ==> TrailingFailures(calls[..i]) < cfg.failureThreshold {
      forall i | 0 <= i <= |calls| ensures Run(cfg, INITIAL, calls[..i]).state == Closed {
        forall j | 0 <= j <= i ensures calls[..i][..j] == calls[..j] {
        }
        AdmitsUntilTripped(cfg, calls[..i]);
      }
    } else {
      var i :| 0 <= i <= |calls| && TrailingFailures(calls[..i]) >= cfg.failureThreshold;
      CountersAgreeWithHistory(cfg, calls[..i]);
    }
  }

  function Allows(calls: seq<Call>): nat {
    if calls == [] then 0 else Allows(Front(calls)) + if Last(calls).AllowAt? then 1 else 0
  }

  /** And until then every call asked for is admitted. */
  lemma {:induction false} AdmitsUntilTripped(cfg: Config, calls: seq<Call>)
    requires cfg.failureThreshold >= 1
    requires forall i :: 0 <= i <= |calls| ==> TrailingFailures(calls[..i]) < cfg.failureThreshold
    ensures Run(cfg, INITIAL, calls).state == Closed
    ensures Admissions(cfg, INITIAL, calls) == Allows(calls)
  {
    if calls != [] {
      var front := Front(calls);
      forall i | 0 <= i <= |front| ensures front[..i] == calls[..i] {
      }
      AdmitsUntilTripped(cfg, front);
      CountersAgreeWithHistory(cfg, front);
      assert calls[..|calls|] == calls;
    }
  }

  lemma {:induction false} LatestFailureIsLatest(calls: seq<Call>, i: nat)
    requires Monotone(calls, 0)
    requires i < |calls| && calls[i].FailureAt?
    ensures calls[i].at <= LatestFailure(calls)
  {
    if i < |calls| - 1 {
      LatestFailureIsLatest(Front(calls), i);
      LatestFailureBounded(Front(calls));
    }
  }

  lemma {:induction false} LatestFailureBounded(calls: seq<Call>)
    requires Monotone(calls, 0)
    ensures calls != [] ==> 0 <= LatestFailure(calls) <= Last(calls).at
  {
    if |calls| > 1 {
      LatestFailureBounded(Front(calls));
    }
  }

  /** A probe from Open is let through only after `resetTimeout` has passed since every failure ever
      recorded, late ones included. */
  lemma {:induction false} ProbeWaitsForEveryFailure(cfg: Config, calls: seq<Call>, now: int, i: nat)
    requires cfg.failureThreshold >= 1
    requires Monotone(calls, 0)
    requires Run(cfg, INITIAL, calls).state == Open
    requires i < |calls| && calls[i].FailureAt?
    ensures Admits(cfg, Run(cfg, INITIAL, calls), now) ==> now - calls[i].at > cfg.resetTimeout
  {
    CountersAgreeWithHistory(cfg, calls);
    LatestFailureIsLatest(calls, i);
  }
}

/** How much traffic a breaker that is not Closed lets through. */
module BreakerRate {
  import opened Sequences
  import opened Breaker

  /** Half-open slots in use never exceed the configured number (at least one is always granted). */
  lemma {:induction false} SlotsBounded(cfg: Config, calls: seq<Call>)
    requires cfg.halfOpenMax >= 1
    ensures var b := Run(cfg, INITIAL, calls); b.state == HalfOpen ==> 1 <= b.halfOpenCount <= cfg.halfOpenMax
  {
    if calls != [] {
      SlotsBounded(cfg, Front(calls));
    }
  }

  /** The breaker is not Closed before the first of the calls, nor after any of them. */
  predicate NeverClosed(cfg: Config, b: Value, calls: seq<Call>) {
    && Run(cfg, b, calls).state != Closed
    && (calls != [] ==> NeverClosed(cfg, b, Front(calls)))
  }

  function EndTime(calls: seq<Call>, from: int): int {
    if calls == [] then from else Last(calls).at
  }

  /** Counts half-open episodes: the k-th one seen starts at least (k-1) * resetTimeout after `from`,
      because the failure that ended the one before it restarted the wait. */
  lemma {:induction false} Episodes(cfg: Config, b: Value, calls: seq<Call>, from: int) returns (k: nat)
    requires cfg.halfOpenMax >= 1 && cfg.resetTimeout > 0
    requires b.state == HalfOpen ==> 1 <= b.halfOpenCount <= cfg.halfOpenMax
    requires Monotone(calls, from) && NeverClosed(cfg, b, calls)
    ensures k >= 1 ==> (k - 1) * cfg.resetTimeout <= EndTime(calls, from) - from
    ensures Admissions(cfg, b, calls) <= cfg.halfOpenMax * k
    ensures var v := Run(cfg, b, calls);
      if v.state == HalfOpen then
        && k >= 1
        && v.halfOpenCount <= cfg.halfOpenMax
        && Admissions(cfg, b, calls) <= cfg.halfOpenMax * (k - 1) + v.halfOpenCount
      else
        && Admissions(cfg, b, calls) <= cfg.halfOpenMax * k
        && (k >= 1 ==> v.lastFailure >= from + (k - 1) * cfg.resetTimeout)
  {
    if calls == [] {
      k := if b.state == HalfOpen then 1 else 0;
    } else {
      var front := Front(calls);
      k := Episodes(cfg, b, front, from);
      var v := Run(cfg, b, front);
      if v.state == Open && Last(calls).AllowAt? && Admits(cfg, v, Last(calls).at) {
        NextEpisode(cfg.halfOpenMax, cfg.resetTimeout, k);
        k := k + 1;
      } else if v.state == HalfOpen && Last(calls).FailureAt? {
        NextEpisode(cfg.halfOpenMax, cfg.resetTimeout, k - 1);
      }
    }
  }

  lemma {:induction false} NextEpisode(slots: int, wait: int, k: nat)
    ensures slots * (k + 1) == slots * k + slots
    ensures k >= 1 ==> k * wait == (k - 1) * wait + wait
  {
  }

  lemma {:induction false} ScaleUp(d: nat, k: nat, m: nat)
    requires k <= m
    ensures d * k <= d * m
  {
  }

  lemma {:induction false} Quotient(k: nat, q: nat, d: nat, t: nat)
    requires d * k <= t < d * q + d
    ensures k <= q
  {
    if q + 1 <= k {
      ScaleUp(d, q + 1, k);
    }
  }

  lemma {:induction false} EpisodesInInterval(slots: nat, k: nat, wait: nat, length: nat)
    requires wait > 0
    requires k >= 1 ==> (k - 1) * wait <= length
    ensures slots * k <= slots * (length / wait + 1)
  {
    var q := length / wait;
    if k >= 1 {
      assert length == wait * q + length % wait;
      Quotient(k - 1, q, wait, length);
    }
    ScaleUp(slots, k, q + 1);
  }

  /** In any interval of length T that never meets the Closed state, at most
      halfOpenMax * (T / resetTimeout + 1) calls are admitted. `past` is everything before the
      interval, so late outcomes of calls admitted earlier are among `calls`. */
  lemma {:induction false} AdmissionRate(cfg: Config, past: seq<Call>, calls: seq<Call>, from: int, to: int)
    requires cfg.halfOpenMax >= 1 && cfg.resetTimeout > 0
    requires from <= to && Monotone(calls, from)
    requires forall i :: 0 <= i < |calls| ==> calls[i].at <= to
    requires NeverClosed(cfg, Run(cfg, INITIAL, past), calls)
    ensures Admissions(cfg, Run(cfg, INITIAL, past), calls)
         <= cfg.halfOpenMax * ((to - from) / cfg.resetTimeout + 1)
  {
    SlotsBounded(cfg, past);
    var k := Episodes(cfg, Run(cfg, INITIAL, past), calls, from);
    EpisodesInInterval(cfg.halfOpenMax, k, cfg.resetTimeout, to - from);
  }
}

/** Whether the breaker can be stuck refusing everything with nobody left to unblock it. */
module BreakerLiveness {
  import opened Sequences
  import opened Breaker

  /** Calls admitted whose outcome is not recorded yet. */
  function Outstanding(cfg: Config, calls: seq<Call>): int {
    Admissions(cfg, INITIAL, calls) - Records(calls)
  }

  /** Every Record belongs to one admitted call. */
  ghost predicate Paired(cfg: Config, calls: seq<Call>) {
    forall i :: 0 <= i <= |calls| ==> Outstanding(cfg, calls[..i]) >= 0
  }

  predicate Refuses(cfg: Config, b: Value) {
    b.state == HalfOpen && !(b.halfOpenCount < cfg.halfOpenMax)
  }

  /** The breaker admits again once `resetTimeout` has passed, or some admitted call has yet to report
      besides `lost` of them that never will. */
  ghost predicate Live(cfg: Config, calls: seq<Call>, lost: nat) {
    var b := Run(cfg, INITIAL, calls);
    (forall now {:trigger Admits(cfg, b, now)} :: now > b.lastFailure + cfg.resetTimeout ==> Admits(cfg, b, now))
    || Outstanding(cfg, calls) > lost
  }

  lemma {:induction false} SlotsAccountedFor(cfg: Config, calls: seq<Call>)
    requires Paired(cfg, calls)
    ensures var b := Run(cfg, INITIAL, calls);
      b.state == HalfOpen ==>
        && b.halfOpenCount >= 1
        && 0 <= b.successCount && (b.successCount == 0 || b.successCount < cfg.successThreshold)
        && b.successCount + Outstanding(cfg, calls) >= b.halfOpenCount
  {
    if calls != [] {
      var front := Front(calls);
      forall i | 0 <= i <= |front| ensures front[..i] == calls[..i] {}
      SlotsAccountedFor(cfg, front);
      assert calls[..|calls| - 1] == front && front[..|front|] == front;
      assert Outstanding(cfg, front) >= 0;
    }
  }

  function Repeat(calls: seq<Call>, n: nat): seq<Call> {
    if n == 0 then [] else Repeat(calls, n - 1) + calls
  }

  /** Failing calls trip the breaker after max(failureThreshold, 1) of them. */
  lemma {:induction false} Trip(cfg: Config, n: nat)
    ensures var calls := Repeat([AllowAt(0), FailureAt(0)], n);
      var b := Run(cfg, INITIAL, calls);
      && b.lastFailure == 0
      && (n == 0 || n < cfg.failureThreshold ==>
        b == INITIAL.(failureCount := n) && Outstanding(cfg, calls) == 0 && Paired(cfg, calls))
      && (n > 0 && (n == cfg.failureThreshold || (n == 1 && cfg.failureThreshold < 1)) ==>
        b.state == Open && Outstanding(cfg, calls) == 0 && Paired(cfg, calls))
  {
    if n > 0 {
      var calls := Repeat([AllowAt(0), FailureAt(0)], n - 1);
      Trip(cfg, n - 1);
      if n - 1 == 0 || n - 1 < cfg.failureThreshold {
        AppendPair(cfg, calls, AllowAt(0), FailureAt(0));
      } else {
        RunConcat(cfg, INITIAL, calls, [AllowAt(0), FailureAt(0)]);
        LateFailureTime(cfg, Run(cfg, INITIAL, calls));
      }
    }
  }

  lemma {:induction false} LateFailureTime(cfg: Config, b: Value)
    ensures Run(cfg, b, [AllowAt(0), FailureAt(0)]).lastFailure == 0
  {
    assert Front([AllowAt(0), FailureAt(0)]) == [AllowAt(0)];
  }

  lemma {:induction false} AppendPair(cfg: Config, calls: seq<Call>, first: Call, second: Call)
    requires Paired(cfg, calls)
    requires first.AllowAt? && !second.AllowAt?
    requires Admits(cfg, Run(cfg, INITIAL, calls), first.at)
    ensures var longer := calls + [first, second];
      && Run(cfg, INITIAL, longer) == Step(cfg, Step(cfg, Run(cfg, INITIAL, calls), first), second)
      && Outstanding(cfg, longer) == Outstanding(cfg, calls)
      && Paired(cfg, longer)
  {
    var longer := calls + [first, second];
    assert Front(longer) == calls + [first];
    assert Front(calls + [first]) == calls;
    assert calls[..|calls|] == calls && Outstanding(cfg, calls) >= 0;
    assert Outstanding(cfg, calls + [first]) == Outstanding(cfg, calls) + 1;
    assert Outstanding(cfg, longer) == Outstanding(cfg, calls);
    forall i | 0 <= i <= |longer| ensures Outstanding(cfg, longer[..i]) >= 0 {
      if i <= |calls| {
        assert longer[..i] == calls[..i];
      } else {
        assert longer[..i] == calls + [first] || longer[..i] == longer;
      }
    }
  }

  function TripCount(cfg: Config): nat {
    if cfg.failureThreshold < 1 then 1 else cfg.failureThreshold
  }

  function AfterReset(cfg: Config): int {
    if cfg.resetTimeout < 0 then 1 else cfg.resetTimeout + 1
  }

  function Slots(cfg: Config): nat {
    if cfg.halfOpenMax < 1 then 1 else cfg.halfOpenMax
  }

  function TrippedCalls(cfg: Config): seq<Call> {
    Repeat([AllowAt(0), FailureAt(0)], TripCount(cfg))
  }

  lemma {:induction false} AppendAllow(cfg: Config, calls: seq<Call>, call: Call)
    requires Paired(cfg, calls) && call.AllowAt? && Admits(cfg, Run(cfg, INITIAL, calls), call.at)
    ensures var longer := calls + [call];
      && Run(cfg, INITIAL, longer) == Step(cfg, Run(cfg, INITIAL, calls), call)
      && Outstanding(cfg, longer) == Outstanding(cfg, calls) + 1
      && Paired(cfg, longer)
  {
    var longer := calls + [call];
    assert Front(longer) == calls && calls[..|calls|] == calls;
    forall i | 0 <= i <= |longer| ensures Outstanding(cfg, longer[..i]) >= 0 {
      assert longer[..i] == if i <= |calls| then calls[..i] else longer;
    }
  }

  /** The breaker trips; after the reset, `n` probes succeed one after the other and `k` more never report. */
  function ProbedCalls(cfg: Config, n: nat, k: nat): seq<Call> {
    var t := AfterReset(cfg);
    if k > 0 then ProbedCalls(cfg, n, k - 1) + [AllowAt(t)]
    else if n > 0 then ProbedCalls(cfg, n - 1, 0) + [AllowAt(t), SuccessAt(t)]
    else TrippedCalls(cfg)
  }

  ghost predicate Probed(cfg: Config, calls: seq<Call>, n: nat, k: nat) {
    var b := Run(cfg, INITIAL, calls);
    && Outstanding(cfg, calls) == k && Paired(cfg, calls) && b.lastFailure == 0
    && if n + k == 0 then b.state == Open else b.state == HalfOpen && b.halfOpenCount == n + k && b.successCount == n
  }

  lemma {:induction false} OneMoreLost(cfg: Config, calls: seq<Call>, n: nat, k: nat)
    requires Probed(cfg, calls, n, k) && n + k < Slots(cfg)
    ensures Probed(cfg, calls + [AllowAt(AfterReset(cfg))], n, k + 1)
  {
    AppendAllow(cfg, calls, AllowAt(AfterReset(cfg)));
  }

  lemma {:induction false} OneMoreSuccess(cfg: Config, calls: seq<Call>, n: nat)
    requires Probed(cfg, calls, n, 0) && n < Slots(cfg) && n + 1 < cfg.successThreshold
    ensures Probed(cfg, calls + [AllowAt(AfterReset(cfg)), SuccessAt(AfterReset(cfg))], n + 1, 0)
  {
    AppendPair(cfg, calls, AllowAt(AfterReset(cfg)), SuccessAt(AfterReset(cfg)));
  }

  lemma {:induction false} Probes(cfg: Config, n: nat, k: nat)
    requires n + k <= Slots(cfg) && (n == 0 || n < cfg.successThreshold)
    ensures Probed(cfg, ProbedCalls(cfg, n, k), n, k)
  {
    if k > 0 {
      Probes(cfg, n, k - 1);
      OneMoreLost(cfg, ProbedCalls(cfg, n, k - 1), n, k - 1);
    } else if n > 0 {
      Probes(cfg, n - 1, 0);
      OneMoreSuccess(cfg, ProbedCalls(cfg, n - 1, 0), n - 1);
    } else {
      Trip(cfg, TripCount(cfg));
    }
  }

  /** How many half-open slots are left over once the threshold's last success is the one outstanding. */
  function SpareSlots(cfg: Config): int {
    Slots(cfg) - Needed(cfg)
  }

  function Needed(cfg: Config): nat {
    if cfg.successThreshold <= 1 then 0 else cfg.successThreshold - 1
  }

  lemma {:induction false} LiveWithSpareSlots(cfg: Config, calls: seq<Call>, lost: nat)
    requires Paired(cfg, calls) && lost < SpareSlots(cfg)
    ensures Live(cfg, calls, lost)
  {
    SlotsAccountedFor(cfg, calls);
  }

  /** With `lost` spare slots or fewer, `lost` calls that never report can leave the breaker refusing for good. */
  lemma {:induction false} StuckWithoutSpareSlots(cfg: Config, lost: nat) returns (calls: seq<Call>)
    requires lost >= SpareSlots(cfg)
    ensures Paired(cfg, calls) && Outstanding(cfg, calls) <= lost && !Live(cfg, calls, lost)
    ensures var b := Run(cfg, INITIAL, calls); Refuses(cfg, b) && b.halfOpenCount - b.successCount <= lost
  {
    var n := if Needed(cfg) <= Slots(cfg) then Needed(cfg) else Slots(cfg);
    Probes(cfg, n, Slots(cfg) - n);
    calls := ProbedCalls(cfg, n, Slots(cfg) - n);
    var b := Run(cfg, INITIAL, calls);
    assert !Admits(cfg, b, b.lastFailure + cfg.resetTimeout + 1);
  }

  /** The breaker survives `lost` admitted calls that never report, in every run, exactly when it has more
      spare slots than that. */
  lemma {:induction false} LiveIffSpareSlots(cfg: Config, lost: nat)
    ensures (forall calls :: Paired(cfg, calls) ==> Live(cfg, calls, lost)) <==> lost < SpareSlots(cfg)
  {
    if lost < SpareSlots(cfg) {
      forall calls | Paired(cfg, calls) ensures Live(cfg, calls, lost) {
        LiveWithSpareSlots(cfg, calls, lost);
      }
    } else {
      var calls := StuckWithoutSpareSlots(cfg, lost);
    }
  }

  /** The admitted calls of the current half-open episode that no record has made up for. */
  function EpisodeOutstanding(cfg: Config, calls: seq<Call>): int {
    if calls == [] then 0
    else
      var earlier, b, call := EpisodeOutstanding(cfg, Front(calls)), Run(cfg, INITIAL, Front(calls)), Last(calls);
      if !call.AllowAt? then earlier - 1
      else if !Admits(cfg, b, call.at) || b.state == Closed then earlier
      else if b.state == Open then 1
      else earlier + 1
  }

  lemma {:induction false} EpisodeSlots(cfg: Config, calls: seq<Call>)
    ensures var b := Run(cfg, INITIAL, calls);
      b.state == HalfOpen ==>
        && b.halfOpenCount >= 1 && 0 <= b.successCount <= Needed(cfg)
        && EpisodeOutstanding(cfg, calls) == b.halfOpenCount - b.successCount
  {
    if calls != [] {
      EpisodeSlots(cfg, Front(calls));
    }
  }

  /** Like `Live`, but only calls that took a slot of the current episode count. */
  ghost predicate LiveInEpisode(cfg: Config, calls: seq<Call>, lost: nat) {
    var b := Run(cfg, INITIAL, calls);
    (forall now {:trigger Admits(cfg, b, now)} :: now > b.lastFailure + cfg.resetTimeout ==> Admits(cfg, b, now))
    || EpisodeOutstanding(cfg, calls) > lost
  }

  /** Whatever went unrecorded before, and whatever late outcomes arrive, the breaker survives `lost` calls
      of one half-open episode that never report exactly when it has more spare slots than that. */
  lemma {:induction false} LiveIffEpisodeSpares(cfg: Config, lost: nat)
    ensures (forall calls :: LiveInEpisode(cfg, calls, lost)) <==> lost < SpareSlots(cfg)
  {
    if lost < SpareSlots(cfg) {
      forall calls ensures LiveInEpisode(cfg, calls, lost) {
        EpisodeSlots(cfg, calls);
      }
    } else {
      var calls := StuckWithoutSpareSlots(cfg, lost);
      EpisodeSlots(cfg, calls);
      var b := Run(cfg, INITIAL, calls);
      assert !Admits(cfg, b, b.lastFailure + cfg.resetTimeout + 1);
      assert !LiveInEpisode(cfg, calls, lost);
    }
  }

  /** When every admitted call is recorded, the breaker is live in every run exactly when it has as many
      half-open slots as the success threshold, or a threshold of at most one. */
  lemma {:induction false} LiveIffEnoughSlots(cfg: Config)
    ensures (forall calls :: Paired(cfg, calls) ==> Live(cfg, calls, 0))
       <==> cfg.halfOpenMax >= cfg.successThreshold || cfg.successThreshold <= 1
  {
    LiveIffSpareSlots(cfg, 0);
  }

  /** With the service's own settings (3 slots, 3 successes) there is nothing to spare: a single call that the
      limiter turns away while the breaker is half-open can leave it refusing for good. */
  lemma {:induction false} OneDenialIsTooMany(failureThreshold: int, resetTimeout: int) returns (calls: seq<Call>)
    ensures var cfg := Config(failureThreshold, 3, 3, resetTimeout);
      && Paired(cfg, calls) && Outstanding(cfg, calls) == 1
      && Refuses(cfg, Run(cfg, INITIAL, calls))
      && forall later :: Records(later) == 0 ==>
            Admissions(cfg, INITIAL, calls + later) == Admissions(cfg, INITIAL, calls)
  {
    var cfg := Config(failureThreshold, 3, 3, resetTimeout);
    Probes(cfg, 2, 1);
    calls := ProbedCalls(cfg, 2, 1);
    RefusesForEver(cfg, calls);
  }

  /** A refusing breaker stays as it is under any number of further `Allow` calls: only a Record moves it. */
  lemma {:induction false} RefusesUntilRecord(cfg: Config, b: Value, calls: seq<Call>)
    requires Refuses(cfg, b)
    requires Records(calls) == 0
    ensures Run(cfg, b, calls) == b && Admissions(cfg, b, calls) == 0
  {
    if calls != [] {
      RefusesUntilRecord(cfg, b, Front(calls));
    }
  }

  lemma {:induction false} RefusesForEver(cfg: Config, calls: seq<Call>)
    requires Refuses(cfg, Run(cfg, INITIAL, calls))
    ensures forall later :: Records(later) == 0 ==>
      Admissions(cfg, INITIAL, calls + later) == Admissions(cfg, INITIAL, calls)
  {
    var b := Run(cfg, INITIAL, calls);
    forall later | Records(later) == 0
      ensures Admissions(cfg, INITIAL, calls + later) == Admissions(cfg, INITIAL, calls)
    {
      RunConcat(cfg, INITIAL, calls, later);
      RefusesUntilRecord(cfg, b, later);
    }
  }

  /** `Process` leaves through its two rate-limiter exits (internal/service/delivery.go:107-131) after
      `Allow` and before any Record. With every half-open slot spent that way, each configuration,
      enough slots or not, refuses every later call for ever, although no call is in flight. */
  lemma {:induction false} LimiterExitsWedge(cfg: Config) returns (calls: seq<Call>)
    ensures Paired(cfg, calls) && Outstanding(cfg, calls) == Slots(cfg)
    ensures Refuses(cfg, Run(cfg, INITIAL, calls))
    ensures forall later :: Records(later) == 0 ==>
      Admissions(cfg, INITIAL, calls + later) == Admissions(cfg, INITIAL, calls)
  {
    Probes(cfg, 0, Slots(cfg));
    calls := ProbedCalls(cfg, 0, Slots(cfg));
    RefusesForEver(cfg, calls);
  }
}
