/** The sliding-window limiter of pkg/ratelimit/limiter.go: one Redis sorted set per channel, trimmed
    and re-expired by an atomic script. */
module Limiter {
  import opened Domain

  type Uid = nat

  /** A sorted set with its PEXPIRE deadline. A missing key is the empty set without a deadline. */
  datatype Window = Window(members: map<Uid, int>, expireAt: Option<int>)

  const MISSING := Window(map[], None)

  /** One run of the script, or Redis dropping the key at a moment its deadline has been reached. */
  datatype Event = Script(at: int, uid: Uid) | Expire(at: int)

  datatype Accept = Accept(uid: Uid, at: int)

  /** ZREMRANGEBYSCORE key 0 cutoff */
  function RemoveRange(members: map<Uid, int>, cutoff: int): map<Uid, int> {
    map u | u in members && !(0 <= members[u] <= cutoff) :: members[u]
  }

  /** A set left empty is removed together with its deadline. */
  function Trim(w: Window, cutoff: int): Window {
    var kept := RemoveRange(w.members, cutoff);
    if kept == map[] then MISSING else w.(members := kept)
  }

  predicate Accepts(limit: nat, window: nat, w: Window, now: int) {
    |Trim(w, now - window).members| < limit
  }

  function Step(limit: nat, window: nat, w: Window, e: Event): Window {
    match e
    case Script(now, uid) =>
      var trimmed := Trim(w, now - window);
      if Accepts(limit, window, w, now)
      then Window(trimmed.members[uid := now], Some(now + window))
      else trimmed
    case Expire(at) =>
      if w.expireAt.Some? && w.expireAt.value <= at then MISSING else w
  }

  function Run(limit: nat, window: nat, events: seq<Event>): Window {
    if events == [] then MISSING
    else Step(limit, window, Run(limit, window, events[..|events| - 1]), events[|events| - 1])
  }

  /** The full history of accepted requests, which the store does not keep. */
  function Log(limit: nat, window: nat, events: seq<Event>): seq<Accept> {
    if events == [] then []
    else
      var front, e := events[..|events| - 1], events[|events| - 1];
      Extend(limit, window, Run(limit, window, front), Log(limit, window, front), e)
  }

  function Extend(limit: nat, window: nat, w: Window, log: seq<Accept>, e: Event): seq<Accept> {
    if e.Script? && Accepts(limit, window, w, e.at) then log + [Accept(e.uid, e.at)] else log
  }

  /** One clock that never runs backwards, and a fresh uuid per script run. */
  predicate WellTimed(events: seq<Event>) {
    && (forall i :: 0 <= i < |events| ==> 0 <= events[i].at)
    && (forall i, j :: 0 <= i < j < |events| ==> events[i].at <= events[j].at)
    && (forall i, j :: 0 <= i < j < |events| && events[i].Script? && events[j].Script? ==>
          events[i].uid != events[j].uid)
  }

  /** How many requests were accepted in (lo, hi]. */
  function CountIn(log: seq<Accept>, lo: int, hi: int): nat {
    if log == [] then 0
    else CountIn(log[..|log| - 1], lo, hi) + if lo < log[|log| - 1].at <= hi then 1 else 0
  }

  lemma {:induction false} RunAppend(limit: nat, window: nat, events: seq<Event>, e: Event)
    ensures Run(limit, window, events + [e]) == Step(limit, window, Run(limit, window, events), e)
  {
    assert (events + [e])[..|events|] == events;
  }

  /** What the second before `now` leaves of a set. */
  function Recent(w: Window, now: int): map<Uid, int> {
    map u | u in w.members && !(0 <= w.members[u] <= now - 1000) :: w.members[u]
  }

  class Limiter {
    const limitPerSec: nat
    const windowMs: nat := 1000
    var store: map<Channel, Window>
    ghost var history: map<Channel, seq<Event>>

    function Key(channel: Channel): Window
      reads this
    {
      if channel in store then store[channel] else MISSING
    }

    ghost function History(channel: Channel): seq<Event>
      reads this
    {
      if channel in history then history[channel] else []
    }

    ghost predicate Valid()
      reads this
    {
      forall c: Channel :: Key(c) == Run(limitPerSec, windowMs, History(c))
    }

    constructor (limitPerSec: nat)
      ensures Valid() && this.limitPerSec == limitPerSec && windowMs == 1000
      ensures forall c: Channel :: History(c) == []
    {
      this.limitPerSec := limitPerSec;
      store, history := map[], map[];
    }

    method Allow(channel: Channel, now: int, uid: Uid) returns (allowed: bool)
      requires Valid()
      modifies this
      ensures Valid()
      ensures allowed == Accepts(limitPerSec, windowMs, old(Key(channel)), now)
      ensures allowed == (|Recent(old(Key(channel)), now)| < limitPerSec)
      ensures var recent := Recent(old(Key(channel)), now);
        Key(channel).members == if allowed then recent[uid := now] else recent
      ensures allowed ==> Key(channel).expireAt == Some(now + 1000)
      ensures History(channel) == old(History(channel)) + [Script(now, uid)]
      ensures forall c: Channel :: c != channel ==> Key(c) == old(Key(c)) && History(c) == old(History(c))
    {
      ghost var events := History(channel) + [Script(now, uid)];
      RunAppend(limitPerSec, windowMs, History(channel), Script(now, uid));
      var w := Trim(Key(channel), now - windowMs);
      var count := |w.members|;
      allowed := false;
      if count < limitPerSec {
        w := Window(w.members[uid := now], w.expireAt);
        w := w.(expireAt := Some(now + windowMs));
        allowed := true;
      }
      assert w == Step(limitPerSec, windowMs, Key(channel), Script(now, uid));
      store := store[channel := w];
      history := history[channel := events];
      forall c: Channel ensures Key(c) == Run(limitPerSec, windowMs, History(c)) {
        if c != channel {
          assert Key(c) == old(Key(c)) && History(c) == old(History(c));
        }
      }
    }

    /** Redis drops an expired key, lazily or in the background, at any moment from its deadline on. */
    method DropExpired(channel: Channel, now: int)
      requires Valid()
      modifies this
      ensures Valid()
      ensures History(channel) == old(History(channel)) + [Expire(now)]
      ensures forall c: Channel :: c != channel ==> Key(c) == old(Key(c)) && History(c) == old(History(c))
    {
      ghost var events := History(channel) + [Expire(now)];
      RunAppend(limitPerSec, windowMs, History(channel), Expire(now));
      var w := Key(channel);
      if w.expireAt.Some? && w.expireAt.value <= now {
        store := store - {channel};
      }
      history := history[channel := events];
      forall c: Channel ensures Key(c) == Run(limitPerSec, windowMs, History(c)) {
        if c != channel {
          assert Key(c) == old(Key(c)) && History(c) == old(History(c));
        }
      }
    }
  }
}

/** Trimming and expiry never change a decision: the store answers as the full history would. */
module LimiterRefinement {
  import opened Domain
  import opened Limiter

  predicate Distinct(log: seq<Accept>) {
    forall i, j :: 0 <= i < j < |log| ==> log[i].uid != log[j].uid
  }

  predicate Sorted(log: seq<Accept>) {
    forall i, j :: 0 <= i < j < |log| ==> log[i].at <= log[j].at
  }

  /** The store as a function of the full history: the requests accepted after `cutoff`. */
  function Stored(log: seq<Accept>, cutoff: int): map<Uid, int> {
    if log == [] then map[]
    else
      var front, last := log[..|log| - 1], log[|log| - 1];
      if last.at > cutoff then Stored(front, cutoff)[last.uid := last.at] else Stored(front, cutoff)
  }

  lemma {:induction false} StoredUids(log: seq<Accept>, cutoff: int, uid: Uid)
    requires forall i :: 0 <= i < |log| ==> log[i].uid != uid
    ensures uid !in Stored(log, cutoff)
  {
    if log != [] {
      StoredUids(log[..|log| - 1], cutoff, uid);
    }
  }

  lemma {:induction false} StoredSize(log: seq<Accept>, cutoff: int, now: int)
    requires Distinct(log)
    requires forall i :: 0 <= i < |log| ==> log[i].at <= now
    ensures |Stored(log, cutoff)| == CountIn(log, cutoff, now)
  {
    if log != [] {
      var front, last := log[..|log| - 1], log[|log| - 1];
      StoredSize(front, cutoff, now);
      StoredUids(front, cutoff, last.uid);
    }
  }

  lemma {:induction false} RemoveRangeInsert(m: map<Uid, int>, uid: Uid, at: nat, cutoff: int)
    requires uid !in m
    ensures RemoveRange(m[uid := at], cutoff)
         == if at > cutoff then RemoveRange(m, cutoff)[uid := at] else RemoveRange(m, cutoff)
  {
  }

  /** Trimming what an older cutoff left gives what the newer one leaves. */
  lemma {:induction false} TrimStored(log: seq<Accept>, oldCut: int, cutoff: int)
    requires Distinct(log) && oldCut <= cutoff
    requires forall i :: 0 <= i < |log| ==> 0 <= log[i].at
    ensures RemoveRange(Stored(log, oldCut), cutoff) == Stored(log, cutoff)
  {
    if log != [] {
      var front, last := log[..|log| - 1], log[|log| - 1];
      TrimStored(front, oldCut, cutoff);
      StoredUids(front, oldCut, last.uid);
      RemoveRangeInsert(Stored(front, oldCut), last.uid, last.at, cutoff);
    }
  }

  lemma {:induction false} StoredEmpty(log: seq<Accept>, cutoff: int)
    requires forall i :: 0 <= i < |log| ==> log[i].at <= cutoff
    ensures Stored(log, cutoff) == map[]
  {
    if log != [] {
      StoredEmpty(log[..|log| - 1], cutoff);
    }
  }

  predicate Chronological(log: seq<Accept>) {
    && Distinct(log) && Sorted(log)
    && forall i :: 0 <= i < |log| ==> 0 <= log[i].at
  }

  lemma {:induction false} LogUids(limit: nat, window: nat, events: seq<Event>, uid: Uid)
    requires forall i :: 0 <= i < |events| && events[i].Script? ==> events[i].uid != uid
    ensures forall i :: 0 <= i < |Log(limit, window, events)| ==> Log(limit, window, events)[i].uid != uid
  {
    if events != [] {
      LogUids(limit, window, events[..|events| - 1], uid);
    }
  }

  lemma {:induction false} LogFacts(limit: nat, window: nat, events: seq<Event>)
    requires WellTimed(events)
    ensures Chronological(Log(limit, window, events))
    ensures forall i :: 0 <= i < |Log(limit, window, events)| ==>
      Log(limit, window, events)[i].at <= events[|events| - 1].at
  {
    if events != [] {
      var front, e := events[..|events| - 1], events[|events| - 1];
      LogFacts(limit, window, front);
      if e.Script? {
        LogUids(limit, window, front, e.uid);
      }
    }
  }

  /** `w` holds exactly the part of the history after `cutoff`, and its deadline is one window after
      the last accepted request. */
  predicate Holds(window: nat, w: Window, log: seq<Accept>, cutoff: int) {
    && w.members == Stored(log, cutoff)
    && (w.expireAt.Some? ==> log != [] && w.expireAt.value == log[|log| - 1].at + window)
  }

  lemma {:induction false} TrimKeeps(window: nat, w: Window, log: seq<Accept>, cutoff: int, newCut: int)
    requires Chronological(log) && Holds(window, w, log, cutoff) && cutoff <= newCut
    ensures Holds(window, Trim(w, newCut), log, newCut)
  {
    TrimStored(log, cutoff, newCut);
  }

  lemma {:induction false} AcceptKeeps(window: nat, w: Window, log: seq<Accept>, cutoff: int, a: Accept)
    requires Holds(window, w, log, cutoff) && cutoff < a.at
    ensures Holds(window, Window(w.members[a.uid := a.at], Some(a.at + window)), log + [a], cutoff)
  {
    assert (log + [a])[..|log|] == log;
  }

  /** The script after its ZREMRANGEBYSCORE. */
  lemma {:induction false} TrimmedScriptKeeps(limit: nat, window: nat, t: Window, log: seq<Accept>, a: Accept)
    requires window > 0 && Holds(window, t, log, a.at - window)
    ensures if |t.members| < limit
            then Holds(window, Window(t.members[a.uid := a.at], Some(a.at + window)), log + [a], a.at - window)
            else Holds(window, t, log, a.at - window)
  {
    if |t.members| < limit {
      AcceptKeeps(window, t, log, a.at - window, a);
    }
  }

  lemma {:induction false} ScriptKeeps(
    limit: nat, window: nat, w: Window, log: seq<Accept>, cutoff: int, now: int, uid: Uid)
    requires window > 0 && Chronological(log) && Holds(window, w, log, cutoff) && cutoff <= now - window
    ensures var e := Script(now, uid);
      Holds(window, Step(limit, window, w, e), Extend(limit, window, w, log, e), now - window)
  {
    TrimKeeps(window, w, log, cutoff, now - window);
    TrimmedScriptKeeps(limit, window, Trim(w, now - window), log, Accept(uid, now));
  }

  lemma {:induction false} ExpireKeeps(limit: nat, window: nat, w: Window, log: seq<Accept>, cutoff: int, e: Event)
    returns (cut: int)
    requires Chronological(log) && Holds(window, w, log, cutoff) && cutoff <= e.at - window && e.Expire?
    ensures cut <= e.at - window
    ensures Holds(window, Step(limit, window, w, e), Extend(limit, window, w, log, e), cut)
  {
    cut := cutoff;
    if w.expireAt.Some? && w.expireAt.value <= e.at {
      cut := e.at - window;
      StoredEmpty(log, cut);
    }
  }

  lemma {:induction false} StepKeeps(limit: nat, window: nat, w: Window, log: seq<Accept>, cutoff: int, e: Event)
    returns (cut: int)
    requires window > 0 && Chronological(log) && Holds(window, w, log, cutoff) && cutoff <= e.at - window
    ensures cut <= e.at - window
    ensures Holds(window, Step(limit, window, w, e), Extend(limit, window, w, log, e), cut)
  {
    if e.Script? {
      cut := e.at - window;
      ScriptKeeps(limit, window, w, log, cutoff, e.at, e.uid);
    } else {
      cut := ExpireKeeps(limit, window, w, log, cutoff, e);
    }
  }

  /** The cutoff is already out of every future window. */
  lemma {:induction false} StoreIsRecentHistory(limit: nat, window: nat, events: seq<Event>) returns (cutoff: int)
    requires window > 0 && WellTimed(events)
    ensures Holds(window, Run(limit, window, events), Log(limit, window, events), cutoff)
    ensures events != [] ==> cutoff <= events[|events| - 1].at - window
  {
    cutoff := 0;
    if events != [] {
      var front, e := events[..|events| - 1], events[|events| - 1];
      cutoff := StoreIsRecentHistory(limit, window, front);
      LogFacts(limit, window, front);
      cutoff := if front == [] then e.at - window else cutoff;
      cutoff := StepKeeps(limit, window, Run(limit, window, front), Log(limit, window, front), cutoff, e);
    }
  }

  /** Refinement: after any history, deletions by expiry included, the script accepts exactly when
      fewer than `limit` requests were accepted in (now - window, now]. */
  lemma {:induction false} DecisionMatchesHistory(limit: nat, window: nat, events: seq<Event>, now: int)
    requires window > 0 && WellTimed(events)
    requires events != [] ==> events[|events| - 1].at <= now
    ensures Accepts(limit, window, Run(limit, window, events), now)
       <==> CountIn(Log(limit, window, events), now - window, now) < limit
  {
    if events != [] {
      var cutoff := StoreIsRecentHistory(limit, window, events);
      LogFacts(limit, window, events);
      TrimKeeps(window, Run(limit, window, events), Log(limit, window, events), cutoff, now - window);
      StoredSize(Log(limit, window, events), now - window, now);
    }
  }
}

/** The bound the limiter exists for. */
module LimiterRate {
  import opened Domain
  import opened Limiter
  import opened LimiterRefinement

  lemma {:induction false} LateRequestsCount(log: seq<Accept>, lo: int, hi: int, j: nat)
    requires Sorted(log) && j < |log| && log[j].at > lo && log[|log| - 1].at <= hi
    ensures CountIn(log, lo, hi) >= |log| - j
  {
    if j < |log| - 1 {
      LateRequestsCount(log[..|log| - 1], lo, hi, j);
    }
  }

  /** Every request is a full window later than the one `limit` places before it. */
  predicate Spaced(log: seq<Accept>, limit: nat, window: nat) {
    forall i :: limit <= i < |log| ==> log[i].at - log[i - limit].at >= window
  }

  lemma {:induction false} AppendIsSpaced(log: seq<Accept>, a: Accept, limit: nat, window: nat)
    requires limit > 0 && Sorted(log) && Spaced(log, limit, window)
    requires log != [] ==> log[|log| - 1].at <= a.at
    requires CountIn(log, a.at - window, a.at) < limit
    ensures Spaced(log + [a], limit, window)
  {
    if |log| >= limit && log[|log| - limit].at > a.at - window {
      LateRequestsCount(log, a.at - window, a.at, |log| - limit);
    }
  }

  /** The next decision, seen from the log alone. */
  predicate Decides(limit: nat, window: nat, w: Window, log: seq<Accept>, now: int) {
    && Sorted(log) && (log != [] ==> log[|log| - 1].at <= now)
    && (Accepts(limit, window, w, now) <==> CountIn(log, now - window, now) < limit)
  }

  lemma {:induction false} ExtendIsSpaced(limit: nat, window: nat, w: Window, log: seq<Accept>, e: Event)
    requires limit > 0 && Spaced(log, limit, window)
    requires Decides(limit, window, w, log, e.at)
    ensures Spaced(Extend(limit, window, w, log, e), limit, window)
  {
    if e.Script? && Accepts(limit, window, w, e.at) {
      AppendIsSpaced(log, Accept(e.uid, e.at), limit, window);
    }
  }

  lemma {:induction false} RunDecides(limit: nat, window: nat, front: seq<Event>, now: int)
    requires window > 0 && WellTimed(front)
    requires front != [] ==> front[|front| - 1].at <= now
    ensures Decides(limit, window, Run(limit, window, front), Log(limit, window, front), now)
  {
    LogFacts(limit, window, front);
    DecisionMatchesHistory(limit, window, front, now);
  }

  lemma {:induction false} LogIsSpaced(limit: nat, window: nat, events: seq<Event>)
    requires limit > 0 && window > 0 && WellTimed(events)
    ensures Spaced(Log(limit, window, events), limit, window)
  {
    if events != [] {
      var front, e := events[..|events| - 1], events[|events| - 1];
      LogIsSpaced(limit, window, front);
      RunDecides(limit, window, front, e.at);
      ExtendIsSpaced(limit, window, Run(limit, window, front), Log(limit, window, front), e);
    }
  }

  lemma {:induction false} SpacedMany(log: seq<Accept>, limit: nat, window: nat, i: nat, m: nat)
    requires Spaced(log, limit, window)
    requires i + limit * m < |log|
    ensures log[i + limit * m].at - log[i].at >= window * m
  {
    if m > 0 {
      var before := i + limit * (m - 1);
      assert before + limit == i + limit * m && window * m == window * (m - 1) + window;
      SpacedMany(log, limit, window, i, m - 1);
      assert log[before + limit].at - log[before + limit - limit].at >= window;
    }
  }

  /** The requests of an interval form one contiguous block of the log. */
  lemma {:induction false} Block(log: seq<Accept>, lo: int, hi: int) returns (a: nat, b: nat)
    requires Sorted(log)
    ensures a <= b <= |log| && CountIn(log, lo, hi) == b - a
    ensures forall i :: a <= i < b ==> lo < log[i].at <= hi
    ensures forall i :: b <= i < |log| ==> log[i].at > hi
  {
    a, b := 0, 0;
    if log != [] {
      var front, last := log[..|log| - 1], log[|log| - 1];
      a, b := Block(front, lo, hi);
      if a < b {
        assert log[a].at <= last.at;
      }
      if b < |front| {
        assert log[b].at <= last.at;
      }
      if last.at <= lo {
        a, b := |log|, |log|;
      } else if last.at <= hi {
        b := |log|;
      }
    }
  }

  lemma {:induction false} SpacedRate(log: seq<Accept>, limit: nat, window: nat, lo: int, hi: int, m: nat)
    requires Sorted(log) && Spaced(log, limit, window)
    requires hi - lo <= window * m
    ensures CountIn(log, lo, hi) <= limit * m
  {
    var a, b := Block(log, lo, hi);
    if b - a > limit * m {
      SpacedMany(log, limit, window, a, m);
      assert false;
    }
  }

  lemma {:induction false} NothingAccepted(window: nat, events: seq<Event>)
    ensures Log(0, window, events) == []
  {
    if events != [] {
      NothingAccepted(window, events[..|events| - 1]);
    }
  }

  /** Any span of length at most m windows holds at most limit * m accepted requests; with m = 1,
      any window (t - window, t] holds at most `limit`. */
  lemma {:induction false} AcceptRate(limit: nat, window: nat, events: seq<Event>, lo: int, hi: int, m: nat)
    requires window > 0 && WellTimed(events)
    requires hi - lo <= window * m
    ensures CountIn(Log(limit, window, events), lo, hi) <= limit * m
  {
    if limit == 0 {
      NothingAccepted(window, events);
      return;
    }
    LogFacts(limit, window, events);
    LogIsSpaced(limit, window, events);
    SpacedRate(Log(limit, window, events), limit, window, lo, hi, m);
  }

  /** The same bound with m = ceil(length / window). */
  lemma {:induction false} AcceptRateCeil(limit: nat, window: nat, events: seq<Event>, lo: int, hi: int)
    requires window > 0 && WellTimed(events) && lo <= hi
    ensures CountIn(Log(limit, window, events), lo, hi) <= limit * ((hi - lo + window - 1) / window)
  {
    var m := (hi - lo + window - 1) / window;
    assert hi - lo + window - 1 == window * m + (hi - lo + window - 1) % window;
    AcceptRate(limit, window, events, lo, hi, m);
  }

  /** For the limiter itself: on every channel, no second holds more than `limitPerSec` accepted calls. */
  lemma {:induction false} PerSecond(limiter: Limiter, channel: Channel, t: int)
    requires limiter.Valid() && WellTimed(limiter.History(channel))
    ensures CountIn(Log(limiter.limitPerSec, 1000, limiter.History(channel)), t - 1000, t) <= limiter.limitPerSec
    ensures limiter.Key(channel) == Run(limiter.limitPerSec, 1000, limiter.History(channel))
  {
    AcceptRate(limiter.limitPerSec, limiter.windowMs, limiter.History(channel), t - 1000, t, 1);
  }
}
