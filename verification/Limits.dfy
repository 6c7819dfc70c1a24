/** What the two retry limits, s.maxRetries and the row's max_retries, have to do with each other. */
module RetryLimits {
  import opened Domain
  import opened Lifecycle
  import opened AtMostOnce
  import opened Ownership
  import opened Books

  ghost predicate NormalRun(cfg: Config, events: seq<Event>) {
    && (forall i :: 0 <= i < |events| ==> Normal(events[i]))
    && Run(cfg, EMPTY, events).Some?
  }

  function CellAfter(cfg: Config, events: seq<Event>): Cell
    requires Run(cfg, EMPTY, events).Some?
  {
    Run(cfg, EMPTY, events).value
  }

  ghost predicate PolledFrom(row: Row, t: int) {
    forall now :: now >= t ==> ScheduledReady(row, now) || RetryReady(row, now)
  }

  /** A poller's guard holds from some moment on. */
  ghost predicate WillBePolled(row: Row) {
    exists t :: PolledFrom(row, t)
  }

  ghost predicate DeadLettered(cfg: Config, c: Cell) {
    && c.store.row.Some? && c.store.row.value.status == Failed
    && c.store.row.value.retryCount >= cfg.maxRetries
    && (c.store.dead >= 1 || exists i :: 0 <= i < |c.hands| && c.hands[i].Burying?)
  }

  /** Delivered, cancelled, dead-lettered, or in the hands of exactly one owner. */
  ghost predicate Accounted(cfg: Config, c: Cell) {
    c.store.row.Some? ==>
      || c.store.row.value.status == Delivered
      || c.store.row.value.status == Cancelled
      || DeadLettered(cfg, c)
      || (WillBePolled(c.store.row.value) && !c.store.queued && NoOwner(c.hands))
      || (c.store.queued && !Parked(c.store) && NoOwner(c.hands))
      || (!c.store.queued && !Parked(c.store)
          && exists i :: SoleOwner(c.hands, i))
  }

  /** s.maxRetries does not exceed max_retries, unless it is so small that nothing is ever retried. */
  predicate LimitsAgree(cfg: Config) {
    cfg.maxRetries <= cfg.rowMaxRetries || cfg.maxRetries <= 1
  }

  lemma {:induction false} BuryingCounted(hands: seq<Hand>)
    requires Count(IsBurying, hands) >= 1
    ensures exists i :: 0 <= i < |hands| && hands[i].Burying?
  {
    if !hands[|hands| - 1].Burying? {
      BuryingCounted(hands[..|hands| - 1]);
    }
  }

  lemma {:induction false} ParkedRowIsAccounted(cfg: Config, c: Cell, s: Solo)
    requires LimitsAgree(cfg) && Abstracts(c, s) && Balanced(cfg, s) && s.place == InRow
    ensures Accounted(cfg, c)
  {
    var row := c.store.row.value;
    if row.status == Status.Scheduled {
      assert PolledFrom(row, row.scheduledAt.value);
    } else if row.retryCount < cfg.maxRetries {
      assert PolledFrom(row, row.nextRetryAt.value);
    } else if c.store.dead == 0 {
      BuryingCounted(c.hands);
    }
  }

  lemma {:induction false} HeldRowIsAccounted(cfg: Config, c: Cell, s: Solo)
    requires Abstracts(c, s) && Balanced(cfg, s) && s.place.InHand?
    ensures Accounted(cfg, c)
  {
    var i :| SoleOwner(c.hands, i) && c.hands[i] == s.place.hand;
  }

  lemma {:induction false} NothingIsLost(cfg: Config, events: seq<Event>)
    requires LimitsAgree(cfg) && NormalRun(cfg, events)
    ensures Accounted(cfg, CellAfter(cfg, events))
  {
    var s := RunIsBalanced(cfg, events);
    if s.place == InRow {
      ParkedRowIsAccounted(cfg, CellAfter(cfg, events), s);
    } else if s.place.InHand? {
      HeldRowIsAccounted(cfg, CellAfter(cfg, events), s);
    }
  }

  /** `c` follows from `from` by these fault-free calls. */
  ghost predicate Plays(cfg: Config, from: Cell, events: seq<Event>, c: Cell) {
    && (forall i :: 0 <= i < |events| ==> Normal(events[i]))
    && Run(cfg, from, events) == Some(c)
  }

  lemma {:induction false} Extend(cfg: Config, from: Cell, past: seq<Event>, c: Cell, e: Event)
    returns (events: seq<Event>, c': Cell)
    requires Plays(cfg, from, past, c) && Normal(e) && Step(cfg, c, e).Some?
    ensures c' == Step(cfg, c, e).value && Plays(cfg, from, events, c') && past <= events
  {
    events, c' := past + [e], Step(cfg, c, e).value;
    assert events[..|events| - 1] == past;
  }

  /** Nobody but actors that are through, or that have only a stale write left. */
  predicate Quiet(hands: seq<Hand>) {
    forall j :: 0 <= j < |hands| ==> hands[j].Done? || hands[j].Stale?
  }

  predicate Unfinished(cfg: Config, c: Cell, retries: nat, dead: nat) {
    && c.store.row.Some?
    && c.store.row.value.retryCount == retries
    && c.store.row.value.maxRetries == cfg.rowMaxRetries
    && c.store.dead == dead
  }

  /** Due for a poller at time 0, after `retries` failures. */
  predicate Due(cfg: Config, c: Cell, retries: nat, dead: nat) {
    && Unfinished(cfg, c, retries, dead) && !c.store.queued && Quiet(c.hands)
    && if retries == 0 then ScheduledReady(c.store.row.value, 0)
       else c.store.row.value.status == Failed && c.store.row.value.nextRetryAt == Some(0)
  }

  /** In the sorted set. */
  predicate Waiting(cfg: Config, c: Cell, retries: nat, dead: nat) {
    && Unfinished(cfg, c, retries, dead) && c.store.queued && Quiet(c.hands)
    && !c.store.row.value.status.IsFinal()
    && (retries > 0 ==> c.store.row.value.nextRetryAt == Some(0))
  }

  /** Refused by the breaker and about to write that. */
  predicate Refused(cfg: Config, c: Cell, retries: nat, dead: nat) {
    && Unfinished(cfg, c, retries, dead) && !c.store.queued
    && c.hands != []
    && var n := |c.hands| - 1;
    && Quiet(c.hands[..n]) && c.hands[n].Failing?
    && c.hands[n].copy.retryCount == retries + 1
    && (retries > 0 ==> c.hands[n].copy.nextRetryAt == Some(0))
  }

  lemma {:induction false} PollAndEnqueue(cfg: Config, from: Cell, past: seq<Event>, c: Cell, retries: nat, dead: nat)
    returns (events: seq<Event>, c': Cell)
    requires Plays(cfg, from, past, c) && Due(cfg, c, retries, dead)
    requires retries == 0 || retries < cfg.rowMaxRetries
    ensures Plays(cfg, from, events, c') && Waiting(cfg, c', retries, dead)
  {
    events, c' := Extend(cfg, from, past, c, if retries == 0 then PollScheduled(0) else PollRetry(0));
    events, c' := Extend(cfg, from, events, c', Act(|c.hands|, Publish(true)));
  }

  lemma {:induction false} Refuse(cfg: Config, from: Cell, past: seq<Event>, c: Cell, retries: nat, dead: nat)
    returns (events: seq<Event>, c': Cell)
    requires Plays(cfg, from, past, c) && Waiting(cfg, c, retries, dead)
    ensures Plays(cfg, from, events, c') && Refused(cfg, c', retries, dead)
    ensures c'.hands[..|c'.hands| - 1] == c.hands && c'.store.sent == c.store.sent
  {
    var n := |c.hands|;
    events, c' := Extend(cfg, from, past, c, Dequeue);
    events, c' := Extend(cfg, from, events, c', Act(n, Fetch(true)));
    events, c' := Extend(cfg, from, events, c', Act(n, MarkProcessing(true)));
    events, c' := Extend(cfg, from, events, c', Act(n, AskBreaker(false)));
  }

  lemma {:induction false} WriteRefusal(cfg: Config, from: Cell, past: seq<Event>, c: Cell, retries: nat, dead: nat)
    returns (events: seq<Event>, c': Cell)
    requires Plays(cfg, from, past, c) && Refused(cfg, c, retries, dead)
    requires retries + 1 < cfg.maxRetries || retries >= 1
    ensures Plays(cfg, from, events, c')
    ensures Due(cfg, c', retries + 1, dead + One(retries + 1 >= cfg.maxRetries))
    ensures |c'.hands| == |c.hands| && c'.hands[..|c.hands| - 1] == c.hands[..|c.hands| - 1]
    ensures c'.store.sent == c.store.sent
  {
    var n := |c.hands| - 1;
    events, c' := Extend(cfg, from, past, c, Act(n, WriteFailed(0, true)));
    if retries + 1 >= cfg.maxRetries {
      events, c' := Extend(cfg, from, events, c', Act(n, Bury(true)));
    }
    assert c'.hands == c.hands[..n] + [Done];
  }

  /** One more poll, delivery and breaker refusal. */
  lemma {:induction false} FailAgain(cfg: Config, from: Cell, past: seq<Event>, c: Cell, retries: nat, dead: nat)
    returns (events: seq<Event>, c': Cell)
    requires Plays(cfg, from, past, c) && Due(cfg, c, retries, dead)
    requires retries == 0 || retries < cfg.rowMaxRetries
    requires retries + 1 < cfg.maxRetries || retries >= 1
    ensures Plays(cfg, from, events, c')
    ensures Due(cfg, c', retries + 1, dead + One(retries + 1 >= cfg.maxRetries))
  {
    events, c' := PollAndEnqueue(cfg, from, past, c, retries, dead);
    events, c' := Refuse(cfg, from, events, c', retries, dead);
    events, c' := WriteRefusal(cfg, from, events, c', retries, dead);
  }

  lemma {:induction false} FailTimes(cfg: Config, k: nat) returns (events: seq<Event>, c: Cell)
    requires cfg.maxRetries >= 2 && k <= cfg.maxRetries
    requires k <= 1 || k <= cfg.rowMaxRetries
    ensures Plays(cfg, EMPTY, events, c) && Due(cfg, c, k, One(k >= cfg.maxRetries))
  {
    if k == 0 {
      events, c := Extend(cfg, EMPTY, [], EMPTY, Insert(Some(0)));
    } else {
      events, c := FailTimes(cfg, k - 1);
      events, c := FailAgain(cfg, EMPTY, events, c, k - 1, 0);
    }
  }

  /** A row that failed past its own limit but not past the service's is selected by no poller and
      buried by no worker. */
  lemma {:induction false} StrandedWhenLimitsDisagree(cfg: Config) returns (events: seq<Event>)
    requires !LimitsAgree(cfg)
    ensures NormalRun(cfg, events) && !Accounted(cfg, CellAfter(cfg, events))
  {
    var k := if cfg.rowMaxRetries == 0 then 1 else cfg.rowMaxRetries;
    var c: Cell;
    events, c := FailTimes(cfg, k);
    var row := c.store.row.value;
    assert forall now :: !ScheduledReady(row, now) && !RetryReady(row, now);
    forall t ensures !PolledFrom(row, t) {
      assert !ScheduledReady(row, t);
    }
  }

  /** No notification is lost in any fault-free run exactly when the two limits agree. */
  lemma {:induction false} NothingIsLostIffLimitsAgree(cfg: Config)
    ensures (forall events :: NormalRun(cfg, events) ==> Accounted(cfg, CellAfter(cfg, events))) <==> LimitsAgree(cfg)
  {
    if LimitsAgree(cfg) {
      forall events | NormalRun(cfg, events) ensures Accounted(cfg, CellAfter(cfg, events)) {
        NothingIsLost(cfg, events);
      }
    } else {
      var events := StrandedWhenLimitsDisagree(cfg);
    }
  }

  /** s.maxRetries is not below max_retries, unless nothing is ever retried. */
  predicate BuriesOnce(cfg: Config) {
    cfg.maxRetries >= cfg.rowMaxRetries || cfg.maxRetries <= 1
  }

  /** handleRetry raises the copy's count before it writes. */
  predicate RaisedOnce(h: Hand) {
    h.Failing? ==> h.copy.retryCount >= 1
  }

  predicate BelowLimit(cfg: Config, s: Solo) {
    s.store.row.Some? ==>
      var row := s.store.row.value;
      && row.retryCount <= cfg.maxRetries
      && (s.place != Nowhere && row.status != Failed ==> row.retryCount < cfg.maxRetries)
      && (row.status == Delivered ==> row.retryCount < cfg.maxRetries)
  }

  lemma {:induction false} TurnKeepsBelowLimit(cfg: Config, s: Solo, turn: Turn)
    requires 1 <= cfg.maxRetries == cfg.rowMaxRetries
    requires Balanced(cfg, s) && BelowLimit(cfg, s) && Clean(turn) && Turned(cfg, s, turn).Some?
    ensures BelowLimit(cfg, Turned(cfg, s, turn).value)
  {
  }

  lemma {:induction false} RunBelowLimit(cfg: Config, events: seq<Event>) returns (s: Solo)
    requires 1 <= cfg.maxRetries == cfg.rowMaxRetries && NormalRun(cfg, events)
    ensures Abstracts(CellAfter(cfg, events), s) && Balanced(cfg, s) && BelowLimit(cfg, s)
  {
    if events == [] {
      s := Solo(EMPTY_STORE, Nowhere, 0);
    } else {
      var front, e := events[..|events| - 1], events[|events| - 1];
      s := RunBelowLimit(cfg, front);
      var c := CellAfter(cfg, front);
      Simulate(cfg, c, s, e);
      TurnKeepsBelowLimit(cfg, s, Image(c, e));
      s := StepIsBalanced(cfg, c, s, e);
    }
  }
}
