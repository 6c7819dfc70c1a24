/** That nobody acts on a notification before its time, at the finest grain and with every fault and crash allowed. */
module Timeliness {
  import opened Domain
  import opened Lifecycle
  import opened Ownership
  import opened Absorbing
  import opened RetryLimits
  import RetryCounts

  /** In every run, the scheduler takes only a scheduled row whose time has come, and the retry poller only a failed
      row that has retries left and whose next retry has come. */
  lemma {:induction false} ClaimsWaitTheirTurn(cfg: Config, events: seq<Event>, k: nat)
    requires Run(cfg, EMPTY, events).Some? && k < |events|
    ensures Run(cfg, EMPTY, events[..k]).Some?
    ensures events[k].PollScheduled? ==>
      var row := CellAfter(cfg, events[..k]).store.row;
      && row.Some? && row.value.status == Scheduled
      && row.value.scheduledAt.Some? && row.value.scheduledAt.value <= events[k].now
    ensures events[k].PollRetry? ==>
      var row := CellAfter(cfg, events[..k]).store.row;
      && row.Some? && row.value.status == Failed && row.value.retryCount < row.value.maxRetries
      && row.value.nextRetryAt.Some? && row.value.nextRetryAt.value <= events[k].now
  {
    PrefixRuns(cfg, events, k);
    PrefixRuns(cfg, events, k + 1);
    assert events[..k + 1][..k] == events[..k];
  }

  predicate IsScheduledFor(e: Event, at: int) {
    e == Insert(Some(at)) || e == InsertBatchRow(Some(at))
  }

  predicate PolledInTime(events: seq<Event>, at: int) {
    exists k :: 0 <= k < |events| && events[k].PollScheduled? && events[k].now >= at
  }

  predicate IsCancelled(events: seq<Event>) {
    exists k :: 0 <= k < |events| && events[k].Cancel?
  }

  /** Nothing but the row: no message, no worker, no call of the provider. */
  predicate Untouched(cfg: Config, c: Cell, at: int, cancelled: bool) {
    c == Cell(Store(Some(Row(if cancelled then Cancelled else Scheduled, 0, cfg.rowMaxRetries, Some(at), None)),
                    false, 0, 0, 0, 0, [], 0), [])
  }

  lemma {:induction false} HandsStay(cfg: Config, c: Cell, e: Event)
    requires Step(cfg, c, e).Some?
    ensures |Step(cfg, c, e).value.hands| >= |c.hands|
  {
  }

  lemma {:induction false} ScheduledStep(cfg: Config, c: Cell, at: int, cancelled: bool, e: Event)
    requires Untouched(cfg, c, at, cancelled) && Step(cfg, c, e).Some?
    ensures var c' := Step(cfg, c, e).value;
      if e.PollScheduled? then e.now >= at && |c'.hands| == 1 else Untouched(cfg, c', at, cancelled || e.Cancel?)
  {
  }

  /** A notification scheduled for `at` waits: somebody has got hold of it exactly when a poll at `at` or later took
      it. Until then there is no message, no worker and no send, and only a cancel changes its row. */
  lemma {:induction false} ScheduledWaits(cfg: Config, events: seq<Event>, at: int)
    requires Run(cfg, EMPTY, events).Some? && events != [] && IsScheduledFor(events[0], at)
    ensures CellAfter(cfg, events).hands != [] <==> PolledInTime(events, at)
    ensures CellAfter(cfg, events).hands == [] ==> Untouched(cfg, CellAfter(cfg, events), at, IsCancelled(events))
  {
    var front, e := events[..|events| - 1], events[|events| - 1];
    assert events == front + [e];
    if front == [] {
      assert Run(cfg, EMPTY, []) == Some(EMPTY);
    } else {
      ScheduledWaits(cfg, front, at);
      var before := CellAfter(cfg, front);
      assert forall k :: 0 <= k < |front| ==> events[k] == front[k];
      if before.hands == [] {
        ScheduledStep(cfg, before, at, IsCancelled(front), e);
        assert IsCancelled(events) <==> IsCancelled(front) || e.Cancel?;
        assert e.PollScheduled? ==> events[|events| - 1].PollScheduled?;
      } else {
        HandsStay(cfg, before, e);
      }
    }
  }

  /** A poll that takes the failed row at or after its next retry, or a late Update that overwrites it. */
  predicate Rouses(row: Row, e: Event) {
    match e
    case PollRetry(now) =>
      row.retryCount < row.maxRetries && row.nextRetryAt.Some? && now >= row.nextRetryAt.value
    case Act(_, StaleUpdate(ok)) => ok
    case _ => false
  }

  predicate AnyRouses(row: Row, events: seq<Event>) {
    exists k :: 0 <= k < |events| && Rouses(row, events[k])
  }

  /** A failed row that nobody holds. */
  predicate Asleep(c: Cell, row: Row) {
    && c.store.row == Some(row) && row.status == Failed && !c.store.queued
    && forall i :: 0 <= i < |c.hands| ==> !Owns(c.hands[i])
  }

  lemma {:induction false} SleepsOn(cfg: Config, c: Cell, row: Row, e: Event)
    requires Asleep(c, row) && !Rouses(row, e) && Step(cfg, c, e).Some?
    ensures var c' := Step(cfg, c, e).value;
      && Asleep(c', row) && c'.store.(dead := 0) == c.store.(dead := 0) && |c'.hands| == |c.hands|
  {
  }

  /** After any run that left the row failed: until a poll at or after its next retry takes it, or a late Update
      overwrites it, nobody holds it, nothing is sent, and nothing but a dead-letter entry is written. */
  lemma {:induction false} RetryWaits(cfg: Config, past: seq<Event>, events: seq<Event>, row: Row)
    requires Run(cfg, EMPTY, past).Some? && CellAfter(cfg, past).store.row == Some(row) && row.status == Failed
    requires Run(cfg, EMPTY, past + events).Some? && !AnyRouses(row, events)
    ensures var c, c' := CellAfter(cfg, past), CellAfter(cfg, past + events);
      Asleep(c', row) && c'.store.(dead := 0) == c.store.(dead := 0) && |c'.hands| == |c.hands|
  {
    if events == [] {
      assert past + events == past;
      RetryCounts.AtMostOneHolder(cfg, past);
      CountZero(Owns, CellAfter(cfg, past).hands);
    } else {
      var front, e := events[..|events| - 1], events[|events| - 1];
      assert (past + events)[..|past + events| - 1] == past + front;
      assert forall k :: 0 <= k < |front| ==> front[k] == events[k];
      RetryWaits(cfg, past, front, row);
      assert !Rouses(row, events[|events| - 1]);
      SleepsOn(cfg, CellAfter(cfg, past + front), row, e);
    }
  }
}
