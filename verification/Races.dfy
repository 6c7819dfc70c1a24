/** Why the guarantees need the step sizes they are stated for. */
module Races {
  import opened Domain
  import opened Lifecycle
  import opened Ownership
  import opened Books
  import opened RetryLimits
  import opened WholeCalls

  /** Created and dequeued by the worker with index 1. */
  lemma {:induction false} FirstDequeue(cfg: Config) returns (events: seq<Event>, c: Cell)
    ensures Plays(cfg, EMPTY, events, c)
    ensures c == Cell(EMPTY_STORE.(row := Some(NewRow(cfg, Status.Queued, None))), [Done, Got])
  {
    events, c := Extend(cfg, EMPTY, [], EMPTY, InsertBatchRow(None));
    events, c := Extend(cfg, EMPTY, events, c, Act(0, Publish(true)));
    events, c := Extend(cfg, EMPTY, events, c, Dequeue);
  }

  /** The next call of worker 1. */
  lemma {:induction false} Call(cfg: Config, past: seq<Event>, c: Cell, a: Action)
    returns (events: seq<Event>, c': Cell)
    requires Plays(cfg, EMPTY, past, c) && Normal(Act(1, a)) && |c.hands| == 2
    requires Move(cfg, c.store, c.hands[1], a).Some?
    ensures Plays(cfg, EMPTY, events, c') && past <= events
    ensures c'.store == Move(cfg, c.store, c.hands[1], a).value.0
    ensures c'.hands == [c.hands[0], Move(cfg, c.store, c.hands[1], a).value.1]
  {
    events, c' := Extend(cfg, EMPTY, past, c, Act(1, a));
  }

  /** A worker's whole round, its Process turning out as `o`. */
  lemma {:induction false} Round(cfg: Config, from: Cell, past: seq<Event>, c: Cell, o: Outcome)
    returns (events: seq<Event>, c': Cell)
    requires Plays(cfg, from, past, c) && c.store.queued
    ensures Plays(cfg, from, events, c') && past <= events
    ensures c' == Cell(Settle(cfg, c.store.(queued := false), o), c.hands + [Done])
  {
    var i := |c.hands|;
    events, c' := Extend(cfg, from, past, c, Dequeue);
    var taken := c';
    var block := Block(cfg, taken.store, Got, o, i);
    BlockRuns(cfg, taken, i, o);
    BlockIsNormal(cfg, taken.store, Got, o, i);
    ProcessIsItsCalls(cfg, taken.store, o);
    RunConcat(cfg, from, events, block);
    events, c' := events + block, Cell(Settle(cfg, taken.store, o), taken.hands[i := Done]);
    assert taken.hands[i := Done] == c.hands + [Done];
  }

  function StaleCell(cfg: Config): Cell {
    var row := NewRow(cfg, Processing, None);
    Cell(EMPTY_STORE.(row := Some(row), queued := true, denied := 1), [Done, Stale(row)])
  }

  function MarkedStore(cfg: Config): Store {
    EMPTY_STORE.(row := Some(NewRow(cfg, Processing, None)))
  }

  lemma {:induction false} MarkFirst(cfg: Config) returns (events: seq<Event>, c: Cell)
    ensures Plays(cfg, EMPTY, events, c) && c == Cell(MarkedStore(cfg), [Done, Marked(NewRow(cfg, Processing, None))])
  {
    events, c := FirstDequeue(cfg);
    events, c := Call(cfg, events, c, Fetch(true));
    events, c := Call(cfg, events, c, MarkProcessing(true));
  }

  /** Worker 1 has given the message away but still holds a write to queued. */
  lemma {:induction false} StaleWritePending(cfg: Config) returns (past: seq<Event>)
    ensures Run(cfg, EMPTY, past) == Some(StaleCell(cfg))
    ensures forall i :: 0 <= i < |past| ==> FaultFree(past[i]) && !IsStaleWrite(past[i])
  {
    var row := NewRow(cfg, Processing, None);
    var events, c := MarkFirst(cfg);
    events, c := Call(cfg, events, c, AskBreaker(true));
    assert c == Cell(MarkedStore(cfg), [Done, Admitted(row)]);
    events, c := Call(cfg, events, c, AskLimiter(Deny));
    assert c == Cell(MarkedStore(cfg).(denied := 1), [Done, Denied(row)]);
    var requeue := Act(1, Requeue(true));
    past := events + [requeue];
    assert past[..|events|] == events;
    assert c.hands[1 := Stale(row)] == StaleCell(cfg).hands;
  }

  /** The stale write lands after `later`. */
  lemma {:induction false} ThenStaleWrite(cfg: Config, past: seq<Event>, later: seq<Event>, c: Cell)
    returns (events: seq<Event>)
    requires Run(cfg, EMPTY, past) == Some(StaleCell(cfg))
    requires forall i :: 0 <= i < |past| ==> FaultFree(past[i]) && !IsStaleWrite(past[i])
    requires Plays(cfg, StaleCell(cfg), later, c) && c.store.row.Some?
    requires |c.hands| > 1 && c.hands[1] == StaleCell(cfg).hands[1]
    ensures forall i :: 0 <= i < |events| ==> FaultFree(events[i]) && (i < |events| - 1 ==> !IsStaleWrite(events[i]))
    ensures events != [] && Run(cfg, EMPTY, events[..|events| - 1]) == Some(c)
    ensures var row := Overwrite(c.store.row.value, NewRow(cfg, Status.Queued, None));
      Run(cfg, EMPTY, events) == Some(Cell(c.store.(row := Some(row)), c.hands[1 := Done]))
  {
    RunConcat(cfg, EMPTY, past, later);
    events := past + later + [Act(1, StaleUpdate(true))];
    assert events[..|events| - 1] == past + later;
  }

  /** At the finest grain no pair of limits is enough: a fault-free run can lose a notification that was
      never sent, and lower its retry_count. The Update of line 129 lands after another worker dequeued
      the message, was refused by the breaker, and wrote that. */
  lemma {:induction false} StaleUpdateLosesRow(cfg: Config) returns (events: seq<Event>)
    ensures forall i :: 0 <= i < |events| ==> FaultFree(events[i])
    ensures events != [] && Run(cfg, EMPTY, events).Some? && Run(cfg, EMPTY, events[..|events| - 1]).Some?
    ensures var before, after := CellAfter(cfg, events[..|events| - 1]), CellAfter(cfg, events);
      && !Accounted(cfg, after) && after.store.sent == 0
      && before.store.row.Some? && after.store.row.Some?
      && after.store.row.value.retryCount < before.store.row.value.retryCount
  {
    var past := StaleWritePending(cfg);
    var later, c := Round(cfg, StaleCell(cfg), [], StaleCell(cfg), BreakerOpen(0));
    events := ThenStaleWrite(cfg, past, later, c);
    QueuedWithoutOwner(cfg, CellAfter(cfg, events));
  }

  /** The same late Update turns a delivered row back to queued. */
  lemma {:induction false} DeliveredOverwritten(cfg: Config) returns (events: seq<Event>)
    ensures forall i :: 0 <= i < |events| ==> FaultFree(events[i])
    ensures events != [] && Run(cfg, EMPTY, events).Some? && Run(cfg, EMPTY, events[..|events| - 1]).Some?
    ensures var before, after := CellAfter(cfg, events[..|events| - 1]), CellAfter(cfg, events);
      && before.store.row.Some? && before.store.row.value.status == Delivered
      && after.store.row.Some? && after.store.row.value.status == Status.Queued
  {
    var past := StaleWritePending(cfg);
    var later, c := Round(cfg, StaleCell(cfg), [], StaleCell(cfg), Accepted);
    events := ThenStaleWrite(cfg, past, later, c);
  }

  lemma {:induction false} QueuedWithoutOwner(cfg: Config, c: Cell)
    requires c.store.row.Some? && c.store.row.value.status == Status.Queued
    requires !c.store.queued && NoOwner(c.hands)
    ensures !Accounted(cfg, c)
  {
    forall t ensures !PolledFrom(c.store.row.value, t) {
      assert !ScheduledReady(c.store.row.value, t);
    }
  }

  lemma {:induction false} CancelAfterFetch(cfg: Config) returns (past: seq<Event>, c: Cell)
    ensures Plays(cfg, EMPTY, past, c)
    ensures c.store.row.Some? && c.store.row.value.status == Cancelled && c.store.sent == 0
    ensures |c.hands| == 2 && c.hands[1].Read?
  {
    past, c := FirstDequeue(cfg);
    past, c := Call(cfg, past, c, Fetch(true));
    past, c := Extend(cfg, EMPTY, past, c, Cancel);
  }

  /** Even with the atomic branch, the Update to processing overwrites a cancel that came after
      GetByID: the cancelled notification is sent. */
  lemma {:induction false} CancelOverwritten(cfg: Config)
    returns (past: seq<Event>, c: Cell, events: seq<Event>, after: Cell)
    ensures Plays(cfg, EMPTY, past, c)
    ensures c.store.row.Some? && c.store.row.value.status == Cancelled && c.store.sent == 0
    ensures Plays(cfg, EMPTY, events, after) && past <= events && after.store.sent == 1
  {
    past, c := CancelAfterFetch(cfg);
    events, after := Call(cfg, past, c, MarkProcessing(true));
    events, after := Call(cfg, events, after, AskBreaker(true));
    events, after := Call(cfg, events, after, AskLimiter(Allow));
    events, after := Call(cfg, events, after, Send(true));
  }

  function CreatedStore(cfg: Config, status: Status): Store {
    EMPTY_STORE.(row := Some(NewRow(cfg, status, None)))
  }

  lemma {:induction false} FinishCreate(cfg: Config, past: seq<Event>, status: Status)
    returns (events: seq<Event>, c: Cell)
    requires Plays(cfg, EMPTY, past, Cell(CreatedStore(cfg, status), [Creating]))
    ensures Plays(cfg, EMPTY, events, c) && past <= events
    ensures c == Cell(CreatedStore(cfg, Status.Queued).(queued := true), [Done])
  {
    events, c := Extend(cfg, EMPTY, past, Cell(CreatedStore(cfg, status), [Creating]), Act(0, MarkQueued(true)));
    assert c == Cell(CreatedStore(cfg, Status.Queued), [Publishing]);
    events, c := Extend(cfg, EMPTY, events, c, Act(0, Publish(true)));
  }

  /** So does the UpdateStatus of `Create` with a cancel that came after its INSERT, no worker being near. */
  lemma {:induction false} CreateOverwritesCancel(cfg: Config)
    returns (past: seq<Event>, c: Cell, events: seq<Event>, after: Cell)
    ensures Plays(cfg, EMPTY, past, c)
    ensures c.store.row.Some? && c.store.row.value.status == Cancelled && c.store.sent == 0
    ensures c.hands == [Creating]
    ensures Plays(cfg, EMPTY, events, after) && past <= events && after.store.sent == 1
  {
    past, c := Extend(cfg, EMPTY, [], EMPTY, Insert(None));
    past, c := Extend(cfg, EMPTY, past, c, Cancel);
    assert c == Cell(CreatedStore(cfg, Cancelled), [Creating]);
    events, after := FinishCreate(cfg, past, Cancelled);
    events, after := Round(cfg, EMPTY, events, after, Accepted);
  }
}
