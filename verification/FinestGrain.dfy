/** When a cancel holds. */
module Cancels {
  import opened Domain
  import opened Lifecycle
  import opened AtMostOnce
  import opened Ownership
  import opened Books
  import opened RetryLimits
  import opened WholeCalls

  /** An actor that will not write a cancelled row: it enqueues, it has yet to read the row, or it is through. */
  predicate Harmless(h: Hand) {
    h.Publishing? || h.Got? || h.Burying? || h.Done?
  }

  predicate AllHarmless(hands: seq<Hand>) {
    forall i :: 0 <= i < |hands| ==> Harmless(hands[i])
  }

  predicate IsCancelled(c: Cell) {
    c.store.row.Some? && c.store.row.value.status == Cancelled
  }

  lemma {:induction false} HarmlessStep(cfg: Config, c: Cell, e: Event)
    requires IsCancelled(c) && AllHarmless(c.hands) && Step(cfg, c, e).Some?
    ensures var c' := Step(cfg, c, e).value;
      c'.store.row == c.store.row && c'.store.sent == c.store.sent && AllHarmless(c'.hands)
  {
  }

  lemma {:induction false} HarmlessRun(cfg: Config, c: Cell, events: seq<Event>)
    requires IsCancelled(c) && AllHarmless(c.hands) && Run(cfg, c, events).Some?
    ensures var c' := Run(cfg, c, events).value;
      c'.store.row == c.store.row && c'.store.sent == c.store.sent && AllHarmless(c'.hands)
  {
    if events != [] {
      HarmlessRun(cfg, c, events[..|events| - 1]);
      HarmlessStep(cfg, Run(cfg, c, events[..|events| - 1]).value, events[|events| - 1]);
    }
  }

  /** Any other actor, left alone, writes the row. */
  lemma {:induction false} WritesAnyway(cfg: Config, s: Store, h: Hand)
    requires s.row.Some? && (!Harmless(h) || s.row.value.status != Cancelled)
    ensures var s' := Uninterrupted(cfg, s, h, Accepted); s'.row.Some? && s'.row.value.status != Cancelled
    decreases Remaining(h)
  {
    if h != Done {
      Next(cfg, s, h, Accepted);
      ChoiceAdvances(cfg, s, h, Accepted);
      var (s', h') := Move(cfg, s, h, Choice(h, Accepted)).value;
      WritesAnyway(cfg, s', h');
    }
  }

  ghost predicate FaultFreeRun(cfg: Config, c: Cell, events: seq<Event>) {
    (forall i :: 0 <= i < |events| ==> FaultFree(events[i])) && Run(cfg, c, events).Some?
  }

  /** From a cancelled row, at the finest grain: it stays cancelled in every fault-free continuation, and in
      every continuation at all, exactly when each actor about has still to read the row or will not write it. */
  lemma {:induction false} CancelHoldsIff(cfg: Config, c: Cell)
    requires IsCancelled(c)
    ensures (forall events :: FaultFreeRun(cfg, c, events) ==> Run(cfg, c, events).value.store.row == c.store.row)
       <==> AllHarmless(c.hands)
    ensures AllHarmless(c.hands) ==> forall events :: Run(cfg, c, events).Some? ==>
      Run(cfg, c, events).value.store.row == c.store.row && Run(cfg, c, events).value.store.sent == c.store.sent
  {
    if i :| 0 <= i < |c.hands| && !Harmless(c.hands[i]) {
      var block := Block(cfg, c.store, c.hands[i], Accepted, i);
      BlockRuns(cfg, c, i, Accepted);
      BlockIsFaultFree(cfg, c.store, c.hands[i], Accepted, i);
      WritesAnyway(cfg, c.store, c.hands[i]);
      assert FaultFreeRun(cfg, c, block);
    } else {
      forall events | Run(cfg, c, events).Some?
        ensures Run(cfg, c, events).value.store.row == c.store.row
        ensures Run(cfg, c, events).value.store.sent == c.store.sent
      {
        HarmlessRun(cfg, c, events);
      }
    }
  }

  /** The owner keeps the row processing from its mark to its last write. */
  predicate MarkedIsProcessing(s: Solo) {
    match s.place
    case InHand(h) =>
      && s.store.row.Some? && !s.store.queued && !Parked(s.store)
      && (!BeforeMark(h) ==> s.store.row.value.status == Processing)
    case InQueue => s.store.row.Some? && !Parked(s.store)
    case _ => !s.store.queued
  }

  lemma {:induction false} TurnKeepsMark(cfg: Config, s: Solo, turn: Turn)
    requires MarkedIsProcessing(s) && Turned(cfg, s, turn).Some?
    requires turn.Owner? ==> !turn.action.Requeue? && !turn.action.StaleUpdate?
    ensures MarkedIsProcessing(Turned(cfg, s, turn).value)
  {
  }

  lemma {:induction false} RunKeepsMark(cfg: Config, events: seq<Event>) returns (s: Solo)
    requires Run(cfg, EMPTY, events).Some? && forall i :: 0 <= i < |events| ==> AtomicRequeue(events[i])
    ensures Abstracts(CellAfter(cfg, events), s) && MarkedIsProcessing(s)
  {
    if events == [] {
      s := Solo(EMPTY_STORE, Nowhere, 0);
    } else {
      var front, e := events[..|events| - 1], events[|events| - 1];
      s := RunKeepsMark(cfg, front);
      var c := CellAfter(cfg, front);
      Simulate(cfg, c, s, e);
      TurnKeepsMark(cfg, s, Image(c, e));
      s := Turned(cfg, s, Image(c, e)).value;
    }
  }

  /** With the rate-limited branch as one step, faults and crashes included, a row that can be cancelled is in
      danger from two calls only: UpdateStatus in `Create`, and the Update to processing of a worker that has
      read it already. */
  lemma {:induction false} CancelWindows(cfg: Config, events: seq<Event>)
    requires Run(cfg, EMPTY, events).Some? && forall i :: 0 <= i < |events| ==> AtomicRequeue(events[i])
    requires CellAfter(cfg, events).store.row.Some? && CellAfter(cfg, events).store.row.value.status.CanCancel()
    ensures var c := CellAfter(cfg, events);
      forall i :: 0 <= i < |c.hands| ==> Harmless(c.hands[i]) || c.hands[i].Creating? || c.hands[i].Read?
  {
    var s := RunKeepsMark(cfg, events);
    var c := CellAfter(cfg, events);
    forall i | 0 <= i < |c.hands| ensures Harmless(c.hands[i]) || c.hands[i].Creating? || c.hands[i].Read? {
      if Owns(c.hands[i]) {
        assert s.place == InHand(c.hands[i]);
      }
    }
  }
}

/** When nothing is lost, with every call a step of its own. */
module FinestGrain {
  import opened Domain
  import opened Lifecycle
  import opened AtMostOnce
  import opened Ownership
  import opened RetryLimits
  import opened WholeCalls
  import opened Races
  import opened Cancels

  /** The message is in the sorted set, or in somebody's hand. */
  ghost predicate Owned(c: Cell) {
    c.store.queued || !NoOwner(c.hands)
  }

  /** The row rests, and a poller's guard or the dead-letter table accounts for it. */
  ghost predicate RestsWell(cfg: Config, c: Cell)
    requires c.store.row.Some?
  {
    var row := c.store.row.value;
    || row.status == Delivered
    || row.status == Cancelled
    || (row.status == Status.Scheduled && row.scheduledAt.Some?)
    || (row.status == Failed && row.retryCount >= 1
        && if row.retryCount < cfg.maxRetries then row.nextRetryAt.Some?
           else c.store.dead + Count(IsBurying, c.hands) >= 1)
  }

  ghost predicate Housed(cfg: Config, c: Cell) {
    match c.store.row
    case None => c == EMPTY
    case Some(row) =>
      && row.maxRetries == cfg.rowMaxRetries
      && (forall i :: 0 <= i < |c.hands| ==> RaisedOnce(c.hands[i]))
      && if c.store.queued then !Parked(c.store) && NoOwner(c.hands)
         else if NoOwner(c.hands) then RestsWell(cfg, c)
         else !Parked(c.store) && exists i :: SoleOwner(c.hands, i)
  }

  /** Where one call of the owner leaves the notification. */
  predicate LeftWell(cfg: Config, s: Store, h: Hand) {
    s.row.Some? && s.row.value.maxRetries == cfg.rowMaxRetries && RaisedOnce(h) &&
    var row := s.row.value;
    if Owns(h) then !Parked(s) && !s.queued
    else if s.queued then !Parked(s)
    else
      || row.status == Delivered
      || row.status == Cancelled
      || (row.status == Failed && row.retryCount >= 1
          && if row.retryCount < cfg.maxRetries then row.nextRetryAt.Some? else h.Burying?)
  }

  lemma {:induction false} OwnerLeavesWell(cfg: Config, s: Store, h: Hand, a: Action)
    requires Owns(h) && RaisedOnce(h) && FaultFree(Act(0, a)) && Move(cfg, s, h, a).Some?
    requires s.row.Some? && s.row.value.maxRetries == cfg.rowMaxRetries && !Parked(s) && !s.queued
    ensures LeftWell(cfg, Move(cfg, s, h, a).value.0, Move(cfg, s, h, a).value.1)
  {
  }

  lemma {:induction false} OwnerStaysHoused(cfg: Config, c: Cell, i: nat, a: Action)
    requires Housed(cfg, c) && FaultFree(Act(i, a)) && Step(cfg, c, Act(i, a)).Some? && Owns(c.hands[i])
    ensures Housed(cfg, Step(cfg, c, Act(i, a)).value)
  {
    var k :| SoleOwner(c.hands, k);
    assert k == i;
    var (s', h') := Move(cfg, c.store, c.hands[i], a).value;
    OwnerLeavesWell(cfg, c.store, c.hands[i], a);
    Replaced(c.hands, i, h');
    CountReplace(IsBurying, c.hands, i, h');
  }

  lemma {:induction false} BurialStaysHoused(cfg: Config, c: Cell, i: nat, a: Action)
    requires Housed(cfg, c) && FaultFree(Act(i, a)) && Step(cfg, c, Act(i, a)).Some? && c.hands[i].Burying?
    ensures Housed(cfg, Step(cfg, c, Act(i, a)).value)
  {
    CountReplace(IsBurying, c.hands, i, Done);
    OthersUntouched(c.hands, i);
  }

  lemma {:induction false} OthersUntouched(hands: seq<Hand>, i: nat)
    requires i < |hands| && !Owns(hands[i])
    ensures NoOwner(hands[i := Done]) <==> NoOwner(hands)
    ensures forall k :: SoleOwner(hands, k) ==> SoleOwner(hands[i := Done], k)
  {
    if j :| 0 <= j < |hands| && Owns(hands[j]) {
      assert Owns(hands[i := Done][j]);
    }
  }

  lemma {:induction false} StaleStaysHoused(cfg: Config, c: Cell, i: nat, a: Action)
    requires Housed(cfg, c) && Owned(c) && FaultFree(Act(i, a)) && Step(cfg, c, Act(i, a)).Some? && c.hands[i].Stale?
    ensures Housed(cfg, Step(cfg, c, Act(i, a)).value)
  {
    OthersUntouched(c.hands, i);
  }

  /** A call that is no actor's: it inserts the row, takes it out of its resting place, or cancels it. */
  lemma {:induction false} ArrivalMoves(cfg: Config, s: Store, e: Event)
    requires !e.Act? && Step(cfg, Cell(s, []), e).Some? && (s.queued ==> s.row.Some? && !Parked(s))
    ensures var c := Step(cfg, Cell(s, []), e).value;
      && c.store.row.Some? && c.store.dead == s.dead
      && c.store.row.value.maxRetries == (if s.row.Some? then s.row.value.maxRetries else cfg.rowMaxRetries)
      && (c.hands != [] ==>
            !Parked(c.store) && (s.row.None? || Parked(s) || (s.queued && !c.store.queued && c.store.row == s.row)))
      && (!e.Dequeue? ==> c.store.queued == s.queued)
      && (c.hands == [] ==>
            if s.row.None? then c.store.row.value.status == Status.Scheduled && c.store.row.value.scheduledAt.Some?
            else c.store.row == s.row || c.store.row.value.status == Cancelled)
  {
  }

  lemma {:induction false} ArrivalStaysHoused(cfg: Config, c: Cell, e: Event)
    requires Housed(cfg, c) && !e.Act? && Step(cfg, c, e).Some?
    ensures Housed(cfg, Step(cfg, c, e).value)
  {
    Arrival(cfg, c, e);
    ArrivalMoves(cfg, c.store, e);
    var alone := Step(cfg, Cell(c.store, []), e).value;
    if alone.hands == [] {
      assert c.hands + alone.hands == c.hands;
    } else {
      assert c.hands + alone.hands == c.hands + [alone.hands[0]];
      Spawned(c.hands, alone.hands[0]);
    }
  }

  lemma {:induction false} StepStaysHoused(cfg: Config, c: Cell, e: Event)
    requires Housed(cfg, c) && FaultFree(e) && Step(cfg, c, e).Some? && (IsStaleWrite(e) ==> Owned(c))
    ensures Housed(cfg, Step(cfg, c, e).value)
  {
    if !e.Act? {
      ArrivalStaysHoused(cfg, c, e);
    } else if Owns(c.hands[e.actor]) {
      OwnerStaysHoused(cfg, c, e.actor, e.action);
    } else if c.hands[e.actor].Burying? {
      BurialStaysHoused(cfg, c, e.actor, e.action);
    } else {
      StaleStaysHoused(cfg, c, e.actor, e.action);
    }
  }

  /** Every Update of line 129 lands while the notification is queued or in a hand again. */
  ghost predicate LandsOwned(cfg: Config, events: seq<Event>) {
    forall k :: 0 <= k < |events| && IsStaleWrite(events[k]) ==>
      Run(cfg, EMPTY, events[..k]).Some? && Owned(CellAfter(cfg, events[..k]))
  }

  lemma {:induction false} HousedRun(cfg: Config, events: seq<Event>)
    requires FaultFreeRun(cfg, EMPTY, events) && LandsOwned(cfg, events)
    ensures Housed(cfg, CellAfter(cfg, events))
  {
    if events != [] {
      var n := |events| - 1;
      var front := events[..n];
      forall k | 0 <= k < n ensures events[..k] == front[..k] && events[k] == front[k] {
      }
      HousedRun(cfg, front);
      StepStaysHoused(cfg, CellAfter(cfg, front), events[n]);
    }
  }

  lemma {:induction false} HousedIsAccounted(cfg: Config, c: Cell)
    requires LimitsAgree(cfg) && Housed(cfg, c)
    ensures Accounted(cfg, c)
  {
    if c.store.row.Some? && !c.store.queued {
      var row := c.store.row.value;
      if !NoOwner(c.hands) {
      } else if row.status == Status.Scheduled {
        assert PolledFrom(row, row.scheduledAt.value);
      } else if row.status == Failed && row.retryCount < cfg.maxRetries {
        assert PolledFrom(row, row.nextRetryAt.value);
      } else if row.status == Failed && c.store.dead == 0 {
        BuryingCounted(c.hands);
      }
    }
  }

  ghost predicate AlwaysAccounted(cfg: Config, events: seq<Event>)
    requires Run(cfg, EMPTY, events).Some?
  {
    forall k :: 0 <= k <= |events| ==> Run(cfg, EMPTY, events[..k]).Some? && Accounted(cfg, CellAfter(cfg, events[..k]))
  }

  /** At the finest grain, with limits that agree: nothing is ever lost in a fault-free run exactly when every
      Update of line 129 lands while the notification is in the sorted set or in a hand. */
  lemma {:induction false} NothingIsLostIffLandsOwned(cfg: Config, events: seq<Event>)
    requires LimitsAgree(cfg) && FaultFreeRun(cfg, EMPTY, events)
    ensures AlwaysAccounted(cfg, events) <==> LandsOwned(cfg, events)
  {
    forall k | 0 <= k <= |events| ensures Run(cfg, EMPTY, events[..k]).Some? {
      PrefixRuns(cfg, events, k);
    }
    if LandsOwned(cfg, events) {
      forall k | 0 <= k <= |events| ensures Accounted(cfg, CellAfter(cfg, events[..k])) {
        PrefixLandsOwned(cfg, events, k);
        HousedRun(cfg, events[..k]);
        HousedIsAccounted(cfg, CellAfter(cfg, events[..k]));
      }
    } else {
      var k := SomeUnowned(cfg, events);
      PrefixRuns(cfg, events, k + 1);
      LostByStaleWrite(cfg, events, k);
    }
  }

  lemma {:induction false} PrefixLandsOwned(cfg: Config, events: seq<Event>, k: nat)
    requires k <= |events| && LandsOwned(cfg, events)
    ensures LandsOwned(cfg, events[..k])
  {
    forall j | 0 <= j < k ensures events[..k][..j] == events[..j] && events[..k][j] == events[j] {
    }
  }

  ghost predicate LandsUnowned(cfg: Config, events: seq<Event>, k: nat)
    requires k < |events|
  {
    IsStaleWrite(events[k]) && Run(cfg, EMPTY, events[..k]).Some? && !Owned(CellAfter(cfg, events[..k]))
  }

  lemma {:induction false} SomeUnowned(cfg: Config, events: seq<Event>) returns (k: nat)
    requires FaultFreeRun(cfg, EMPTY, events) && !LandsOwned(cfg, events)
    ensures k < |events| && LandsUnowned(cfg, events, k)
  {
    k :| k < |events| && IsStaleWrite(events[k])
      && !(Run(cfg, EMPTY, events[..k]).Some? && Owned(CellAfter(cfg, events[..k])));
    PrefixRuns(cfg, events, k);
  }

  lemma {:induction false} LostByStaleWrite(cfg: Config, events: seq<Event>, k: nat)
    requires FaultFreeRun(cfg, EMPTY, events) && k < |events| && LandsUnowned(cfg, events, k)
    requires Run(cfg, EMPTY, events[..k + 1]).Some?
    ensures !Accounted(cfg, CellAfter(cfg, events[..k + 1]))
  {
    assert events[..k + 1][..k] == events[..k] && events[..k + 1][k] == events[k];
    var c := CellAfter(cfg, events[..k]);
    OneToken(cfg, events[..k]);
    OthersUntouched(c.hands, events[k].actor);
    QueuedWithoutOwner(cfg, CellAfter(cfg, events[..k + 1]));
  }
  /** The owner holds a failure that reaches the service's limit. */
  predicate HoldsLastFailure(cfg: Config, h: Hand) {
    || (h.Failing? && h.copy.retryCount >= cfg.maxRetries)
    || (h.Answered? && !h.success && h.copy.retryCount + 1 >= cfg.maxRetries)
  }

  /** What an owner's remaining calls leave when the breaker, the limiter and the provider let it through. */
  predicate OnItsWay(cfg: Config, s: Store) {
    s.row.Some? && s.row.value.maxRetries == cfg.rowMaxRetries &&
    var row := s.row.value;
    if s.queued then !row.status.IsFinal()
    else
      || row.status == Delivered
      || (row.status == Status.Scheduled && row.scheduledAt.Some?)
      || (row.status == Failed && 1 <= row.retryCount < cfg.maxRetries && row.nextRetryAt.Some?)
  }

  lemma {:induction false} OwnerBringsOn(cfg: Config, s: Store, h: Hand)
    requires Owns(h) && RaisedOnce(h) && !HoldsLastFailure(cfg, h)
    requires s.row.Some? && s.row.value.maxRetries == cfg.rowMaxRetries
    requires !s.queued && !Parked(s) && s.row.value.status != Delivered && s.row.value.status != Cancelled
    ensures OnItsWay(cfg, Uninterrupted(cfg, s, h, Accepted))
    decreases Remaining(h)
  {
    Next(cfg, s, h, Accepted);
    ChoiceAdvances(cfg, s, h, Accepted);
    var (s', h') := Move(cfg, s, h, Choice(h, Accepted)).value;
    if h' != Done {
      OwnerBringsOn(cfg, s', h');
    }
  }

  lemma {:induction false} OwnerBuries(cfg: Config, s: Store, h: Hand)
    requires HoldsLastFailure(cfg, h) && s.row.Some?
    ensures var s' := Uninterrupted(cfg, s, h, Accepted);
      && s'.row.Some? && s'.row.value.status == Failed && s'.row.value.retryCount >= cfg.maxRetries
      && s'.dead == s.dead + 1
    decreases Remaining(h)
  {
    if h.Answered? {
      Next(cfg, s, h, Accepted);
      var (s', h') := Move(cfg, s, h, LogAttempt(true)).value;
      OwnerBuries(cfg, s', h');
    } else {
      var (s', h') := Move(cfg, s, h, WriteFailed(0, true)).value;
      Next(cfg, s, h, Accepted);
      Next(cfg, s', h', Accepted);
    }
  }

  predicate IsDelivered(c: Cell) {
    c.store.row.Some? && c.store.row.value.status == Delivered
  }

  /** A poll if the row rests, and then a worker's round. */
  lemma {:induction false} DeliveredFromThere(cfg: Config, from: Cell, past: seq<Event>, c: Cell)
    returns (events: seq<Event>, end: Cell)
    requires LimitsAgree(cfg) && Plays(cfg, from, past, c) && OnItsWay(cfg, c.store)
    ensures Plays(cfg, from, events, end) && IsDelivered(end)
  {
    events, end := past, c;
    if !IsDelivered(c) {
      if !c.store.queued {
        var row := c.store.row.value;
        var poll := if row.status == Status.Scheduled then PollScheduled(row.scheduledAt.value)
                    else PollRetry(row.nextRetryAt.value);
        events, end := Extend(cfg, from, events, end, poll);
        events, end := Extend(cfg, from, events, end, Act(|c.hands|, Publish(true)));
      }
      events, end := Round(cfg, from, events, end, Accepted);
    }
  }

  lemma {:induction false} OwnerPlays(cfg: Config, c: Cell, i: nat) returns (events: seq<Event>, c': Cell)
    requires i < |c.hands| && Owns(c.hands[i])
    ensures Plays(cfg, c, events, c') && c'.store == Uninterrupted(cfg, c.store, c.hands[i], Accepted)
  {
    events := Block(cfg, c.store, c.hands[i], Accepted, i);
    BlockRuns(cfg, c, i, Accepted);
    BlockIsNormal(cfg, c.store, c.hands[i], Accepted, i);
    c' := Run(cfg, c, events).value;
  }

  /** Accounted for means recoverable. From wherever a run leaves a notification that is not delivered, cancelled
      or dead-lettered, if its late Updates landed while it was queued or in a hand, fault-free calls deliver it;
      or dead-letter it, if somebody holds its last failure. */
  lemma {:induction false} EveryNotificationRecovers(cfg: Config, past: seq<Event>)
    returns (events: seq<Event>, end: Cell)
    requires LimitsAgree(cfg) && FaultFreeRun(cfg, EMPTY, past) && LandsOwned(cfg, past)
    requires var c := CellAfter(cfg, past);
      && c.store.row.Some? && c.store.row.value.status != Delivered && c.store.row.value.status != Cancelled
      && !DeadLettered(cfg, c)
    ensures Plays(cfg, CellAfter(cfg, past), events, end)
    ensures var hands := CellAfter(cfg, past).hands;
      if exists i :: 0 <= i < |hands| && HoldsLastFailure(cfg, hands[i])
      then DeadLettered(cfg, end) && end.store.dead >= 1
      else IsDelivered(end)
  {
    var c := CellAfter(cfg, past);
    HousedRun(cfg, past);
    if c.store.queued || NoOwner(c.hands) {
      if !c.store.queued && c.store.row.value.status == Failed && c.store.dead == 0 && Count(IsBurying, c.hands) >= 1 {
        BuryingCounted(c.hands);
      }
      events, end := DeliveredFromThere(cfg, c, [], c);
    } else {
      var i :| SoleOwner(c.hands, i);
      events, end := OwnerPlays(cfg, c, i);
      if HoldsLastFailure(cfg, c.hands[i]) {
        OwnerBuries(cfg, c.store, c.hands[i]);
      } else {
        OwnerBringsOn(cfg, c.store, c.hands[i]);
        events, end := DeliveredFromThere(cfg, c, events, end);
      }
    }
  }
}
