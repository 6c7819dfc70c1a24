/** `Process` and lines 110-127 of `Create` as single steps: what one uninterrupted call does, and
    what holds when nobody is interrupted inside one. */
module WholeCalls {
  import opened Domain
  import opened Lifecycle
  import opened AtMostOnce

  /** How one call of `Process` turns out when nothing is wrong with the storage. */
  datatype Outcome = BreakerOpen(nextRetry: int) | RateLimited | Accepted | Refused(nextRetry: int)

  /** handleRetry: next_retry_at changes only below the service's limit. */
  function Failure(cfg: Config, row: Row, nextRetry: int): Row {
    row.(status := Failed,
         retryCount := row.retryCount + 1,
         nextRetryAt := if row.retryCount + 1 >= cfg.maxRetries then row.nextRetryAt else Some(nextRetry))
  }

  /** The effect of `Process` on everything it shares with others. */
  function Settle(cfg: Config, s: Store, o: Outcome): Store {
    if s.row.None? || s.row.value.status.IsFinal() then s
    else
      var row := s.row.value;
      var dead := s.dead + One(row.retryCount + 1 >= cfg.maxRetries);
      match o
      case BreakerOpen(t) =>
        s.(row := Some(Failure(cfg, row, t)), rejected := s.rejected + 1, dead := dead)
      case RateLimited =>
        s.(row := Some(row.(status := Status.Queued)), queued := true, denied := s.denied + 1)
      case Accepted =>
        s.(row := Some(row.(status := Delivered)), sent := s.sent + 1,
           attempts := s.attempts + [Attempt(row.retryCount + 1, true)])
      case Refused(t) =>
        s.(row := Some(Failure(cfg, row, t)), failed := s.failed + 1, dead := dead,
           attempts := s.attempts + [Attempt(row.retryCount + 1, false)])
  }

  /** The call an actor makes next in a `Process` that turns out as `o`. */
  function Choice(h: Hand, o: Outcome): Action {
    match h
    case Creating => MarkQueued(true)
    case Publishing => Publish(true)
    case Got => Fetch(true)
    case Read(_) => MarkProcessing(true)
    case Marked(_) => AskBreaker(!o.BreakerOpen?)
    case Admitted(_) => AskLimiter(if o.RateLimited? then Deny else Allow)
    case Denied(_) => RequeueAtOnce
    case Stale(_) => StaleUpdate(true)
    case Sending(_) => Send(o.Accepted?)
    case Answered(_, _) => LogAttempt(true)
    case Delivering(_) => WriteDelivered(true)
    case Failing(_) => WriteFailed(if o.BreakerOpen? || o.Refused? then o.nextRetry else 0, true)
    case Burying => Bury(true)
    case Done => Crash
  }

  function Remaining(h: Hand): nat {
    match h
    case Creating => 2
    case Publishing => 1
    case Got => 9
    case Read(_) => 8
    case Marked(_) => 7
    case Admitted(_) => 6
    case Denied(_) => 2
    case Stale(_) => 1
    case Sending(_) => 5
    case Answered(_, _) => 4
    case Delivering(_) => 1
    case Failing(_) => 2
    case Burying => 1
    case Done => 0
  }

  lemma ChoiceAdvances(cfg: Config, s: Store, h: Hand, o: Outcome)
    requires h != Done
    ensures Move(cfg, s, h, Choice(h, o)).Some?
    ensures Remaining(Move(cfg, s, h, Choice(h, o)).value.1) < Remaining(h)
  {
  }

  /** The store after the actor has made all its remaining calls with nobody in between. */
  function Uninterrupted(cfg: Config, s: Store, h: Hand, o: Outcome): Store
    decreases Remaining(h)
  {
    if h == Done then s
    else
      ChoiceAdvances(cfg, s, h, o);
      var (s', h') := Move(cfg, s, h, Choice(h, o)).value;
      Uninterrupted(cfg, s', h', o)
  }

  lemma {:induction false} FromFailing(cfg: Config, s: Store, row: Row, t: int, o: Outcome)
    requires s.row == Some(row.(status := Processing))
    requires o == BreakerOpen(t) || o == Refused(t)
    ensures Uninterrupted(cfg, s, Failing(s.row.value.(retryCount := row.retryCount + 1)), o)
         == s.(row := Some(Failure(cfg, row, t)), dead := s.dead + One(row.retryCount + 1 >= cfg.maxRetries))
  {
    var (s', h') := Move(cfg, s, Failing(s.row.value.(retryCount := row.retryCount + 1)), WriteFailed(t, true)).value;
    assert h'.Burying? ==> Uninterrupted(cfg, s', h', o) == s'.(dead := s'.dead + 1);
  }

  lemma {:induction false} Next(cfg: Config, s: Store, h: Hand, o: Outcome)
    requires h != Done
    ensures Move(cfg, s, h, Choice(h, o)).Some?
    ensures Uninterrupted(cfg, s, h, o)
         == Uninterrupted(cfg, Move(cfg, s, h, Choice(h, o)).value.0, Move(cfg, s, h, Choice(h, o)).value.1, o)
  {
    ChoiceAdvances(cfg, s, h, o);
  }

  lemma {:induction false} FromAccepted(cfg: Config, s: Store, row: Row)
    requires s.row == Some(row.(status := Processing)) && !row.status.IsFinal()
    ensures Uninterrupted(cfg, s, Sending(s.row.value), Accepted) == Settle(cfg, s, Accepted)
  {
    var n := s.row.value;
    var (s1, h1) := Move(cfg, s, Sending(n), Send(true)).value;
    var (s2, h2) := Move(cfg, s1, h1, LogAttempt(true)).value;
    Next(cfg, s, Sending(n), Accepted);
    Next(cfg, s1, h1, Accepted);
    Next(cfg, s2, h2, Accepted);
  }

  lemma {:induction false} FromRefused(cfg: Config, s: Store, row: Row, t: int)
    requires s.row == Some(row.(status := Processing)) && !row.status.IsFinal()
    ensures Uninterrupted(cfg, s, Sending(s.row.value), Refused(t)) == Settle(cfg, s, Refused(t))
  {
    var n := s.row.value;
    var (s1, h1) := Move(cfg, s, Sending(n), Send(false)).value;
    var (s2, h2) := Move(cfg, s1, h1, LogAttempt(true)).value;
    Next(cfg, s, Sending(n), Refused(t));
    Next(cfg, s1, h1, Refused(t));
    FromFailing(cfg, s2, n, t, Refused(t));
  }

  lemma {:induction false} FromMarked(cfg: Config, s: Store, o: Outcome)
    requires s.row.Some? && s.row.value.status == Processing
    ensures Uninterrupted(cfg, s, Marked(s.row.value), o) == Settle(cfg, s, o)
  {
    var n := s.row.value;
    var (s1, h1) := Move(cfg, s, Marked(n), AskBreaker(!o.BreakerOpen?)).value;
    Next(cfg, s, Marked(n), o);
    match o {
      case BreakerOpen(t) => FromFailing(cfg, s1, n, t, o);
      case RateLimited =>
        var (s2, h2) := Move(cfg, s1, h1, AskLimiter(Deny)).value;
        Next(cfg, s1, h1, o);
        Next(cfg, s2, h2, o);
      case Accepted =>
        Next(cfg, s1, h1, o);
        FromAccepted(cfg, s, n);
      case Refused(t) =>
        Next(cfg, s1, h1, o);
        FromRefused(cfg, s, n, t);
    }
  }

  lemma {:induction false} SettleAfterMark(cfg: Config, s: Store, o: Outcome)
    requires s.row.Some? && !s.row.value.status.IsFinal()
    ensures Settle(cfg, s.(row := Some(s.row.value.(status := Processing))), o) == Settle(cfg, s, o)
  {
  }

  /** An uninterrupted `Process` is its calls at the finer grain, for every outcome: its breaker,
      limiter, provider, attempt, row and dead-letter steps add up to `Settle`. */
  lemma {:induction false} ProcessIsItsCalls(cfg: Config, s: Store, o: Outcome)
    ensures Uninterrupted(cfg, s, Got, o) == Settle(cfg, s, o)
  {
    if s.row.Some? && !s.row.value.status.IsFinal() {
      var n := s.row.value.(status := Processing);
      Next(cfg, s, Got, o);
      Next(cfg, s, Read(s.row.value), o);
      FromMarked(cfg, s.(row := Some(n)), o);
      SettleAfterMark(cfg, s, o);
    } else {
      Next(cfg, s, Got, o);
    }
  }

  /** The same calls as events of actor `i`. */
  function Block(cfg: Config, s: Store, h: Hand, o: Outcome, i: nat): seq<Event>
    decreases Remaining(h)
  {
    if h == Done then []
    else
      ChoiceAdvances(cfg, s, h, o);
      var (s', h') := Move(cfg, s, h, Choice(h, o)).value;
      [Act(i, Choice(h, o))] + Block(cfg, s', h', o, i)
  }

  lemma {:induction false} RunFirst(cfg: Config, c: Cell, e: Event, events: seq<Event>)
    requires Step(cfg, c, e).Some?
    ensures Run(cfg, c, [e] + events) == Run(cfg, Step(cfg, c, e).value, events)
  {
    if events == [] {
      assert ([e] + events)[..0] == [] && [e] + events == [e];
    } else {
      assert ([e] + events)[..|events|] == [e] + events[..|events| - 1];
      RunFirst(cfg, c, e, events[..|events| - 1]);
    }
  }

  lemma {:induction false} BlockRuns(cfg: Config, c: Cell, i: nat, o: Outcome)
    requires i < |c.hands|
    ensures Run(cfg, c, Block(cfg, c.store, c.hands[i], o, i))
         == Some(Cell(Uninterrupted(cfg, c.store, c.hands[i], o), c.hands[i := Done]))
    decreases Remaining(c.hands[i])
  {
    var h := c.hands[i];
    if h == Done {
      assert c.hands[i := Done] == c.hands;
    } else {
      ChoiceAdvances(cfg, c.store, h, o);
      var e := Act(i, Choice(h, o));
      var c' := Step(cfg, c, e).value;
      BlockRuns(cfg, c', i, o);
      RunFirst(cfg, c, e, Block(cfg, c'.store, c'.hands[i], o, i));
      assert c'.hands[i := Done] == c.hands[i := Done];
    }
  }

  lemma {:induction false} BlockIsFaultFree(cfg: Config, s: Store, h: Hand, o: Outcome, i: nat)
    ensures forall k :: 0 <= k < |Block(cfg, s, h, o, i)| ==> FaultFree(Block(cfg, s, h, o, i)[k])
    decreases Remaining(h)
  {
    if h != Done {
      ChoiceAdvances(cfg, s, h, o);
      BlockIsFaultFree(cfg, Move(cfg, s, h, Choice(h, o)).value.0, Move(cfg, s, h, Choice(h, o)).value.1, o, i);
    }
  }

  lemma {:induction false} BlockIsNormal(cfg: Config, s: Store, h: Hand, o: Outcome, i: nat)
    requires !h.Stale?
    ensures forall k :: 0 <= k < |Block(cfg, s, h, o, i)| ==>
      AtomicRequeue(Block(cfg, s, h, o, i)[k]) && FaultFree(Block(cfg, s, h, o, i)[k])
    decreases Remaining(h)
  {
    if h != Done {
      ChoiceAdvances(cfg, s, h, o);
      BlockIsNormal(cfg, Move(cfg, s, h, Choice(h, o)).value.0, Move(cfg, s, h, Choice(h, o)).value.1, o, i);
    }
  }
}

/** Runs in which every `Process`, and every creation through `Create`, is one step. */
module CoarseRuns {
  import opened Domain
  import opened Lifecycle
  import opened AtMostOnce
  import opened Ownership
  import opened Books
  import opened RetryLimits
  import opened WholeCalls

  datatype Big =
    | CreateNow
    | CreateScheduled(at: int)
    | CreateInBatch(scheduledAt: Option<int>)
    | EnqueueBatched(actor: nat)
    | PollForScheduled(now: int)
    | PollForRetry(now: int)
    | Take
    | Process(worker: nat, outcome: Outcome)
    | CancelIt

  function BigStep(cfg: Config, c: Cell, b: Big): Option<Cell> {
    match b
    case CreateNow =>
      if c.store.row.Some? then None
      else Some(Cell(c.store.(row := Some(NewRow(cfg, Status.Queued, None)), queued := true), c.hands + [Done]))
    case CreateScheduled(at) => Step(cfg, c, Insert(Some(at)))
    case CreateInBatch(at) => Step(cfg, c, InsertBatchRow(at))
    case EnqueueBatched(i) => Step(cfg, c, Act(i, Publish(true)))
    case PollForScheduled(now) => Step(cfg, c, PollScheduled(now))
    case PollForRetry(now) => Step(cfg, c, PollRetry(now))
    case Take => Step(cfg, c, Dequeue)
    case Process(i, o) =>
      if i < |c.hands| && c.hands[i] == Got then Some(Cell(Settle(cfg, c.store, o), c.hands[i := Done])) else None
    case CancelIt => Step(cfg, c, Cancel)
  }

  function BigRun(cfg: Config, c: Cell, bigs: seq<Big>): Option<Cell> {
    if bigs == [] then Some(c)
    else
      match BigRun(cfg, c, bigs[..|bigs| - 1])
      case None => None
      case Some(c') => BigStep(cfg, c', bigs[|bigs| - 1])
  }

  /** The fine-grained calls of a big step. */
  function Events(cfg: Config, c: Cell, b: Big): seq<Event> {
    match b
    case CreateNow =>
      [Insert(None)]
      + Block(cfg, c.store.(row := Some(NewRow(cfg, Pending, None))), Creating, RateLimited, |c.hands|)
    case CreateScheduled(at) => [Insert(Some(at))]
    case CreateInBatch(at) => [InsertBatchRow(at)]
    case EnqueueBatched(i) => [Act(i, Publish(true))]
    case PollForScheduled(now) => [PollScheduled(now)]
    case PollForRetry(now) => [PollRetry(now)]
    case Take => [Dequeue]
    case Process(i, o) => Block(cfg, c.store, Got, o, i)
    case CancelIt => [Cancel]
  }

  lemma {:induction false} EventsAreNormal(cfg: Config, c: Cell, b: Big)
    ensures forall k :: 0 <= k < |Events(cfg, c, b)| ==> Normal(Events(cfg, c, b)[k])
  {
    match b
    case CreateNow =>
      BlockIsNormal(cfg, c.store.(row := Some(NewRow(cfg, Pending, None))), Creating, RateLimited, |c.hands|);
    case Process(i, o) => BlockIsNormal(cfg, c.store, Got, o, i);
    case _ =>
  }

  lemma {:induction false} CreateIsItsCalls(cfg: Config, c: Cell)
    requires c.store.row.None?
    ensures Run(cfg, c, Events(cfg, c, CreateNow)) == BigStep(cfg, c, CreateNow)
  {
    var c1 := Step(cfg, c, Insert(None)).value;
    var n := |c.hands|;
    RunFirst(cfg, c, Insert(None), Block(cfg, c1.store, Creating, RateLimited, n));
    BlockRuns(cfg, c1, n, RateLimited);
    var (s2, h2) := Move(cfg, c1.store, Creating, MarkQueued(true)).value;
    assert Uninterrupted(cfg, c1.store, Creating, RateLimited) == Uninterrupted(cfg, s2, h2, RateLimited);
    assert c1.hands[n := Done] == c.hands + [Done];
  }

  lemma {:induction false} BigStepIsItsCalls(cfg: Config, c: Cell, b: Big)
    requires BigStep(cfg, c, b).Some?
    ensures Run(cfg, c, Events(cfg, c, b)) == BigStep(cfg, c, b)
  {
    match b
    case CreateNow => CreateIsItsCalls(cfg, c);
    case Process(i, o) =>
      BlockRuns(cfg, c, i, o);
      ProcessIsItsCalls(cfg, c.store, o);
    case _ =>
      var e := Events(cfg, c, b)[0];
      assert Events(cfg, c, b) == [e] && [e][..0] == [];
      assert Run(cfg, c, [e]) == Step(cfg, c, e);
  }

  /** Every coarse run is a fault-free fine run, so what holds of those holds of it. */
  lemma {:induction false} BigRunIsFineRun(cfg: Config, bigs: seq<Big>) returns (events: seq<Event>)
    requires BigRun(cfg, EMPTY, bigs).Some?
    ensures NormalRun(cfg, events) && Run(cfg, EMPTY, events) == BigRun(cfg, EMPTY, bigs)
  {
    if bigs == [] {
      events := [];
    } else {
      var front, b := bigs[..|bigs| - 1], bigs[|bigs| - 1];
      var c := BigRun(cfg, EMPTY, front).value;
      events := BigRunIsFineRun(cfg, front);
      RunConcat(cfg, EMPTY, events, Events(cfg, c, b));
      BigStepIsItsCalls(cfg, c, b);
      EventsAreNormal(cfg, c, b);
      events := events + Events(cfg, c, b);
    }
  }

  /** A cancelled notification stays cancelled, and is not sent. */
  lemma {:induction false} CancelledForEver(cfg: Config, c: Cell, bigs: seq<Big>)
    requires c.store.row.Some? && c.store.row.value.status == Cancelled
    requires BigRun(cfg, c, bigs).Some?
    ensures BigRun(cfg, c, bigs).value.store.row == c.store.row
    ensures BigRun(cfg, c, bigs).value.store.sent == c.store.sent
    ensures BigRun(cfg, c, bigs).value.store.attempts == c.store.attempts
  {
    if bigs != [] {
      CancelledForEver(cfg, c, bigs[..|bigs| - 1]);
    }
  }

  predicate AtRest(hands: seq<Hand>) {
    forall i :: 0 <= i < |hands| ==> hands[i].Publishing? || hands[i].Got? || hands[i].Done?
  }

  lemma {:induction false} BigStepAtRest(cfg: Config, c: Cell, b: Big)
    requires AtRest(c.hands) && BigStep(cfg, c, b).Some?
    ensures AtRest(BigStep(cfg, c, b).value.hands)
  {
  }

  lemma {:induction false} BigRunAtRest(cfg: Config, bigs: seq<Big>)
    requires BigRun(cfg, EMPTY, bigs).Some?
    ensures AtRest(BigRun(cfg, EMPTY, bigs).value.hands)
  {
    if bigs != [] {
      BigRunAtRest(cfg, bigs[..|bigs| - 1]);
      BigStepAtRest(cfg, BigRun(cfg, EMPTY, bigs[..|bigs| - 1]).value, bigs[|bigs| - 1]);
    }
  }

  /** What a whole `Process` counts for: one change of the row, or the two UPDATE statements it issues. */
  datatype Tally = Changes | Statements

  function PerProcess(count: Tally): nat {
    if count.Changes? then 1 else 2
  }

  /** One claim and one `Process` for each retry left. */
  function Cycles(count: Tally, retries: int): int {
    if count.Changes? then 2 * retries else 3 * retries
  }

  /** The writes a row may still see, by the retries left and the half of the cycle it is in. */
  function Measure(count: Tally, row: Row): int {
    match row.status
    case Queued => Cycles(count, row.maxRetries - row.retryCount) - 1
    case Scheduled => Cycles(count, row.maxRetries - row.retryCount)
    case Failed => Cycles(count, row.maxRetries - row.retryCount)
    case _ => 0
  }

  ghost predicate Reached(cfg: Config, c: Cell, s: Solo) {
    && Abstracts(c, s) && Balanced(cfg, s) && BelowLimit(cfg, s) && AtRest(c.hands)
  }

  lemma {:induction false} RestingRow(cfg: Config, c: Cell, s: Solo)
    requires 1 <= cfg.maxRetries == cfg.rowMaxRetries
    requires Reached(cfg, c, s) && c.store.row.Some?
    ensures var row := c.store.row.value;
      && row.maxRetries == cfg.rowMaxRetries && row.retryCount <= row.maxRetries
      && (row.status == Status.Queued ==> row.retryCount < row.maxRetries)
      && !row.status.Pending? && !row.status.Processing?
      && (forall count :: Measure(count, row) >= 0)
      && forall i :: 0 <= i < |c.hands| && c.hands[i].Got? ==> row.status == Status.Queued || row.status == Cancelled
  {
    forall i | 0 <= i < |c.hands| && c.hands[i].Got?
      ensures c.store.row.value.status == Status.Queued || c.store.row.value.status == Cancelled
    {
      assert Owns(c.hands[i]);
      assert s.place == InHand(Got);
    }
  }

  /** How often a big step writes the row. */
  function StepWrites(count: Tally, before: Store, b: Big, after: Store): nat {
    if before.row.None? then 0
    else if b.Process? && !before.row.value.status.IsFinal() then PerProcess(count)
    else One(before.row != after.row)
  }

  /** Every big step lowers the measure by its writes, except that a rate-limit denial leaves the row as it is. */
  lemma {:induction false} RowChangesLowerMeasure(cfg: Config, c: Cell, s: Solo, b: Big, count: Tally)
    requires 1 <= cfg.maxRetries == cfg.rowMaxRetries
    requires Reached(cfg, c, s) && c.store.row.Some? && BigStep(cfg, c, b).Some?
    ensures var row, store := c.store.row.value, BigStep(cfg, c, b).value.store;
      && store.row.Some?
      && if store.denied > c.store.denied
         then
           && store.denied == c.store.denied + 1 && store.row.value == row
           && StepWrites(count, c.store, b, store) == PerProcess(count)
         else
           && store.denied == c.store.denied
           && Measure(count, store.row.value) + StepWrites(count, c.store, b, store) <= Measure(count, row)
  {
    RestingRow(cfg, c, s);
  }

  lemma {:induction false} Reach(cfg: Config, bigs: seq<Big>) returns (s: Solo)
    requires 1 <= cfg.maxRetries == cfg.rowMaxRetries && BigRun(cfg, EMPTY, bigs).Some?
    ensures Reached(cfg, BigRun(cfg, EMPTY, bigs).value, s)
  {
    var events := BigRunIsFineRun(cfg, bigs);
    s := RunBelowLimit(cfg, events);
    BigRunAtRest(cfg, bigs);
  }

  /** How often the row is written after its insertion, denials included. */
  function RowWrites(cfg: Config, count: Tally, bigs: seq<Big>): nat
    requires BigRun(cfg, EMPTY, bigs).Some?
  {
    if bigs == [] then 0
    else
      var front, b := bigs[..|bigs| - 1], bigs[|bigs| - 1];
      RowWrites(cfg, count, front)
      + StepWrites(count, BigRun(cfg, EMPTY, front).value.store, b, BigRun(cfg, EMPTY, bigs).value.store)
  }

  /** A claim and a `Process` for each retry, and one more `Process` for each denial. */
  function WriteBound(cfg: Config, count: Tally, denied: nat): int {
    Cycles(count, cfg.rowMaxRetries) + if count.Changes? then denied else 2 * denied
  }

  lemma {:induction false} InsertionSetsMeasure(cfg: Config, c: Cell, s: Solo, b: Big, count: Tally)
    requires Reached(cfg, c, s) && c.store.row.None? && BigStep(cfg, c, b).Some?
    ensures var store := BigStep(cfg, c, b).value.store;
      store.row.Some? && Measure(count, store.row.value) <= Cycles(count, cfg.rowMaxRetries) && store.denied == 0
  {
  }

  lemma {:induction false} StepMeasured(cfg: Config, c: Cell, s: Solo, b: Big, count: Tally, writes: nat)
    requires 1 <= cfg.maxRetries == cfg.rowMaxRetries
    requires Reached(cfg, c, s) && BigStep(cfg, c, b).Some?
    requires if c.store.row.None? then writes == 0
             else writes + Measure(count, c.store.row.value) <= WriteBound(cfg, count, c.store.denied)
    ensures var after := BigStep(cfg, c, b).value.store;
      && after.row.Some?
      && writes + StepWrites(count, c.store, b, after) + Measure(count, after.row.value)
         <= WriteBound(cfg, count, after.denied)
  {
    if c.store.row.None? {
      InsertionSetsMeasure(cfg, c, s, b, count);
    } else {
      RowChangesLowerMeasure(cfg, c, s, b, count);
    }
  }

  lemma {:induction false} WritesPlusMeasure(cfg: Config, count: Tally, bigs: seq<Big>)
    requires 1 <= cfg.maxRetries == cfg.rowMaxRetries && BigRun(cfg, EMPTY, bigs).Some?
    ensures var store := BigRun(cfg, EMPTY, bigs).value.store;
      if store.row.None? then RowWrites(cfg, count, bigs) == 0
      else RowWrites(cfg, count, bigs) + Measure(count, store.row.value) <= WriteBound(cfg, count, store.denied)
  {
    if bigs != [] {
      var front := bigs[..|bigs| - 1];
      WritesPlusMeasure(cfg, count, front);
      var s := Reach(cfg, front);
      StepMeasured(cfg, BigRun(cfg, EMPTY, front).value, s, bigs[|bigs| - 1], count, RowWrites(cfg, count, front));
    }
  }

  lemma {:induction false} WritesBounded(cfg: Config, count: Tally, bigs: seq<Big>)
    requires 1 <= cfg.maxRetries == cfg.rowMaxRetries && BigRun(cfg, EMPTY, bigs).Some?
    ensures RowWrites(cfg, count, bigs) <= WriteBound(cfg, count, BigRun(cfg, EMPTY, bigs).value.store.denied)
  {
    WritesPlusMeasure(cfg, count, bigs);
    var s := Reach(cfg, bigs);
    if BigRun(cfg, EMPTY, bigs).value.store.row.Some? {
      RestingRow(cfg, BigRun(cfg, EMPTY, bigs).value, s);
    }
  }

  /** With equal limits a row changes at most 2 * max_retries + d times after its insertion, and at most
      3 * max_retries + 2 * d UPDATE statements write it, in any run in which it is denied d times. */
  lemma {:induction false} RowWritesBounded(cfg: Config, bigs: seq<Big>)
    requires 1 <= cfg.maxRetries == cfg.rowMaxRetries && BigRun(cfg, EMPTY, bigs).Some?
    ensures var d := BigRun(cfg, EMPTY, bigs).value.store.denied;
      && RowWrites(cfg, Changes, bigs) <= 2 * cfg.rowMaxRetries + d
      && RowWrites(cfg, Statements, bigs) <= 3 * cfg.rowMaxRetries + 2 * d
  {
    WritesBounded(cfg, Changes, bigs);
    WritesBounded(cfg, Statements, bigs);
  }
}
