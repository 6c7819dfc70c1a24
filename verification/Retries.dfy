/** How often a notification is dead-lettered, at the finest grain and with every fault and crash allowed. */
module Graves {
  import opened Domain
  import opened Lifecycle
  import opened AtMostOnce
  import opened RetryLimits

  /** A row that a poller may still take. */
  predicate Revivable(s: Store) {
    s.row.Some? &&
    var row := s.row.value;
    row.status == Status.Scheduled || (row.status == Failed && row.retryCount < row.maxRetries && row.nextRetryAt.Some?)
  }

  /** An actor that may still write a dead-letter entry, or bring one about. */
  predicate Carries(h: Hand) {
    h.Burying? || HasToken(h)
  }

  function Weight(s: Store): nat {
    s.dead + One(Revivable(s)) + One(s.queued)
  }

  predicate HasCopy(h: Hand) {
    !h.Creating? && !h.Publishing? && !h.Got? && !h.Burying? && !h.Done?
  }

  /** A service that retries nothing never sets next_retry_at. */
  predicate RowFits(cfg: Config, s: Store) {
    s.row.Some? && s.row.value.maxRetries == cfg.rowMaxRetries
    && (cfg.maxRetries <= 1 ==> s.row.value.nextRetryAt.None?)
  }

  predicate CopyFits(cfg: Config, h: Hand) {
    RaisedOnce(h) && (cfg.maxRetries <= 1 && HasCopy(h) ==> h.copy.nextRetryAt.None?)
  }

  lemma {:induction false} MoveKeepsWeight(cfg: Config, s: Store, h: Hand, a: Action)
    requires BuriesOnce(cfg) && RowFits(cfg, s) && CopyFits(cfg, h) && Move(cfg, s, h, a).Some?
    ensures var (s', h') := Move(cfg, s, h, a).value;
      && RowFits(cfg, s') && CopyFits(cfg, h')
      && Weight(s') + One(Carries(h')) <= Weight(s) + One(Carries(h))
  {
  }

  lemma {:induction false} ArrivalKeepsWeight(cfg: Config, s: Store, e: Event)
    requires !e.Act? && Step(cfg, Cell(s, []), e).Some?
    requires if s.row.None? then s == EMPTY_STORE else RowFits(cfg, s)
    ensures var c := Step(cfg, Cell(s, []), e).value;
      && RowFits(cfg, c.store)
      && Weight(c.store) + |c.hands| <= if s.row.None? then 1 else Weight(s)
  {
  }

  ghost predicate OneGrave(cfg: Config, c: Cell) {
    if c.store.row.None? then c == EMPTY
    else
      && RowFits(cfg, c.store)
      && (forall i :: 0 <= i < |c.hands| ==> CopyFits(cfg, c.hands[i]))
      && Weight(c.store) + Count(Carries, c.hands) <= 1
  }

  lemma {:induction false} ActKeepsOneGrave(cfg: Config, c: Cell, i: nat, a: Action)
    requires BuriesOnce(cfg) && OneGrave(cfg, c) && Step(cfg, c, Act(i, a)).Some?
    ensures OneGrave(cfg, Step(cfg, c, Act(i, a)).value)
  {
    MoveKeepsWeight(cfg, c.store, c.hands[i], a);
    CountReplace(Carries, c.hands, i, Move(cfg, c.store, c.hands[i], a).value.1);
  }

  lemma {:induction false} JoinedKeepsOneGrave(cfg: Config, c: Cell, store: Store, arrivals: seq<Hand>)
    requires OneGrave(cfg, c) && RowFits(cfg, store)
    requires |arrivals| <= 1 && forall i :: 0 <= i < |arrivals| ==> CopyFits(cfg, arrivals[i])
    requires Weight(store) + |arrivals| <= if c.store.row.None? then 1 else Weight(c.store)
    ensures OneGrave(cfg, Cell(store, c.hands + arrivals))
  {
    CountArrivals(Carries, c.hands, arrivals);
  }

  lemma {:induction false} ArrivalKeepsOneGrave(cfg: Config, c: Cell, e: Event)
    requires OneGrave(cfg, c) && !e.Act? && Step(cfg, c, e).Some?
    ensures OneGrave(cfg, Step(cfg, c, e).value)
  {
    Arrival(cfg, c, e);
    ArrivalKeepsWeight(cfg, c.store, e);
    var alone := Step(cfg, Cell(c.store, []), e).value;
    JoinedKeepsOneGrave(cfg, c, alone.store, alone.hands);
  }

  lemma {:induction false} RunHasOneGrave(cfg: Config, events: seq<Event>)
    requires BuriesOnce(cfg) && Run(cfg, EMPTY, events).Some?
    ensures OneGrave(cfg, CellAfter(cfg, events))
  {
    if events != [] {
      var front, e := events[..|events| - 1], events[|events| - 1];
      RunHasOneGrave(cfg, front);
      if e.Act? {
        ActKeepsOneGrave(cfg, CellAfter(cfg, front), e.actor, e.action);
      } else {
        ArrivalKeepsOneGrave(cfg, CellAfter(cfg, front), e);
      }
    }
  }

  lemma {:induction false} TwoGraves(cfg: Config) returns (events: seq<Event>)
    requires !BuriesOnce(cfg)
    ensures NormalRun(cfg, events) && CellAfter(cfg, events).store.dead == 2
  {
    var c: Cell;
    events, c := FailTimes(cfg, cfg.maxRetries);
    events, c := FailAgain(cfg, EMPTY, events, c, cfg.maxRetries, 1);
  }

  /** At most one dead-letter entry is written for a notification in any run exactly when the service's limit
      is not below the row's: dead-lettering leaves next_retry_at as it was, so only the guard on retry_count
      keeps the retry poller away. Leaving out faults and the late Update of line 129 changes nothing. */
  lemma {:induction false} DeadLetteredOnceIff(cfg: Config)
    ensures (forall events :: Run(cfg, EMPTY, events).Some? ==> CellAfter(cfg, events).store.dead <= 1)
       <==> BuriesOnce(cfg)
    ensures (forall events :: NormalRun(cfg, events) ==> CellAfter(cfg, events).store.dead <= 1) <==> BuriesOnce(cfg)
  {
    if BuriesOnce(cfg) {
      forall events | Run(cfg, EMPTY, events).Some? ensures CellAfter(cfg, events).store.dead <= 1 {
        RunHasOneGrave(cfg, events);
      }
    } else {
      var events := TwoGraves(cfg);
    }
  }
}

/** When retry_count never falls, at the finest grain and with every fault and crash allowed. */
module RetryCounts {
  import opened Lifecycle
  import opened AtMostOnce
  import opened Ownership
  import opened Absorbing
  import opened RetryLimits
  import opened Graves

  lemma {:induction false} OwnersSplit(hands: seq<Hand>)
    ensures Count(Owns, hands) == Count(HasToken, hands) + Count(Succeeded, hands)
  {
    if hands != [] {
      OwnersSplit(hands[..|hands| - 1]);
    }
  }

  /** The sorted set, a resting row and everybody's hands hold the notification at most once. */
  lemma {:induction false} AtMostOneHolder(cfg: Config, events: seq<Event>)
    requires Run(cfg, EMPTY, events).Some?
    ensures var c := CellAfter(cfg, events); StoreTokens(c.store) + Count(Owns, c.hands) <= 1
  {
    OneToken(cfg, events);
    RunIsWitnessed(cfg, events);
    OwnersSplit(CellAfter(cfg, events).hands);
  }

  lemma {:induction false} OthersIdle(hands: seq<Hand>, i: nat)
    requires i < |hands| && Owns(hands[i]) && Count(Owns, hands) <= 1
    ensures forall j :: 0 <= j < |hands| && j != i ==> !Owns(hands[j])
  {
    CountReplace(Owns, hands, i, Done);
    CountZero(Owns, hands[i := Done]);
    forall j | 0 <= j < |hands| && j != i ensures !Owns(hands[j]) {
      assert hands[i := Done][j] == hands[j];
    }
  }

  /** An owner's copy counts the row's retries, and one more in handleRetry; a stale copy counts no more. */
  predicate Current(retries: nat, h: Hand) {
    if Owns(h) && HasCopy(h) then h.copy.retryCount == retries + One(h.Failing?)
    else h.Stale? ==> h.copy.retryCount <= retries
  }

  function Retries(c: Cell): nat {
    if c.store.row.Some? then c.store.row.value.retryCount else 0
  }

  predicate AllCurrent(c: Cell) {
    && (c.store.row.None? ==> c.hands == [] && !c.store.queued)
    && forall i :: 0 <= i < |c.hands| ==> Current(Retries(c), c.hands[i])
  }

  /** What a guard on the Update of line 129 would check: the row still has the retries of the copy. */
  predicate Matches(c: Cell, e: Event) {
    e.Act? && e.action == StaleUpdate(true) && e.actor < |c.hands| && c.hands[e.actor].Stale? ==>
      Retries(c) == c.hands[e.actor].copy.retryCount
  }

  lemma {:induction false} MoveKeepsCurrent(cfg: Config, s: Store, h: Hand, a: Action)
    requires s.row.Some? && Current(s.row.value.retryCount, h) && Move(cfg, s, h, a).Some?
    requires h.Stale? && a == StaleUpdate(true) ==> s.row.value.retryCount == h.copy.retryCount
    ensures var (s', h') := Move(cfg, s, h, a).value;
      && s'.row.Some? && Current(s'.row.value.retryCount, h')
      && s.row.value.retryCount <= s'.row.value.retryCount
      && (s.row.value.retryCount < s'.row.value.retryCount ==> Owns(h))
  {
  }

  lemma {:induction false} ArrivalKeepsCurrent(cfg: Config, c: Cell, e: Event)
    requires AllCurrent(c) && !e.Act? && Step(cfg, c, e).Some?
    ensures AllCurrent(Step(cfg, c, e).value) && Retries(Step(cfg, c, e).value) == Retries(c)
  {
    Arrival(cfg, c, e);
    var alone := Step(cfg, Cell(c.store, []), e).value;
    assert Retries(alone) == Retries(c);
  }

  lemma {:induction false} StepKeepsCurrent(cfg: Config, c: Cell, e: Event)
    requires AllCurrent(c) && Count(Owns, c.hands) <= 1 && Step(cfg, c, e).Some? && Matches(c, e)
    ensures AllCurrent(Step(cfg, c, e).value) && Retries(c) <= Retries(Step(cfg, c, e).value)
  {
    if e.Act? {
      MoveKeepsCurrent(cfg, c.store, c.hands[e.actor], e.action);
      if Owns(c.hands[e.actor]) {
        OthersIdle(c.hands, e.actor);
      }
    } else {
      ArrivalKeepsCurrent(cfg, c, e);
    }
  }

  /** Every successful Update of line 129 finds the row with the retries of its copy. */
  ghost predicate Matched(cfg: Config, events: seq<Event>)
    requires Run(cfg, EMPTY, events).Some?
  {
    events == [] ||
    (var front, e := events[..|events| - 1], events[|events| - 1];
     Matched(cfg, front) && Matches(CellAfter(cfg, front), e))
  }

  ghost predicate NeverFalls(cfg: Config, events: seq<Event>)
    requires Run(cfg, EMPTY, events).Some?
  {
    events == [] ||
    (var front := events[..|events| - 1];
     NeverFalls(cfg, front) && Retries(CellAfter(cfg, front)) <= Retries(CellAfter(cfg, events)))
  }

  lemma {:induction false} MatchedIsCurrent(cfg: Config, events: seq<Event>)
    requires Run(cfg, EMPTY, events).Some? && Matched(cfg, events)
    ensures AllCurrent(CellAfter(cfg, events)) && NeverFalls(cfg, events)
  {
    if events != [] {
      var front := events[..|events| - 1];
      MatchedIsCurrent(cfg, front);
      AtMostOneHolder(cfg, front);
      StepKeepsCurrent(cfg, CellAfter(cfg, front), events[|events| - 1]);
    }
  }

  /** In every run, faults and crashes included, no step lowers retry_count exactly when every successful
      Update of line 129 finds the row with the retries of its copy. */
  lemma {:induction false} RetryCountNeverFallsIff(cfg: Config, events: seq<Event>)
    requires Run(cfg, EMPTY, events).Some?
    ensures NeverFalls(cfg, events) <==> Matched(cfg, events)
  {
    if Matched(cfg, events) {
      MatchedIsCurrent(cfg, events);
    } else {
      var front, e := events[..|events| - 1], events[|events| - 1];
      RetryCountNeverFallsIff(cfg, front);
      if Matched(cfg, front) {
        MatchedIsCurrent(cfg, front);
        var c := CellAfter(cfg, front);
        assert c.hands[e.actor].copy.retryCount < Retries(c);
      }
    }
  }

  lemma {:induction false} AtomicIsMatched(cfg: Config, events: seq<Event>)
    requires Run(cfg, EMPTY, events).Some? && forall i :: 0 <= i < |events| ==> AtomicRequeue(events[i])
    ensures Matched(cfg, events)
  {
    if events != [] {
      AtomicIsMatched(cfg, events[..|events| - 1]);
    }
  }

  /** So with the atomic requeue it never falls, whatever the limits and the faults. */
  lemma {:induction false} RetryCountNeverFalls(cfg: Config, events: seq<Event>)
    requires Run(cfg, EMPTY, events).Some? && forall i :: 0 <= i < |events| ==> AtomicRequeue(events[i])
    ensures NeverFalls(cfg, events)
  {
    AtomicIsMatched(cfg, events);
    RetryCountNeverFallsIff(cfg, events);
  }
}

/** The retry budget, at the finest grain and with every fault and crash allowed. */
module Budget {
  import opened Domain
  import opened Lifecycle
  import opened AtMostOnce
  import opened Ownership
  import opened Books
  import opened RetryLimits
  import opened Graves
  import opened RetryCounts

  /** Attempt numbers that strictly increase from 1 up to `bound` at most. */
  predicate Numbered(attempts: seq<Attempt>, bound: int) {
    attempts == [] ||
    var last := attempts[|attempts| - 1].number;
    1 <= last <= bound && Numbered(attempts[..|attempts| - 1], last - 1)
  }

  function Failures(s: Store): nat {
    s.failed + s.rejected
  }

  /** A failure that the row does not count yet. */
  predicate Owing(h: Hand) {
    h.Failing? || (h.Answered? && !h.success)
  }

  /** The notification waits in the sorted set, or the row waits for a poller. */
  predicate Waits(s: Store) {
    s.queued || Parked(s)
  }

  predicate Sums(cfg: Config, s: Store) {
    s.row.Some? &&
    var retries := s.row.value.retryCount;
    && s.row.value.maxRetries == cfg.rowMaxRetries
    && retries <= Failures(s) <= retries + 1
    && retries <= cfg.maxRetries && Failures(s) + s.sent <= cfg.maxRetries
    && (Waits(s) ==> Failures(s) == retries && Numbered(s.attempts, retries))
    && (s.queued || s.row.value.status == Status.Scheduled ==> retries < cfg.maxRetries)
    && Numbered(s.attempts, retries + 1) && Numbered(s.attempts, cfg.maxRetries)
    && |s.attempts| <= s.failed + s.sent
  }

  predicate HandSums(cfg: Config, s: Store, h: Hand)
    requires s.row.Some?
  {
    Owns(h) ==>
      var retries := s.row.value.retryCount;
      && retries < cfg.maxRetries
      && Failures(s) == retries + One(Owing(h))
      && (!h.Delivering? && !h.Failing? ==> Numbered(s.attempts, retries))
      && (h.Answered? ==> |s.attempts| < s.failed + s.sent)
  }

  lemma {:induction false} LogIsNumbered(attempts: seq<Attempt>, bound: nat, top: int, success: bool)
    requires Numbered(attempts, bound) && bound < top
    ensures Numbered(attempts + [Attempt(bound + 1, success)], bound + 1)
    ensures Numbered(attempts + [Attempt(bound + 1, success)], top)
  {
    assert (attempts + [Attempt(bound + 1, success)])[..|attempts|] == attempts;
  }

  predicate Late(h: Hand) {
    h.Answered? || h.Delivering? || h.Failing?
  }

  lemma {:induction false} FirstCallsKeepSums(cfg: Config, s: Store, h: Hand, a: Action)
    requires 1 <= cfg.maxRetries == cfg.rowMaxRetries
    requires Sums(cfg, s) && Owns(h) && HandSums(cfg, s, h) && Current(s.row.value.retryCount, h)
    requires !Waits(s) && (HasToken(h) ==> s.sent == 0) && Move(cfg, s, h, a).Some?
    requires BeforeMark(h)
    ensures var (s', h') := Move(cfg, s, h, a).value; Sums(cfg, s') && HandSums(cfg, s', h')
  {
  }

  lemma {:induction false} EarlyOwnerKeepsSums(cfg: Config, s: Store, h: Hand, a: Action)
    requires 1 <= cfg.maxRetries == cfg.rowMaxRetries
    requires Sums(cfg, s) && Owns(h) && HandSums(cfg, s, h) && Current(s.row.value.retryCount, h)
    requires !Waits(s) && (HasToken(h) ==> s.sent == 0) && Move(cfg, s, h, a).Some?
    requires !BeforeMark(h) && !Late(h)
    ensures var (s', h') := Move(cfg, s, h, a).value; Sums(cfg, s') && HandSums(cfg, s', h')
  {
  }

  lemma {:induction false} AnsweredKeepsSums(cfg: Config, s: Store, h: Hand, a: Action)
    requires 1 <= cfg.maxRetries == cfg.rowMaxRetries
    requires Sums(cfg, s) && Owns(h) && HandSums(cfg, s, h) && Current(s.row.value.retryCount, h)
    requires !Waits(s) && (HasToken(h) ==> s.sent == 0) && Move(cfg, s, h, a).Some?
    requires h.Answered?
    ensures var (s', h') := Move(cfg, s, h, a).value; Sums(cfg, s') && HandSums(cfg, s', h')
  {
    var retries := s.row.value.retryCount;
    var s' := Move(cfg, s, h, a).value.0;
    if s' != s {
      assert s' == s.(attempts := s.attempts + [Attempt(retries + 1, h.success)]);
      LogIsNumbered(s.attempts, retries, cfg.maxRetries, h.success);
    }
  }

  lemma {:induction false} LastCallKeepsSums(cfg: Config, s: Store, h: Hand, a: Action)
    requires 1 <= cfg.maxRetries == cfg.rowMaxRetries
    requires Sums(cfg, s) && Owns(h) && HandSums(cfg, s, h) && Current(s.row.value.retryCount, h)
    requires !Waits(s) && (HasToken(h) ==> s.sent == 0) && Move(cfg, s, h, a).Some?
    requires h.Delivering? || h.Failing?
    ensures var (s', h') := Move(cfg, s, h, a).value; Sums(cfg, s') && HandSums(cfg, s', h')
  {
  }

  lemma {:induction false} OwnerKeepsSums(cfg: Config, s: Store, h: Hand, a: Action)
    requires 1 <= cfg.maxRetries == cfg.rowMaxRetries
    requires Sums(cfg, s) && Owns(h) && HandSums(cfg, s, h) && Current(s.row.value.retryCount, h)
    requires !Waits(s) && (HasToken(h) ==> s.sent == 0) && Move(cfg, s, h, a).Some?
    ensures var (s', h') := Move(cfg, s, h, a).value; Sums(cfg, s') && HandSums(cfg, s', h')
  {
    if BeforeMark(h) {
      FirstCallsKeepSums(cfg, s, h, a);
    } else if !Late(h) {
      EarlyOwnerKeepsSums(cfg, s, h, a);
    } else if h.Answered? {
      AnsweredKeepsSums(cfg, s, h, a);
    } else {
      LastCallKeepsSums(cfg, s, h, a);
    }
  }

  /** What the sums of another actor rest on stays. */
  predicate SameSums(s: Store, s': Store) {
    && s.row.Some? && s'.row.Some? && s'.row.value.retryCount == s.row.value.retryCount
    && s'.attempts == s.attempts && s'.failed == s.failed && s'.rejected == s.rejected && s'.sent == s.sent
  }

  lemma {:induction false} IdleKeepsSums(cfg: Config, s: Store, h: Hand, a: Action)
    requires Sums(cfg, s) && !Owns(h) && Move(cfg, s, h, a).Some?
    requires h.Stale? && a == StaleUpdate(true) ==> s.row.value.retryCount == h.copy.retryCount
    ensures var (s', h') := Move(cfg, s, h, a).value; Sums(cfg, s') && SameSums(s, s') && !Owns(h')
  {
  }

  lemma {:induction false} ArrivalKeepsSums(cfg: Config, s: Store, e: Event)
    requires 1 <= cfg.maxRetries == cfg.rowMaxRetries
    requires !e.Act? && Step(cfg, Cell(s, []), e).Some?
    requires if s.row.None? then s == EMPTY_STORE else Sums(cfg, s)
    ensures var c := Step(cfg, Cell(s, []), e).value;
      && Sums(cfg, c.store) && (s.row.Some? ==> SameSums(s, c.store))
      && forall i :: 0 <= i < |c.hands| ==> HandSums(cfg, c.store, c.hands[i])
  {
  }

  ghost predicate Budgeted(cfg: Config, c: Cell) {
    if c.store.row.None? then c == EMPTY
    else Sums(cfg, c.store) && forall i :: 0 <= i < |c.hands| ==> HandSums(cfg, c.store, c.hands[i])
  }

  lemma {:induction false} ArrivalKeepsBudget(cfg: Config, c: Cell, e: Event, c': Cell)
    requires 1 <= cfg.maxRetries == cfg.rowMaxRetries
    requires Budgeted(cfg, c) && !e.Act? && Step(cfg, c, e) == Some(c')
    ensures Budgeted(cfg, c')
  {
    Arrival(cfg, c, e);
    ArrivalKeepsSums(cfg, c.store, e);
  }

  lemma {:induction false} TokenMeansUnsent(c: Cell, i: nat)
    requires Tokens(c) + c.store.sent <= 1 && i < |c.hands| && HasToken(c.hands[i])
    ensures c.store.sent == 0
  {
    CountReplace(HasToken, c.hands, i, Done);
  }

  ghost predicate Orderly(c: Cell) {
    AllCurrent(c) && StoreTokens(c.store) + Count(Owns, c.hands) <= 1 && Tokens(c) + c.store.sent <= 1
  }

  lemma {:induction false} RunIsOrderly(cfg: Config, events: seq<Event>)
    requires Run(cfg, EMPTY, events).Some? && Matched(cfg, events)
    ensures Orderly(CellAfter(cfg, events))
  {
    MatchedIsCurrent(cfg, events);
    AtMostOneHolder(cfg, events);
    OneToken(cfg, events);
  }

  lemma {:induction false} OwnerKeepsBudget(cfg: Config, c: Cell, i: nat, a: Action, c': Cell)
    requires 1 <= cfg.maxRetries == cfg.rowMaxRetries && i < |c.hands| && Step(cfg, c, Act(i, a)) == Some(c')
    requires Budgeted(cfg, c) && Orderly(c) && Owns(c.hands[i])
    ensures Budgeted(cfg, c')
  {
    CountReplace(Owns, c.hands, i, Done);
    if HasToken(c.hands[i]) {
      TokenMeansUnsent(c, i);
    }
    OwnerKeepsSums(cfg, c.store, c.hands[i], a);
    OthersIdle(c.hands, i);
  }

  lemma {:induction false} IdlerKeepsBudget(cfg: Config, c: Cell, i: nat, a: Action, c': Cell)
    requires i < |c.hands| && Step(cfg, c, Act(i, a)) == Some(c')
    requires Budgeted(cfg, c) && !Owns(c.hands[i]) && Matches(c, Act(i, a))
    ensures Budgeted(cfg, c')
  {
    IdleKeepsSums(cfg, c.store, c.hands[i], a);
  }

  lemma {:induction false} ActorExists(cfg: Config, c: Cell, e: Event)
    requires e.Act? && Step(cfg, c, e).Some?
    ensures e.actor < |c.hands|
  {
  }

  lemma {:induction false} StepKeepsBudget(cfg: Config, c: Cell, e: Event, c': Cell)
    requires 1 <= cfg.maxRetries == cfg.rowMaxRetries && Step(cfg, c, e) == Some(c')
    requires Budgeted(cfg, c) && Orderly(c) && Matches(c, e)
    ensures Budgeted(cfg, c')
  {
    if !e.Act? {
      ArrivalKeepsBudget(cfg, c, e, c');
    } else {
      ActorExists(cfg, c, e);
      if Owns(c.hands[e.actor]) {
        OwnerKeepsBudget(cfg, c, e.actor, e.action, c');
      } else {
        IdlerKeepsBudget(cfg, c, e.actor, e.action, c');
      }
    }
  }

  lemma {:induction false} RunIsBudgeted(cfg: Config, events: seq<Event>)
    requires 1 <= cfg.maxRetries == cfg.rowMaxRetries
    requires Run(cfg, EMPTY, events).Some? && Matched(cfg, events)
    ensures Budgeted(cfg, CellAfter(cfg, events))
  {
    if events != [] {
      var front := events[..|events| - 1];
      RunIsBudgeted(cfg, front);
      RunIsOrderly(cfg, front);
      StepKeepsBudget(cfg, CellAfter(cfg, front), events[|events| - 1], CellAfter(cfg, events));
    }
  }

  predicate Increasing(attempts: seq<Attempt>) {
    forall i, j :: 0 <= i < j < |attempts| ==> attempts[i].number < attempts[j].number
  }

  predicate AttemptsBelow(attempts: seq<Attempt>, bound: int) {
    && Increasing(attempts)
    && forall i :: 0 <= i < |attempts| ==> 1 <= attempts[i].number <= bound
  }

  lemma {:induction false} NumberedIsBelow(attempts: seq<Attempt>, bound: int)
    requires Numbered(attempts, bound)
    ensures AttemptsBelow(attempts, bound)
  {
    if attempts != [] {
      NumberedIsBelow(attempts[..|attempts| - 1], attempts[|attempts| - 1].number - 1);
    }
  }

  /** The retry budget, with equal limits: retry_count counts failed attempts and breaker refusals (but for
      one in hand, or lost with its worker), attempt numbers strictly increase within 1..max_retries, and sends
      and refusals together stop at the limit. It holds in every run in which retry_count never falls. */
  lemma {:induction false} RetryBudgetWhenMatched(cfg: Config, events: seq<Event>)
    requires 1 <= cfg.maxRetries == cfg.rowMaxRetries
    requires Run(cfg, EMPTY, events).Some? && Matched(cfg, events) && CellAfter(cfg, events).store.row.Some?
    ensures var s := CellAfter(cfg, events).store;
      var retries := s.row.value.retryCount;
      && retries <= s.failed + s.rejected <= retries + 1
      && retries <= cfg.maxRetries && s.failed + s.rejected + s.sent <= cfg.maxRetries
      && AttemptsBelow(s.attempts, cfg.maxRetries) && |s.attempts| <= s.failed + s.sent
      && s.dead <= 1
  {
    RunIsBudgeted(cfg, events);
    NumberedIsBelow(CellAfter(cfg, events).store.attempts, cfg.maxRetries);
    RunHasOneGrave(cfg, events);
  }

  /** So with the atomic requeue it holds in every run. */
  lemma {:induction false} RetryBudget(cfg: Config, events: seq<Event>)
    requires 1 <= cfg.maxRetries == cfg.rowMaxRetries
    requires Run(cfg, EMPTY, events).Some? && forall i :: 0 <= i < |events| ==> AtomicRequeue(events[i])
    requires CellAfter(cfg, events).store.row.Some?
    ensures var s := CellAfter(cfg, events).store;
      var retries := s.row.value.retryCount;
      && retries <= s.failed + s.rejected <= retries + 1
      && retries <= cfg.maxRetries && s.failed + s.rejected + s.sent <= cfg.maxRetries
      && AttemptsBelow(s.attempts, cfg.maxRetries) && |s.attempts| <= s.failed + s.sent
      && s.dead <= 1
  {
    AtomicIsMatched(cfg, events);
    RetryBudgetWhenMatched(cfg, events);
  }
}

/** At the finest grain the budget needs more than that nothing is lost. */
module BudgetRaces {
  import opened Domain
  import opened Lifecycle
  import opened RetryLimits
  import opened WholeCalls
  import opened Races
  import opened Cancels
  import opened FinestGrain

  /** A worker's failed send, a poll, and the message is queued again. */
  lemma {:induction false} FailAndRequeue(cfg: Config) returns (later: seq<Event>, c: Cell)
    requires cfg.maxRetries >= 2 && cfg.rowMaxRetries >= 2
    ensures Plays(cfg, StaleCell(cfg), later, c)
    ensures c.store.row.Some? && c.store.queued && c.store.attempts == [Attempt(1, false)]
    ensures |c.hands| > 1 && c.hands[1] == StaleCell(cfg).hands[1]
  {
    later, c := Round(cfg, StaleCell(cfg), [], StaleCell(cfg), Outcome.Refused(0));
    later, c := Extend(cfg, StaleCell(cfg), later, c, PollRetry(0));
    later, c := Extend(cfg, StaleCell(cfg), later, c, Act(|c.hands| - 1, Publish(true)));
  }

  lemma {:induction false} LandsOnce(cfg: Config, first: seq<Event>, c: Cell, more: seq<Event>)
    requires first != [] && Run(cfg, EMPTY, first[..|first| - 1]) == Some(c) && c.store.queued
    requires forall i :: 0 <= i < |first| - 1 ==> !IsStaleWrite(first[i])
    requires forall i :: 0 <= i < |more| ==> !IsStaleWrite(more[i])
    ensures LandsOwned(cfg, first + more)
  {
    assert (first + more)[..|first| - 1] == first[..|first| - 1];
  }

  /** The late Update lands while the message waits for its second try, and takes the first failure off the row:
      the run loses nothing, and its two attempts have one number. */
  lemma {:induction false} AttemptNumberRepeats(cfg: Config) returns (events: seq<Event>)
    requires cfg.maxRetries >= 2 && cfg.rowMaxRetries >= 2
    ensures FaultFreeRun(cfg, EMPTY, events) && LandsOwned(cfg, events)
    ensures CellAfter(cfg, events).store.attempts == [Attempt(1, false), Attempt(1, false)]
  {
    var past := StaleWritePending(cfg);
    var later, c := FailAndRequeue(cfg);
    var first := ThenStaleWrite(cfg, past, later, c);
    var from := CellAfter(cfg, first);
    var more, end := Round(cfg, from, [], from, Outcome.Refused(0));
    RunConcat(cfg, EMPTY, first, more);
    LandsOnce(cfg, first, c, more);
    events := first + more;
  }
}
