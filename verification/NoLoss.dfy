/** When a settled row stays settled, at the finest grain and with every fault allowed. */
module Absorbing {
  import opened Domain
  import opened Lifecycle
  import opened AtMostOnce
  import opened Ownership

  /** Delivered, or failed past the retry poller's guard `retry_count < max_retries`. */
  predicate Settled(s: Store) {
    s.row.Some? &&
    var row := s.row.value;
    row.status == Delivered || (row.status == Failed && row.retryCount >= row.maxRetries)
  }

  /** The provider accepted the notification, and the worker has yet to write that. */
  predicate Succeeded(h: Hand) {
    (h.Answered? && h.success) || h.Delivering?
  }

  function DeliveredOnce(s: Store): nat {
    One(s.row.Some? && s.row.value.status == Delivered)
  }

  /** Every delivered row, and every worker about to write one, stands for a successful send. */
  predicate Witnessed(c: Cell) {
    Count(Succeeded, c.hands) + DeliveredOnce(c.store) <= c.store.sent
  }

  lemma {:induction false} MoveKeepsWitness(cfg: Config, s: Store, h: Hand, a: Action)
    requires Move(cfg, s, h, a).Some?
    ensures var (s', h') := Move(cfg, s, h, a).value;
      One(Succeeded(h')) + DeliveredOnce(s') + s.sent <= One(Succeeded(h)) + DeliveredOnce(s) + s'.sent
  {
  }

  lemma {:induction false} ArrivalKeepsWitness(cfg: Config, s: Store, e: Event)
    requires !e.Act? && Step(cfg, Cell(s, []), e).Some?
    ensures var s' := Step(cfg, Cell(s, []), e).value.store; DeliveredOnce(s') <= DeliveredOnce(s) && s'.sent == s.sent
  {
  }

  lemma {:induction false} StepKeepsWitness(cfg: Config, c: Cell, e: Event)
    requires Witnessed(c) && Step(cfg, c, e).Some?
    ensures Witnessed(Step(cfg, c, e).value)
  {
    if e.Act? {
      MoveKeepsWitness(cfg, c.store, c.hands[e.actor], e.action);
      CountReplace(Succeeded, c.hands, e.actor, Move(cfg, c.store, c.hands[e.actor], e.action).value.1);
    } else {
      Arrival(cfg, c, e);
      ArrivalKeepsWitness(cfg, c.store, e);
      var arrivals := Step(cfg, Cell(c.store, []), e).value.hands;
      CountArrivals(Succeeded, c.hands, arrivals);
      assert arrivals != [] ==> arrivals == [arrivals[0]] && arrivals[..0] == [];
    }
  }

  lemma {:induction false} RunIsWitnessed(cfg: Config, events: seq<Event>)
    requires Run(cfg, EMPTY, events).Some?
    ensures Witnessed(Run(cfg, EMPTY, events).value)
  {
    if events != [] {
      RunIsWitnessed(cfg, events[..|events| - 1]);
      StepKeepsWitness(cfg, Run(cfg, EMPTY, events[..|events| - 1]).value, events[|events| - 1]);
    }
  }

  lemma {:induction false} CountZero(p: Hand -> bool, hands: seq<Hand>)
    requires Count(p, hands) == 0
    ensures forall i :: 0 <= i < |hands| ==> !p(hands[i])
  {
    if hands != [] {
      CountZero(p, hands[..|hands| - 1]);
    }
  }

  predicate Through(h: Hand) {
    h.Burying? || h.Done?
  }

  /** Nobody is left but actors that are through, or that hold the Update of line 129. */
  lemma {:induction false} SettledIsQuiet(cfg: Config, past: seq<Event>)
    requires Run(cfg, EMPTY, past).Some? && Settled(Run(cfg, EMPTY, past).value.store)
    ensures var c := Run(cfg, EMPTY, past).value;
      !c.store.queued && forall i :: 0 <= i < |c.hands| ==> Through(c.hands[i]) || c.hands[i].Stale?
  {
    var c := Run(cfg, EMPTY, past).value;
    OneToken(cfg, past);
    RunIsWitnessed(cfg, past);
    CountZero(HasToken, c.hands);
    CountZero(Succeeded, c.hands);
  }

  lemma {:induction false} QuietStep(cfg: Config, c: Cell, e: Event)
    requires Settled(c.store) && !c.store.queued && (forall i :: 0 <= i < |c.hands| ==> Through(c.hands[i]))
    requires Step(cfg, c, e).Some?
    ensures var c' := Step(cfg, c, e).value;
      && c'.store.row == c.store.row && !c'.store.queued
      && forall i :: 0 <= i < |c'.hands| ==> Through(c'.hands[i])
  {
  }

  lemma {:induction false} QuietRun(cfg: Config, c: Cell, events: seq<Event>)
    requires Settled(c.store) && !c.store.queued && (forall i :: 0 <= i < |c.hands| ==> Through(c.hands[i]))
    requires Run(cfg, c, events).Some?
    ensures var c' := Run(cfg, c, events).value;
      && c'.store.row == c.store.row && !c'.store.queued
      && forall i :: 0 <= i < |c'.hands| ==> Through(c'.hands[i])
  {
    if events != [] {
      QuietRun(cfg, c, events[..|events| - 1]);
      QuietStep(cfg, Run(cfg, c, events[..|events| - 1]).value, events[|events| - 1]);
    }
  }

  ghost predicate RowIsFinal(cfg: Config, c: Cell) {
    forall events :: Run(cfg, c, events).Some? ==> Run(cfg, c, events).value.store.row == c.store.row
  }

  /** After any run, a settled row is final exactly when no worker still holds the Update of line 129. */
  lemma {:induction false} SettledForEverIff(cfg: Config, past: seq<Event>)
    requires Run(cfg, EMPTY, past).Some? && Settled(Run(cfg, EMPTY, past).value.store)
    ensures var c := Run(cfg, EMPTY, past).value;
      RowIsFinal(cfg, c) <==> forall i :: 0 <= i < |c.hands| ==> !c.hands[i].Stale?
  {
    var c := Run(cfg, EMPTY, past).value;
    SettledIsQuiet(cfg, past);
    if i :| 0 <= i < |c.hands| && c.hands[i].Stale? {
      var late := [Act(i, StaleUpdate(true))];
      assert late[..0] == [];
      assert Run(cfg, c, late) == Step(cfg, c, late[0]);
      assert Run(cfg, c, late).value.store.row != c.store.row;
    } else {
      forall events | Run(cfg, c, events).Some? ensures Run(cfg, c, events).value.store.row == c.store.row {
        QuietRun(cfg, c, events);
      }
    }
  }

  /** So it is final, whoever acts next, if until then the rate-limited branch was one step. */
  lemma {:induction false} SettledForEver(cfg: Config, past: seq<Event>)
    requires forall i :: 0 <= i < |past| ==> AtomicRequeue(past[i])
    requires Run(cfg, EMPTY, past).Some? && Settled(Run(cfg, EMPTY, past).value.store)
    ensures RowIsFinal(cfg, Run(cfg, EMPTY, past).value)
  {
    var s := SingleOwner(cfg, past);
    SettledForEverIff(cfg, past);
  }
}

/** Fault-free runs: where every notification is, and what the books say about it. */
module Books {
  import opened Domain
  import opened Lifecycle
  import opened AtMostOnce
  import opened Ownership

  predicate SameRetries(row: Row, copy: Row) {
    copy.retryCount == row.retryCount && copy.nextRetryAt == row.nextRetryAt
  }

  /** An owner's copy is current, however long ago it was read; a cancel in between shows only until
      the owner's next write. */
  predicate HandAgrees(row: Row, h: Hand) {
    match h
    case Creating => (row.status == Pending || row.status == Cancelled) && row.retryCount == 0
    case Publishing => row.status == Status.Queued || row.status == Cancelled
    case Got => row.status == Status.Queued || row.status == Cancelled
    case Read(n) => (row.status == Status.Queued || row.status == Cancelled) && SameRetries(row, n)
    case Failing(n) =>
      row.status == Processing && n.retryCount == row.retryCount + 1 && n.nextRetryAt == row.nextRetryAt
    case Stale(_) => false
    case Burying => false
    case Done => false
    case _ => row.status == Processing && SameRetries(row, h.copy)
  }

  predicate Sent(p: Place) {
    p.InHand? && (p.hand.Delivering? || (p.hand.Answered? && p.hand.success))
  }

  predicate Owing(p: Place) {
    p.InHand? && (p.hand.Failing? || (p.hand.Answered? && !p.hand.success))
  }

  predicate Unlogged(p: Place) {
    p.InHand? && p.hand.Answered?
  }

  predicate Located(cfg: Config, s: Solo, row: Row) {
    match s.place
    case Nowhere => row.status == Delivered || row.status == Cancelled
    case InRow =>
      || (row.status == Status.Scheduled && row.scheduledAt.Some?)
      || (row.status == Failed && row.retryCount >= 1
          && if row.retryCount < cfg.maxRetries then row.nextRetryAt.Some? else s.store.dead + s.burying >= 1)
    case InQueue => row.status == Status.Queued || row.status == Cancelled
    case InHand(h) => HandAgrees(row, h)
  }

  predicate Balanced(cfg: Config, s: Solo) {
    match s.store.row
    case None => s == Solo(EMPTY_STORE, Nowhere, 0)
    case Some(row) =>
      && row.maxRetries == cfg.rowMaxRetries
      && s.store.queued == s.place.InQueue?
      && Located(cfg, s, row)
      && (row.status == Delivered ==> s.place == Nowhere)
      && s.store.sent == One(row.status == Delivered) + One(Sent(s.place))
      && row.retryCount + One(Owing(s.place)) == s.store.failed + s.store.rejected
      && |s.store.attempts| + One(Unlogged(s.place)) == s.store.failed + s.store.sent
  }

  predicate Clean(turn: Turn) {
    match turn
    case Shared(e) => AtomicRequeue(e) && FaultFree(e)
    case Owner(a) => AtomicRequeue(Act(0, a)) && FaultFree(Act(0, a))
    case Finish(ok) => ok
  }

  predicate BeforeMark(h: Hand) {
    h.Creating? || h.Publishing? || h.Got? || h.Read?
  }

  predicate BeforeAnswer(h: Hand) {
    !h.Answered? && !h.Delivering? && !h.Failing?
  }

  lemma {:induction false} FirstCallsKeepBalance(cfg: Config, s: Solo, a: Action)
    requires Balanced(cfg, s) && Clean(Owner(a)) && Turned(cfg, s, Owner(a)).Some?
    requires BeforeMark(s.place.hand)
    ensures Balanced(cfg, Turned(cfg, s, Owner(a)).value)
  {
  }

  lemma {:induction false} EarlyOwnerKeepsBalance(cfg: Config, s: Solo, a: Action)
    requires Balanced(cfg, s) && Clean(Owner(a)) && Turned(cfg, s, Owner(a)).Some?
    requires BeforeAnswer(s.place.hand) && !BeforeMark(s.place.hand)
    ensures Balanced(cfg, Turned(cfg, s, Owner(a)).value)
  {
  }

  lemma {:induction false} LateOwnerKeepsBalance(cfg: Config, s: Solo, a: Action)
    requires Balanced(cfg, s) && Clean(Owner(a)) && Turned(cfg, s, Owner(a)).Some?
    requires !BeforeAnswer(s.place.hand)
    ensures Balanced(cfg, Turned(cfg, s, Owner(a)).value)
  {
  }

  lemma {:induction false} SharedKeepsBalance(cfg: Config, s: Solo, e: Event)
    requires Balanced(cfg, s) && Clean(Shared(e)) && Turned(cfg, s, Shared(e)).Some?
    ensures Balanced(cfg, Turned(cfg, s, Shared(e)).value)
  {
  }

  lemma {:induction false} BurialKeepsBalance(cfg: Config, s: Solo, turn: Turn)
    requires Balanced(cfg, s) && Clean(turn) && turn.Finish? && Turned(cfg, s, turn).Some?
    ensures Balanced(cfg, Turned(cfg, s, turn).value)
  {
  }

  lemma {:induction false} TurnKeepsBalance(cfg: Config, s: Solo, turn: Turn)
    requires Balanced(cfg, s) && Clean(turn) && Turned(cfg, s, turn).Some?
    ensures Balanced(cfg, Turned(cfg, s, turn).value)
  {
    match turn
    case Finish(_) => BurialKeepsBalance(cfg, s, turn);
    case Shared(e) => SharedKeepsBalance(cfg, s, e);
    case Owner(a) =>
      if BeforeMark(s.place.hand) {
        FirstCallsKeepBalance(cfg, s, a);
      } else if BeforeAnswer(s.place.hand) {
        EarlyOwnerKeepsBalance(cfg, s, a);
      } else {
        LateOwnerKeepsBalance(cfg, s, a);
      }
  }

  predicate Normal(e: Event) {
    AtomicRequeue(e) && FaultFree(e)
  }

  lemma {:induction false} RunIsBalanced(cfg: Config, events: seq<Event>) returns (s: Solo)
    requires Run(cfg, EMPTY, events).Some?
    requires forall i :: 0 <= i < |events| ==> Normal(events[i])
    ensures Abstracts(Run(cfg, EMPTY, events).value, s) && Balanced(cfg, s)
  {
    if events == [] {
      s := Solo(EMPTY_STORE, Nowhere, 0);
    } else {
      var front, e := events[..|events| - 1], events[|events| - 1];
      s := RunIsBalanced(cfg, front);
      var c := Run(cfg, EMPTY, front).value;
      s := StepIsBalanced(cfg, c, s, e);
    }
  }

  lemma {:induction false} StepIsBalanced(cfg: Config, c: Cell, s: Solo, e: Event) returns (s': Solo)
    requires Abstracts(c, s) && Balanced(cfg, s)
    requires Normal(e) && Step(cfg, c, e).Some?
    ensures Turned(cfg, s, Image(c, e)) == Some(s')
    ensures Abstracts(Step(cfg, c, e).value, s') && Balanced(cfg, s')
  {
    Simulate(cfg, c, s, e);
    var turn := Image(c, e);
    TurnKeepsBalance(cfg, s, turn);
    s' := Turned(cfg, s, turn).value;
  }
}
