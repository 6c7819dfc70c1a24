/** One notification and everything that acts on it: its row in Postgres, its member in the Redis
    sorted set, and any number of API calls, pollers and workers. Each repository, queue, breaker,
    limiter or provider call is one step, and all actors interleave freely; `ok` and `Crash` let any
    call fail and any actor vanish between two calls. The breaker, the limiter and the provider
    answer arbitrarily. */
module Lifecycle {
  import opened Domain

  /** `maxRetries` is s.maxRetries of the delivery service; `rowMaxRetries` is the max_retries column. */
  datatype Config = Config(maxRetries: int, rowMaxRetries: nat)

  datatype Attempt = Attempt(number: nat, success: bool)

  /** Where an actor stands; `copy` is its in-memory notification `n`. */
  datatype Hand =
    | Creating                                // Create, row inserted as pending, before UpdateStatus
    | Publishing                              // creator or poller, before Enqueue or EnqueueBatch
    | Got                                     // worker, after Dequeue
    | Read(copy: Row)                         // after GetByID found a status that is not final
    | Marked(copy: Row)                       // after the Update to processing
    | Admitted(copy: Row)                     // the breaker let it through
    | Denied(copy: Row)                       // the limiter denied it, before the Enqueue
    | Stale(copy: Row)                        // after that Enqueue, before the Update to queued
    | Sending(copy: Row)                      // before provider.Send
    | Answered(copy: Row, success: bool)      // before the attempt is recorded
    | Delivering(copy: Row)                   // before the Update to delivered
    | Failing(copy: Row)                      // in handleRetry, RetryCount already raised, before its Update
    | Burying                                 // row failed at the limit, before the DLQ entry
    | Done

  /** What is shared: the row, the queue member, and the tables the delivery service appends to.
      `failed`, `rejected` and `denied` count provider failures, breaker refusals and limiter denials. */
  datatype Store = Store(
    row: Option<Row>, queued: bool,
    sent: nat, failed: nat, rejected: nat, denied: nat,
    attempts: seq<Attempt>, dead: nat)

  datatype Cell = Cell(store: Store, hands: seq<Hand>)

  const EMPTY_STORE := Store(None, false, 0, 0, 0, 0, [], 0)
  const EMPTY := Cell(EMPTY_STORE, [])

  datatype Verdict = Allow | Deny | Error

  /** The next call of one actor. */
  datatype Action =
    | MarkQueued(ok: bool)
    | Publish(ok: bool)
    | Fetch(ok: bool)
    | MarkProcessing(ok: bool)
    | AskBreaker(allowed: bool)
    | AskLimiter(verdict: Verdict)
    | Requeue(ok: bool)
    | StaleUpdate(ok: bool)
    | RequeueAtOnce
    | Send(success: bool)
    | LogAttempt(ok: bool)
    | WriteDelivered(ok: bool)
    | WriteFailed(nextRetry: int, ok: bool)
    | Bury(ok: bool)
    | Crash

  datatype Event =
    | Insert(scheduledAt: Option<int>)
    | InsertBatchRow(scheduledAt: Option<int>)
    | PollScheduled(now: int)
    | PollRetry(now: int)
    | Dequeue
    | Cancel
    | Act(actor: nat, action: Action)

  function WriteCopy(s: Store, copy: Row, ok: bool): Store {
    if ok && s.row.Some? then s.(row := Some(Overwrite(s.row.value, copy))) else s
  }

  function SetStatus(s: Store, status: Status): Store {
    if s.row.Some? then s.(row := Some(s.row.value.(status := status))) else s
  }

  /** One call of an actor: the new store and where it leaves the actor; None when the actor is not
      about to make that call. */
  function Move(cfg: Config, s: Store, h: Hand, a: Action): Option<(Store, Hand)> {
    match (h, a)
    case (Creating, MarkQueued(ok)) =>
      Some((if ok then SetStatus(s, Status.Queued) else s, Publishing))
    case (Publishing, Publish(ok)) =>
      Some((s.(queued := s.queued || ok), Done))
    case (Got, Fetch(ok)) =>
      if ok && s.row.Some? && !s.row.value.status.IsFinal()
      then Some((s, Read(s.row.value)))
      else Some((s, Done))
    case (Read(n), MarkProcessing(ok)) =>
      var n' := n.(status := Processing);
      Some((WriteCopy(s, n', ok), if ok then Marked(n') else Done))
    case (Marked(n), AskBreaker(allowed)) =>
      if allowed then Some((s, Admitted(n)))
      else Some((s.(rejected := s.rejected + 1), Failing(n.(retryCount := n.retryCount + 1))))
    case (Admitted(n), AskLimiter(verdict)) =>
      (match verdict
       case Allow => Some((s, Sending(n)))
       case Deny => Some((s.(denied := s.denied + 1), Denied(n)))
       case Error => Some((s, Done)))
    case (Denied(n), Requeue(ok)) =>
      Some((s.(queued := s.queued || ok), Stale(n)))
    case (Stale(n), StaleUpdate(ok)) =>
      Some((WriteCopy(s, n.(status := Status.Queued), ok), Done))
    case (Denied(n), RequeueAtOnce) =>
      Some((WriteCopy(s.(queued := true), n.(status := Status.Queued), true), Done))
    case (Sending(n), Send(success)) =>
      Some((if success then s.(sent := s.sent + 1) else s.(failed := s.failed + 1), Answered(n, success)))
    case (Answered(n, success), LogAttempt(ok)) =>
      Some((if ok then s.(attempts := s.attempts + [Attempt(n.retryCount + 1, success)]) else s,
            if success then Delivering(n) else Failing(n.(retryCount := n.retryCount + 1))))
    case (Delivering(n), WriteDelivered(ok)) =>
      Some((WriteCopy(s, n.(status := Delivered), ok), Done))
    case (Failing(n), WriteFailed(nextRetry, ok)) =>
      if n.retryCount >= cfg.maxRetries
      then Some((WriteCopy(s, n.(status := Failed), ok), Burying))
      else Some((WriteCopy(s, n.(status := Failed, nextRetryAt := Some(nextRetry)), ok), Done))
    case (Burying, Bury(ok)) =>
      Some((if ok then s.(dead := s.dead + 1) else s, Done))
    case (_, Crash) =>
      if h.Done? then None else Some((s, Done))
    case (_, _) => None
  }

  function NewRow(cfg: Config, status: Status, scheduledAt: Option<int>): Row {
    Row(status, 0, cfg.rowMaxRetries, scheduledAt, None)
  }

  function Step(cfg: Config, c: Cell, e: Event): Option<Cell> {
    var s := c.store;
    match e
    case Insert(at) =>
      if s.row.Some? then None
      else if at.Some? then Some(Cell(s.(row := Some(NewRow(cfg, Status.Scheduled, at))), c.hands))
      else Some(Cell(s.(row := Some(NewRow(cfg, Pending, None))), c.hands + [Creating]))
    case InsertBatchRow(at) =>
      if s.row.Some? then None
      else if at.Some? then Some(Cell(s.(row := Some(NewRow(cfg, Status.Scheduled, at))), c.hands))
      else Some(Cell(s.(row := Some(NewRow(cfg, Status.Queued, None))), c.hands + [Publishing]))
    case PollScheduled(now) =>
      if s.row.Some? && ScheduledReady(s.row.value, now)
      then Some(Cell(SetStatus(s, Status.Queued), c.hands + [Publishing])) else None
    case PollRetry(now) =>
      if s.row.Some? && RetryReady(s.row.value, now)
      then Some(Cell(SetStatus(s, Status.Queued), c.hands + [Publishing])) else None
    case Dequeue =>
      if s.queued then Some(Cell(s.(queued := false), c.hands + [Got])) else None
    case Cancel =>
      if s.row.Some? then Some(Cell(s.(row := Some(CancelRow(s.row.value))), c.hands)) else None
    case Act(i, a) =>
      if i >= |c.hands| then None
      else
        match Move(cfg, s, c.hands[i], a)
        case None => None
        case Some((s', h')) => Some(Cell(s', c.hands[i := h']))
  }

  function Run(cfg: Config, c: Cell, events: seq<Event>): Option<Cell> {
    if events == [] then Some(c)
    else
      match Run(cfg, c, events[..|events| - 1])
      case None => None
      case Some(c') => Step(cfg, c', events[|events| - 1])
  }

  lemma {:induction false} PrefixRuns(cfg: Config, events: seq<Event>, k: nat)
    requires k <= |events| && Run(cfg, EMPTY, events).Some?
    ensures Run(cfg, EMPTY, events[..k]).Some?
  {
    if k < |events| {
      assert events[..|events| - 1][..k] == events[..k];
      PrefixRuns(cfg, events[..|events| - 1], k);
    } else {
      assert events[..k] == events;
    }
  }

  lemma {:induction false} RunConcat(cfg: Config, c: Cell, xs: seq<Event>, ys: seq<Event>)
    requires Run(cfg, c, xs).Some?
    ensures Run(cfg, c, xs + ys) == Run(cfg, Run(cfg, c, xs).value, ys)
  {
    if ys == [] {
      assert xs + ys == xs;
    } else {
      assert (xs + ys)[..|xs + ys| - 1] == xs + ys[..|ys| - 1];
      RunConcat(cfg, c, xs, ys[..|ys| - 1]);
    }
  }

  /** The Update of line 129, which comes after the Enqueue. */
  predicate IsStaleWrite(e: Event) {
    e.Act? && e.action.StaleUpdate?
  }

  /** The rate-limited branch of `Process` as one step: no Enqueue whose Update comes later. */
  predicate AtomicRequeue(e: Event) {
    !(e.Act? && (e.action.Requeue? || e.action.StaleUpdate?))
  }

  /** No storage, queue or limiter error, and nobody crashes. */
  predicate FaultFree(e: Event) {
    e.Act? ==>
      match e.action
      case MarkQueued(ok) => ok
      case Publish(ok) => ok
      case Fetch(ok) => ok
      case MarkProcessing(ok) => ok
      case AskLimiter(verdict) => verdict != Error
      case Requeue(ok) => ok
      case StaleUpdate(ok) => ok
      case LogAttempt(ok) => ok
      case WriteDelivered(ok) => ok
      case WriteFailed(_, ok) => ok
      case Bury(ok) => ok
      case Crash => false
      case _ => true
  }

  /** A call that fails, and a crash, which can come at any moment, change nothing that is shared. */
  lemma {:induction false} FaultsChangeNothing(cfg: Config, c: Cell, i: nat, a: Action)
    requires i < |c.hands|
    ensures !c.hands[i].Done? ==> Step(cfg, c, Act(i, Crash)) == Some(Cell(c.store, c.hands[i := Done]))
    ensures Step(cfg, c, Act(i, a)).Some? && !FaultFree(Act(i, a)) ==>
      Step(cfg, c, Act(i, a)).value.store == c.store
  {
  }

  /** The one-step branch is the two calls of lines 121 and 129 back to back, so every run with it is
      a run of the finest grain. */
  lemma AtomicRequeueIsTwoCalls(cfg: Config, c: Cell, i: nat)
    requires i < |c.hands| && c.hands[i].Denied?
    ensures Run(cfg, c, [Act(i, Requeue(true)), Act(i, StaleUpdate(true))]) == Step(cfg, c, Act(i, RequeueAtOnce))
  {
    var first, second := Act(i, Requeue(true)), Act(i, StaleUpdate(true));
    assert [first][..0] == [] && [first, second][..1] == [first];
    assert Run(cfg, c, [first]) == Step(cfg, c, first);
    assert c.hands[i := Stale(c.hands[i].copy)][i := Done] == c.hands[i := Done];
  }
}

/** At most one successful send, at the finest grain and with every fault allowed. */
module AtMostOnce {
  import opened Domain
  import opened Lifecycle

  /** An actor that may still send, or still make the notification sendable. */
  predicate HasToken(h: Hand) {
    match h
    case Stale(_) => false
    case Answered(_, success) => !success
    case Delivering(_) => false
    case Burying => false
    case Done => false
    case _ => true
  }

  function Count(p: Hand -> bool, hands: seq<Hand>): nat {
    if hands == [] then 0
    else Count(p, hands[..|hands| - 1]) + if p(hands[|hands| - 1]) then 1 else 0
  }

  lemma {:induction false} CountAppend(p: Hand -> bool, hands: seq<Hand>, h: Hand)
    ensures Count(p, hands + [h]) == Count(p, hands) + if p(h) then 1 else 0
  {
    assert (hands + [h])[..|hands|] == hands;
  }

  lemma {:induction false} CountReplace(p: Hand -> bool, hands: seq<Hand>, i: nat, h: Hand)
    requires i < |hands|
    ensures Count(p, hands[i := h]) + (if p(hands[i]) then 1 else 0) == Count(p, hands) + if p(h) then 1 else 0
  {
    var front := hands[..|hands| - 1];
    if i == |front| {
      assert hands[i := h][..|front|] == front;
    } else {
      assert hands[i := h][..|front|] == front[i := h];
      CountReplace(p, front, i, h);
    }
  }

  lemma {:induction false} CountArrivals(p: Hand -> bool, hands: seq<Hand>, arrivals: seq<Hand>)
    requires |arrivals| <= 1
    ensures Count(p, hands + arrivals) == Count(p, hands) + Count(p, arrivals) && Count(p, arrivals) <= |arrivals|
  {
    if arrivals == [] {
      assert hands + arrivals == hands;
    } else {
      assert arrivals == [arrivals[0]] && [] + arrivals == arrivals;
      CountAppend(p, hands, arrivals[0]);
      CountAppend(p, [], arrivals[0]);
    }
  }

  /** A row waiting for one of the two pollers. */
  predicate Parked(s: Store) {
    s.row.Some? && (s.row.value.status == Status.Scheduled || s.row.value.status == Failed)
  }

  function One(b: bool): nat {
    if b then 1 else 0
  }

  function StoreTokens(s: Store): nat {
    One(Parked(s)) + One(s.queued)
  }

  function Tokens(c: Cell): nat {
    StoreTokens(c.store) + Count(HasToken, c.hands)
  }

  /** No call of any actor creates a token: it moves, is spent on a successful send, or is lost. */
  lemma MoveKeepsTokens(cfg: Config, s: Store, h: Hand, a: Action)
    requires Move(cfg, s, h, a).Some?
    ensures var (s', h') := Move(cfg, s, h, a).value;
      && StoreTokens(s') + One(HasToken(h')) + s'.sent <= StoreTokens(s) + One(HasToken(h)) + s.sent
      && (s.row.Some? ==> s'.row.Some?)
  {
  }

  predicate Fresh(c: Cell) {
    c.store.row.None? ==> c.store.sent == 0 && !c.store.queued && c.hands == []
  }

  /** A call that is no actor's adds at most one actor; everything else it does, it does to the store. */
  lemma {:induction false} Arrival(cfg: Config, c: Cell, e: Event)
    requires !e.Act?
    ensures var alone := Step(cfg, Cell(c.store, []), e);
      && (Step(cfg, c, e).Some? <==> alone.Some?)
      && (alone.Some? ==>
        && Step(cfg, c, e).value.store == alone.value.store
        && Step(cfg, c, e).value.hands == c.hands + alone.value.hands
        && (alone.value.hands == [] || (|alone.value.hands| == 1 &&
            (alone.value.hands[0].Creating? || alone.value.hands[0].Publishing? || alone.value.hands[0].Got?))))
  {
  }

  lemma {:induction false} ArrivalKeepsTokens(cfg: Config, s: Store, e: Event)
    requires !e.Act? && Step(cfg, Cell(s, []), e).Some? && (s.row.None? ==> !s.queued)
    ensures var c := Step(cfg, Cell(s, []), e).value;
      && c.store.row.Some? && c.store.sent == s.sent
      && StoreTokens(c.store) + |c.hands| <= if s.row.Some? then StoreTokens(s) else 1 + One(s.queued)
  {
  }

  lemma {:induction false} ActKeepsTokens(cfg: Config, c: Cell, i: nat, a: Action)
    requires Fresh(c) && Step(cfg, c, Act(i, a)).Some?
    ensures var c' := Step(cfg, c, Act(i, a)).value;
      && c.store.row.Some? && c'.store.row.Some?
      && Tokens(c') + c'.store.sent <= Tokens(c) + c.store.sent
  {
    var (s', h') := Move(cfg, c.store, c.hands[i], a).value;
    MoveKeepsTokens(cfg, c.store, c.hands[i], a);
    CountReplace(HasToken, c.hands, i, h');
  }

  lemma {:induction false} SpawnKeepsTokens(cfg: Config, c: Cell, e: Event)
    requires Fresh(c) && !e.Act? && Step(cfg, c, e).Some?
    ensures var c' := Step(cfg, c, e).value;
      && c'.store.row.Some?
      && Tokens(c') + c'.store.sent <= if c.store.row.Some? then Tokens(c) + c.store.sent else 1
  {
    Arrival(cfg, c, e);
    ArrivalKeepsTokens(cfg, c.store, e);
    CountArrivals(HasToken, c.hands, Step(cfg, Cell(c.store, []), e).value.hands);
  }

  lemma {:induction false} StepKeepsTokens(cfg: Config, c: Cell, e: Event)
    requires Fresh(c) && Step(cfg, c, e).Some?
    ensures var c' := Step(cfg, c, e).value;
      && Fresh(c')
      && (c.store.row.Some? ==> Tokens(c') + c'.store.sent <= Tokens(c) + c.store.sent)
      && (c.store.row.None? ==> Tokens(c') + c'.store.sent <= 1)
  {
    if e.Act? {
      ActKeepsTokens(cfg, c, e.actor, e.action);
    } else {
      SpawnKeepsTokens(cfg, c, e);
    }
  }

  /** The invariant: tokens and successful sends together never exceed one. */
  lemma {:induction false} OneToken(cfg: Config, events: seq<Event>)
    requires Run(cfg, EMPTY, events).Some?
    ensures var c := Run(cfg, EMPTY, events).value; Fresh(c) && Tokens(c) + c.store.sent <= 1
  {
    if events != [] {
      OneToken(cfg, events[..|events| - 1]);
      StepKeepsTokens(cfg, Run(cfg, EMPTY, events[..|events| - 1]).value, events[|events| - 1]);
    }
  }

  /** In every run of any number of creates, cancels, pollers and workers, faults and crashes
      included, the provider reports success at most once, and nobody may send after it did. */
  lemma {:induction false} SentAtMostOnce(cfg: Config, events: seq<Event>)
    requires Run(cfg, EMPTY, events).Some?
    ensures var c := Run(cfg, EMPTY, events).value;
      && c.store.sent <= 1
      && (c.store.sent == 1 ==> forall i :: 0 <= i < |c.hands| ==> !c.hands[i].Sending?)
      && (forall i, j :: 0 <= i < j < |c.hands| ==> !(c.hands[i].Sending? && c.hands[j].Sending?))
  {
    OneToken(cfg, events);
    var c := Run(cfg, EMPTY, events).value;
    forall i | 0 <= i < |c.hands| && HasToken(c.hands[i]) ensures Count(HasToken, c.hands) >= 1 {
      CountReplace(HasToken, c.hands, i, Done);
    }
    forall i, j | 0 <= i < j < |c.hands| ensures !(c.hands[i].Sending? && c.hands[j].Sending?) {
      if c.hands[i].Sending? && c.hands[j].Sending? {
        CountReplace(HasToken, c.hands, i, Done);
        CountReplace(HasToken, c.hands[i := Done], j, Done);
      }
    }
  }

  /** Parking is for owners: a step that puts the row into a status a poller acts on is its insertion
      or a write by the actor that holds the token. */
  lemma OnlyOwnersPark(cfg: Config, c: Cell, e: Event)
    requires Step(cfg, c, e).Some?
    requires Parked(Step(cfg, c, e).value.store) && !Parked(c.store)
    ensures c.store.row.None? || (e.Act? && e.action.WriteFailed? && HasToken(c.hands[e.actor]))
  {
  }
}
