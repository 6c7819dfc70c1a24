/** The delivery service over its real collaborators: `Process` and `handleRetry` of
    internal/service/delivery.go, and one round of the worker loop of cmd/worker/main.go, with no
    storage faults. Each keeps the books of the protocol in step with the tables. */
module Delivery {
  import opened Domain
  import opened Lifecycle
  import opened WholeCalls
  import Breaker
  import Limiter
  import Queue
  import Backoff

  datatype Error = NotFound | CircuitOpen | OverRate | SendFailed

  /** What the world answers during one call: clock readings, a fresh uuid, the provider, the jitter. */
  datatype World = World(
    breakerClock: int, limiterClock: int, uid: nat, enqueueClock: int,
    sendSucceeds: bool, recordClock: int, retryClock: int, factor: real)

  /** What the worker's select receives. */
  datatype Tick = Stop | DequeueFails | Tick(world: World)

  /** What the world answers in each round up to the first stop. */
  function Worlds(ticks: seq<Tick>): seq<World> {
    if ticks == [] || ticks[0].Stop? then []
    else (if ticks[0].Tick? then [ticks[0].world] else []) + Worlds(ticks[1..])
  }

  lemma {:induction false} WorldsFrom(past: seq<World>, ticks: seq<Tick>, i: nat)
    requires i < |ticks| && !ticks[i].Stop?
    ensures past + Worlds(ticks[i..])
         == (if ticks[i].Tick? then past + [ticks[i].world] else past) + Worlds(ticks[i + 1..])
  {
    assert ticks[i..][1..] == ticks[i + 1..];
  }

  function AttemptsOf(table: seq<(Id, Attempt)>, id: Id): seq<Attempt> {
    if table == [] then []
    else
      var earlier, last := AttemptsOf(table[..|table| - 1], id), table[|table| - 1];
      if last.0 == id then earlier + [last.1] else earlier
  }

  lemma {:induction false} AttemptsAppend(table: seq<(Id, Attempt)>, id: Id, a: Attempt)
    ensures AttemptsOf(table + [(id, a)], id) == AttemptsOf(table, id) + [a]
    ensures forall other :: other != id ==> AttemptsOf(table + [(id, a)], other) == AttemptsOf(table, other)
  {
    assert (table + [(id, a)])[..|table|] == table;
  }

  /** The database and the sorted sets. */
  datatype Tables = Tables(
    notifications: map<Id, Notification>,
    attempts: seq<(Id, Attempt)>,
    dlq: seq<Id>,
    queues: map<Channel, Queue.Scores>)

  /** `s` is what the tables hold about one notification. */
  predicate Matches(t: Tables, id: Id, s: Store)
    requires id in t.notifications
  {
    var n := t.notifications[id];
    && s.row == Some(n.row)
    && s.attempts == AttemptsOf(t.attempts, id)
    && s.dead == multiset(t.dlq)[id]
    && s.queued == (Queue.MessageOf(id, n) in Queue.Of(t.queues, n.channel))
  }

  ghost predicate Linked(t: Tables, books: map<Id, Store>) {
    forall id :: id in t.notifications ==> id in books && Matches(t, id, books[id])
  }

  /** The tables after one `Process` of `id` with outcome `o`. */
  function Applied(cfg: Config, t: Tables, id: Id, o: Outcome, enqueueClock: int): Tables
    requires id in t.notifications
  {
    var n := t.notifications[id];
    var atLimit := n.row.retryCount + 1 >= cfg.maxRetries;
    match o
    case BreakerOpen(at) =>
      t.(notifications := t.notifications[id := n.(row := Failure(cfg, n.row, at))],
         dlq := if atLimit then t.dlq + [id] else t.dlq)
    case RateLimited =>
      t.(notifications := t.notifications[id := n.(row := n.row.(status := Status.Queued))],
         queues := Queue.Added(t.queues, Queue.MessageOf(id, n), enqueueClock))
    case Accepted =>
      t.(notifications := t.notifications[id := n.(row := n.row.(status := Delivered))],
         attempts := t.attempts + [(id, Attempt(n.row.retryCount + 1, true))])
    case Refused(at) =>
      t.(notifications := t.notifications[id := n.(row := Failure(cfg, n.row, at))],
         attempts := t.attempts + [(id, Attempt(n.row.retryCount + 1, false))],
         dlq := if atLimit then t.dlq + [id] else t.dlq)
  }

  lemma {:induction false} AppliedToOthers(
    cfg: Config, t: Tables, id: Id, o: Outcome, enqueueClock: int, other: Id, s: Store)
    requires id in t.notifications && other in t.notifications && other != id
    requires Matches(t, other, s)
    ensures Matches(Applied(cfg, t, id, o, enqueueClock), other, s)
  {
    AttemptsAppend(t.attempts, id, Attempt(t.notifications[id].row.retryCount + 1, o.Accepted?));
  }

  lemma {:induction false} AppliedToSelf(cfg: Config, t: Tables, id: Id, o: Outcome, enqueueClock: int, s: Store)
    requires id in t.notifications && !t.notifications[id].row.status.IsFinal()
    requires Matches(t, id, s)
    ensures Matches(Applied(cfg, t, id, o, enqueueClock), id, Settle(cfg, s, o))
  {
    AttemptsAppend(t.attempts, id, Attempt(t.notifications[id].row.retryCount + 1, o.Accepted?));
  }

  function Mark(t: Tables, id: Id, status: Status): Tables
    requires id in t.notifications
  {
    var n := t.notifications[id];
    t.(notifications := t.notifications[id := n.(row := n.row.(status := status))])
  }

  function BooksAfter(cfg: Config, books: map<Id, Store>, id: Id, o: Outcome): map<Id, Store> {
    if id in books then books[id := Settle(cfg, books[id], o)] else books
  }

  /** That the row is first marked as processing leaves no trace. */
  lemma {:induction false} AppliedAfterMark(cfg: Config, t: Tables, id: Id, o: Outcome, enqueueClock: int)
    requires id in t.notifications
    ensures Applied(cfg, Mark(t, id, Processing), id, o, enqueueClock) == Applied(cfg, t, id, o, enqueueClock)
  {
    var after := Applied(cfg, t, id, o, enqueueClock).notifications[id];
    assert Mark(t, id, Processing).notifications[id := after] == t.notifications[id := after];
  }

  /** On the tables, one call is `Settle` for its notification and nothing for any other. */
  lemma {:induction false} AppliedIsSettle(
    cfg: Config, t: Tables, books: map<Id, Store>, id: Id, o: Outcome, enqueueClock: int)
    requires Linked(t, books) && id in t.notifications && !t.notifications[id].row.status.IsFinal()
    ensures Linked(Applied(cfg, t, id, o, enqueueClock), BooksAfter(cfg, books, id, o))
  {
    var t', books' := Applied(cfg, t, id, o, enqueueClock), BooksAfter(cfg, books, id, o);
    forall other | other in t'.notifications ensures other in books' && Matches(t', other, books'[other]) {
      if other == id {
        AppliedToSelf(cfg, t, id, o, enqueueClock, books[id]);
      } else {
        AppliedToOthers(cfg, t, id, o, enqueueClock, other, books[other]);
      }
    }
  }

  /** A row that `Process` goes on with. */
  ghost predicate Deliverable(rows: map<Id, Notification>, id: Id) {
    id in rows && rows[id].row.status !in {Delivered, Failed, Cancelled}
  }

  /** What a call that answers `err` leaves in the tables: the row, the attempt, the dead letter, the message. */
  function Left(maxRetries: int, t: Tables, id: Id, err: Option<Error>, retryAt: int, enqueueClock: int): Tables
    requires id in t.notifications
  {
    var n := t.notifications[id];
    var row, retries := n.row, n.row.retryCount + 1;
    var m, q := Queue.Message(id, n.channel, n.priority), Queue.Of(t.queues, n.channel);
    var nextRetryAt := if retries >= maxRetries then row.nextRetryAt else Some(retryAt);
    match err
    case None =>
      t.(notifications := t.notifications[id := n.(row := row.(status := Delivered))],
         attempts := t.attempts + [(id, Attempt(retries, true))])
    case Some(OverRate) =>
      t.(notifications := t.notifications[id := n.(row := row.(status := Status.Queued))],
         queues := t.queues[n.channel := q[m := n.priority * 10_000_000_000_000 + enqueueClock]])
    case Some(e) =>
      var row' := row.(status := Failed, retryCount := retries, nextRetryAt := nextRetryAt);
      t.(notifications := t.notifications[id := n.(row := row')],
         attempts := if e == SendFailed then t.attempts + [(id, Attempt(retries, false))] else t.attempts,
         dlq := if retries >= maxRetries then t.dlq + [id] else t.dlq)
  }

  lemma {:induction false} AppliedIsLeft(cfg: Config, t: Tables, id: Id, o: Outcome, retryAt: int, enqueueClock: int)
    requires id in t.notifications
    requires match o case BreakerOpen(at) => at == retryAt case Refused(at) => at == retryAt case _ => true
    ensures Applied(cfg, t, id, o, enqueueClock)
         == Left(cfg.maxRetries, t, id, DeliveryService.ErrorOf(o), retryAt, enqueueClock)
  {
  }

  /** The event that follows the one about processing. */
  function Told(err: Option<Error>, id: Id): seq<(Id, Status)> {
    if err == Some(OverRate) then [] else if err.None? then [(id, Delivered)] else [(id, Failed)]
  }

  /** What a channel has to itself: its breaker, with its history, and its rate window. */
  datatype Side = Side(cfg: Breaker.Config, breaker: Breaker.Value, history: seq<Breaker.Call>, window: Limiter.Window)

  /** How an open or a half-open breaker refuses a call. */
  predicate Shut(cfg: Breaker.Config, b: Breaker.Value, now: int) {
    || (b.state == Breaker.Open && now - b.lastFailure <= cfg.resetTimeout)
    || (b.state == Breaker.HalfOpen && b.halfOpenCount >= cfg.halfOpenMax)
  }

  /** What the breaker is told once it was asked: nothing at all when the limiter denies the call. */
  function Report(err: Option<Error>, w: World): seq<Breaker.Call> {
    if err.None? then [Breaker.SuccessAt(w.recordClock)]
    else if err == Some(SendFailed) then [Breaker.FailureAt(w.recordClock)]
    else []
  }

  /** The answer of a call, and what it leaves of its channel's own side: the breaker is asked first, and only then
      the window of the last second, and only then the provider. */
  ghost predicate Decides(limitPerSec: nat, x: Side, w: World, err: Option<Error>, x': Side) {
    var recent := Limiter.Recent(x.window, w.limiterClock);
    && x'.cfg == x.cfg
    && x'.history == x.history + [Breaker.AllowAt(w.breakerClock)] + Report(err, w)
    && if Shut(x.cfg, x.breaker, w.breakerClock) then err == Some(CircuitOpen) && x'.window == x.window
       else if |recent| >= limitPerSec then err == Some(OverRate) && x'.window.members == recent
       else
         && err == (if w.sendSucceeds then None else Some(SendFailed))
         && x'.window.members == recent[w.uid := w.limiterClock]
  }

  /** Everything a call may change, but for the protocol's books. */
  datatype View = View(tables: Tables, published: seq<(Id, Status)>, delivered: nat, failed: nat, sends: nat,
                       sms: Side, email: Side, push: Side)

  /** The pop takes the message out of the queue, and off the books of its notification. */
  function Popped(t: Tables, channel: Channel, m: Queue.Message): Tables {
    t.(queues := t.queues[channel := Queue.Of(t.queues, channel) - {m}])
  }

  /** One entry of the notification has left the processing set. */
  ghost predicate Acknowledged(before: set<Queue.Message>, id: Id, after: set<Queue.Message>) {
    exists x :: x in before && x.id == id && after == before - {x}
  }

  function PoppedBooks(t: Tables, books: map<Id, Store>, m: Queue.Message): map<Id, Store> {
    if m.id in books && m.id in t.notifications && m == Queue.MessageOf(m.id, t.notifications[m.id])
    then books[m.id := books[m.id].(queued := false)] else books
  }

  lemma {:induction false} PoppedIsLinked(t: Tables, books: map<Id, Store>, channel: Channel, m: Queue.Message)
    requires Linked(t, books) && m.channel == channel
    ensures Linked(Popped(t, channel, m), PoppedBooks(t, books, m))
  {
    var t', books' := Popped(t, channel, m), PoppedBooks(t, books, m);
    forall id | id in t'.notifications ensures id in books' && Matches(t', id, books'[id]) {
      assert Matches(t, id, books[id]);
    }
  }

  lemma {:induction false} PoppedKeepsHomed(t: Tables, channel: Channel, m: Queue.Message)
    requires Queue.Homed(t.notifications, t.queues)
    ensures Queue.Homed(t.notifications, Popped(t, channel, m).queues)
  {
    var t' := Popped(t, channel, m);
    forall c: Channel, x: Queue.Message | x in Queue.Of(t'.queues, c) ensures x in Queue.Of(t.queues, c) {
    }
  }

  lemma {:induction false} LeftKeepsHomed(
    maxRetries: int, t: Tables, id: Id, err: Option<Error>, retryAt: int, enqueueClock: int)
    requires id in t.notifications && Queue.Homed(t.notifications, t.queues)
    ensures var t' := Left(maxRetries, t, id, err, retryAt, enqueueClock); Queue.Homed(t'.notifications, t'.queues)
  {
    var t' := Left(maxRetries, t, id, err, retryAt, enqueueClock);
    forall c: Channel, m: Queue.Message | m in Queue.Of(t'.queues, c) && m.id in t'.notifications
      ensures t'.notifications[m.id].channel == c
    {
      if m !in Queue.Of(t.queues, c) {
        assert m == Queue.Message(id, t.notifications[id].channel, t.notifications[id].priority);
      }
    }
  }

  /** The books over a database in which nothing was attempted yet. */
  function FirstBooks(notifications: map<Id, Notification>, queues: map<Channel, Queue.Scores>): map<Id, Store> {
    map id | id in notifications ::
      EMPTY_STORE.(row := Some(notifications[id].row),
                   queued := Queue.MessageOf(id, notifications[id]) in Queue.Of(queues, notifications[id].channel))
  }

  lemma {:induction false} FirstBooksAreLinked(notifications: map<Id, Notification>, queues: map<Channel, Queue.Scores>)
    ensures Linked(Tables(notifications, [], [], queues), FirstBooks(notifications, queues))
  {
  }

  class DeliveryService {
    const cfg: Config
    const baseDelay: int
    const maxDelay: int
    const sms: Breaker.CircuitBreaker
    const email: Breaker.CircuitBreaker
    const push: Breaker.CircuitBreaker
    const limiter: Limiter.Limiter
    const queue: Queue.RedisQueue

    var notifications: map<Id, Notification>
    var attempts: seq<(Id, Attempt)>
    var dlq: seq<Id>
    var published: seq<(Id, Status)>
    var delivered: nat
    var failed: nat
    var processed: nat

    /** Provider calls made, and the protocol's view of each notification. */
    ghost var sends: nat
    ghost var books: map<Id, Store>

    function BreakerOf(channel: Channel): Breaker.CircuitBreaker {
      match channel
      case SMS => sms
      case Email => email
      case Push => push
    }

    function Contents(): Tables
      reads this, queue
    {
      Tables(notifications, attempts, dlq, queue.queues)
    }

    ghost function SideOf(channel: Channel, breaker: Breaker.CircuitBreaker): Side
      reads breaker, limiter
    {
      Side(breaker.cfg, breaker.Contents(), breaker.history, limiter.Key(channel))
    }

    ghost function Snapshot(): View
      reads this, sms, email, push, limiter, queue
    {
      View(Contents(), published, delivered, failed, sends,
           SideOf(SMS, sms), SideOf(Email, email), SideOf(Push, push))
    }

    /** Whatever happened, it left the other channels' breakers, histories and rate windows as they were. */
    static ghost predicate KeepsOtherSides(channel: Channel, v: View, v': View) {
      && (channel != SMS ==> v'.sms == v.sms)
      && (channel != Email ==> v'.email == v.email)
      && (channel != Push ==> v'.push == v.push)
    }

    /** The channel alone decides which side is asked; the other two stay as they are. */
    ghost predicate AsksOwnSide(channel: Channel, v: View, w: World, err: Option<Error>, v': View) {
      && KeepsOtherSides(channel, v, v')
      && (channel == SMS ==> Decides(limiter.limitPerSec, v.sms, w, err, v'.sms))
      && (channel == Email ==> Decides(limiter.limitPerSec, v.email, w, err, v'.email))
      && (channel == Push ==> Decides(limiter.limitPerSec, v.push, w, err, v'.push))
    }

    /** What a call does to a deliverable notification. */
    ghost predicate Processed(v: View, id: Id, w: World, err: Option<Error>, v': View)
      requires id in v.tables.notifications
    {
      var n := v.tables.notifications[id];
      var retries := n.row.retryCount + 1;
      var retryAt := w.retryClock + Backoff.Jitter(Backoff.Delay(baseDelay, maxDelay, retries), w.factor);
      && AsksOwnSide(n.channel, v, w, err, v')
      && v'.tables == Left(cfg.maxRetries, v.tables, id, err, retryAt, w.enqueueClock)
      && Adds(v, id, err, v')
    }

    static ghost function PoppedView(v: View, channel: Channel, m: Queue.Message): View {
      v.(tables := Popped(v.tables, channel, m))
    }

    /** One round on `m`: the pop, and `Process` unless the row is missing or final. */
    ghost predicate RoundOn(channel: Channel, m: Queue.Message, v: View, w: World, v': View) {
      var popped := PoppedView(v, channel, m);
      if Deliverable(v.tables.notifications, m.id) then exists err :: Processed(popped, m.id, w, err, v')
      else v' == popped
    }

    /** One round of a worker: nothing if its queue is empty, and otherwise the first message is handled. */
    ghost predicate Rounded(channel: Channel, v: View, w: World, v': View) {
      var q := Queue.Of(v.tables.queues, channel);
      if q == map[] then v' == v
      else exists m :: Queue.IsFirst(q, m) && RoundOn(channel, m, v, w, v')
    }

    lemma {:induction false} HandledIsRound(
      channel: Channel, m: Queue.Message, v: View, w: World, err: Option<Error>, v': View)
      requires Queue.IsFirst(Queue.Of(v.tables.queues, channel), m)
      requires if Deliverable(v.tables.notifications, m.id) then Processed(PoppedView(v, channel, m), m.id, w, err, v')
               else v' == PoppedView(v, channel, m)
      ensures Rounded(channel, v, w, v')
    {
      assert RoundOn(channel, m, v, w, v');
    }

    /** `trace` leads through one round for each of `worlds`. */
    ghost predicate RunsThrough(channel: Channel, trace: seq<View>, worlds: seq<World>) {
      && |trace| == |worlds| + 1
      && forall k :: 0 <= k < |worlds| ==> Rounded(channel, trace[k], worlds[k], trace[k + 1])
    }

    static ghost predicate Homed(v: View) {
      Queue.Homed(v.tables.notifications, v.tables.queues)
    }

    lemma {:induction false} ProcessedKeepsHomed(v: View, id: Id, w: World, err: Option<Error>, v': View)
      requires id in v.tables.notifications && Homed(v) && Processed(v, id, w, err, v')
      ensures Homed(v') && KeepsOtherSides(v.tables.notifications[id].channel, v, v')
    {
      var retries := v.tables.notifications[id].row.retryCount + 1;
      var retryAt := w.retryClock + Backoff.Jitter(Backoff.Delay(baseDelay, maxDelay, retries), w.factor);
      LeftKeepsHomed(cfg.maxRetries, v.tables, id, err, retryAt, w.enqueueClock);
    }

    lemma {:induction false} RoundKeepsOthers(channel: Channel, v: View, w: World, v': View)
      requires Homed(v) && Rounded(channel, v, w, v')
      ensures Homed(v') && KeepsOtherSides(channel, v, v')
    {
      var q := Queue.Of(v.tables.queues, channel);
      if q != map[] {
        var m :| Queue.IsFirst(q, m) && RoundOn(channel, m, v, w, v');
        var popped := PoppedView(v, channel, m);
        PoppedKeepsHomed(v.tables, channel, m);
        if Deliverable(v.tables.notifications, m.id) {
          var err :| Processed(popped, m.id, w, err, v');
          ProcessedKeepsHomed(popped, m.id, w, err, v');
          assert m in Queue.Of(v.tables.queues, channel);
        }
      }
    }

    lemma {:induction false} TraceGrows(channel: Channel, trace: seq<View>, worlds: seq<World>, w: World, v: View)
      requires RunsThrough(channel, trace, worlds) && Rounded(channel, trace[|worlds|], w, v)
      ensures RunsThrough(channel, trace + [v], worlds + [w])
    {
    }

    /** While every message of a known notification waits in its own channel's queue, a worker of one channel leaves
        the other channels' breakers and rate windows as they are, whatever it meets and for however long it runs. */
    lemma {:induction false} ChannelsAreIsolated(channel: Channel, trace: seq<View>, worlds: seq<World>)
      requires RunsThrough(channel, trace, worlds) && Homed(trace[0])
      ensures Homed(trace[|worlds|]) && KeepsOtherSides(channel, trace[0], trace[|worlds|])
    {
      if worlds != [] {
        var n := |worlds| - 1;
        ChannelsAreIsolated(channel, trace[..n + 1], worlds[..n]);
        RoundKeepsOthers(channel, trace[n], worlds[n], trace[n + 1]);
      }
    }

    /** The events and the metrics. */
    static ghost predicate Adds(v: View, id: Id, err: Option<Error>, v': View) {
      && v'.published == v.published + [(id, Processing)] + Told(err, id)
      && v'.delivered == v.delivered + (if err.None? then 1 else 0)
      && v'.failed == v.failed + (if err == Some(SendFailed) then 1 else 0)
      && v'.sends == v.sends + (if err.None? || err == Some(SendFailed) then 1 else 0)
    }

    static ghost function Recorded(v: View): nat {
      Breaker.Records(v.sms.history) + Breaker.Records(v.email.history) + Breaker.Records(v.push.history)
    }

    ghost function TotalRecords(): nat
      reads sms, email, push
    {
      Breaker.Records(sms.history) + Breaker.Records(email.history) + Breaker.Records(push.history)
    }

    ghost predicate MetricsBalance()
      reads this
    {
      sends == |attempts| == delivered + failed == processed
    }

    /** The ledger: provider calls, attempt rows, metrics and breaker records all agree. */
    ghost predicate LedgerBalances()
      reads this, sms, email, push
    {
      MetricsBalance() && sends == TotalRecords()
    }

    ghost predicate Sound()
      reads sms, email, push, limiter, queue
    {
      && sms != email && sms != push && email != push
      && sms.Valid() && email.Valid() && push.Valid() && limiter.Valid() && queue.Valid()
    }

    ghost predicate Valid()
      reads this, sms, email, push, limiter, queue
    {
      Sound() && LedgerBalances() && Linked(Contents(), books)
    }

    /** NewDeliveryService: a breaker per channel (5 failures, 3 successes, 3 half-open slots, 30 s), over
        a database and a queue in which nothing was attempted yet. */
    constructor (cfg: Config, baseDelay: int, maxDelay: int, limiter: Limiter.Limiter, queue: Queue.RedisQueue,
                 notifications: map<Id, Notification>)
      requires limiter.Valid() && queue.Valid()
      ensures Valid() && Contents() == Tables(notifications, [], [], queue.queues)
      ensures published == [] && delivered == failed == processed == sends == 0
      ensures this.cfg == cfg && this.baseDelay == baseDelay && this.maxDelay == maxDelay
      ensures this.limiter == limiter && this.queue == queue
      ensures sms.history == email.history == push.history == []
      ensures fresh(sms) && fresh(email) && fresh(push)
      ensures sms.cfg == email.cfg == push.cfg == Breaker.Config(5, 3, 3, 30_000_000_000)
    {
      this.cfg, this.baseDelay, this.maxDelay := cfg, baseDelay, maxDelay;
      this.limiter, this.queue := limiter, queue;
      sms := new Breaker.CircuitBreaker(5, 3, 3, 30_000_000_000);
      email := new Breaker.CircuitBreaker(5, 3, 3, 30_000_000_000);
      push := new Breaker.CircuitBreaker(5, 3, 3, 30_000_000_000);
      this.notifications := notifications;
      attempts, dlq, published := [], [], [];
      delivered, failed, processed, sends := 0, 0, 0, 0;
      books := FirstBooks(notifications, queue.queues);
      FirstBooksAreLinked(notifications, queue.queues);
    }

    /** When a failed delivery of `row` is due again. */
    function RetryAt(row: Row, w: World): int {
      w.retryClock + Backoff.Jitter(Backoff.Delay(baseDelay, maxDelay, row.retryCount + 1), w.factor)
    }

    /** How the breaker, the limiter and the provider together decide a call. */
    function Decide(n: Notification, w: World): Outcome
      reads sms, email, push, limiter
    {
      var b := BreakerOf(n.channel);
      if !Breaker.Admits(b.cfg, b.Contents(), w.breakerClock) then BreakerOpen(RetryAt(n.row, w))
      else DecideAdmitted(n, w)
    }

    static function ErrorOf(o: Outcome): Option<Error> {
      match o
      case BreakerOpen(_) => Some(CircuitOpen)
      case RateLimited => Some(OverRate)
      case Accepted => None
      case Refused(_) => Some(SendFailed)
    }

    /** notifRepo.Update */
    method Update(id: Id, n: Notification)
      requires id in notifications
      modifies this`notifications
      ensures var stored := old(notifications)[id];
        notifications == old(notifications)[id := stored.(row := stored.row.(
          status := n.row.status, retryCount := n.row.retryCount, nextRetryAt := n.row.nextRetryAt))]
    {
      notifications := notifications[id := notifications[id].(row := Overwrite(notifications[id].row, n.row))];
    }

    method HandleRetry(id: Id, copy: Notification, w: World)
      requires id in notifications && notifications[id] == copy
      modifies this`notifications, this`dlq, this`published
      ensures notifications == old(notifications)[id := copy.(row := Failure(cfg, copy.row, RetryAt(copy.row, w)))]
      ensures dlq == if copy.row.retryCount + 1 >= cfg.maxRetries then old(dlq) + [id] else old(dlq)
      ensures published == old(published) + [(id, Failed)]
      ensures var retries, row := copy.row.retryCount + 1, notifications[id].row;
        && row.status == Failed && row.retryCount == retries
        && if retries >= cfg.maxRetries then row.nextRetryAt == copy.row.nextRetryAt
           else row.nextRetryAt.Some? && Backoff.WaitsAbout(baseDelay, maxDelay, retries, w.factor,
                                                            row.nextRetryAt.value - w.retryClock)
    {
      var n := copy;
      n := n.(row := n.row.(retryCount := n.row.retryCount + 1));
      if n.row.retryCount >= cfg.maxRetries {
        n := n.(row := n.row.(status := Failed));
        Update(id, n);
        dlq := dlq + [id];
        published := published + [(id, Failed)];
        return;
      }
      var delay := Backoff.NextDelay(baseDelay, maxDelay, n.row.retryCount, w.factor);
      n := n.(row := n.row.(status := Failed, nextRetryAt := Some(w.retryClock + delay)));
      Update(id, n);
      published := published + [(id, Failed)];
    }

    /** The provider call with its attempt row, its breaker record and its metrics. */
    method Send(id: Id, n: Notification, breaker: Breaker.CircuitBreaker, w: World)
      requires breaker.Valid() && MetricsBalance()
      modifies this`attempts, this`sends, this`delivered, this`failed, this`processed, breaker
      ensures breaker.Valid() && breaker.history == old(breaker.history)
        + [if w.sendSucceeds then Breaker.SuccessAt(w.recordClock) else Breaker.FailureAt(w.recordClock)]
      ensures attempts == old(attempts) + [(id, Attempt(n.row.retryCount + 1, w.sendSucceeds))]
      ensures MetricsBalance() && sends == old(sends) + 1
      ensures delivered == old(delivered) + (if w.sendSucceeds then 1 else 0)
      ensures failed == old(failed) + (if w.sendSucceeds then 0 else 1)
    {
      sends := sends + 1;
      var attempt := Attempt(n.row.retryCount + 1, w.sendSucceeds);
      attempts := attempts + [(id, attempt)];
      processed := processed + 1;
      if w.sendSucceeds {
        delivered := delivered + 1;
        breaker.RecordSuccess(w.recordClock);
      } else {
        breaker.RecordFailure(w.recordClock);
        failed := failed + 1;
      }
    }

    /** What a call that answers `err` adds to the metrics. */
    twostate predicate Counted(new err: Option<Error>)
      reads this
    {
      && delivered == old(delivered) + (if err.None? then 1 else 0)
      && failed == old(failed) + (if err == Some(SendFailed) then 1 else 0)
      && sends == old(sends) + (if err.None? || err == Some(SendFailed) then 1 else 0)
    }

    /** The provider's answer to `w` decides between delivered and failed. */
    function Answer(n: Notification, w: World): Outcome {
      if w.sendSucceeds then Accepted else Outcome.Refused(RetryAt(n.row, w))
    }

    /** How a call the breaker let through turns out. */
    function DecideAdmitted(n: Notification, w: World): Outcome
      reads limiter
    {
      if !Limiter.Accepts(limiter.limitPerSec, limiter.windowMs, limiter.Key(n.channel), w.limiterClock)
      then RateLimited
      else Answer(n, w)
    }

    /** `Process` from the provider call on. */
    method Attempted(id: Id, copy: Notification, breaker: Breaker.CircuitBreaker, w: World) returns (err: Option<Error>)
      requires breaker.Valid() && MetricsBalance()
      requires id in notifications && notifications[id] == copy
      modifies this`notifications, this`attempts, this`dlq, this`published, this`delivered, this`failed, this`processed,
               this`sends, breaker
      ensures breaker.Valid() && MetricsBalance()
      ensures var o := Answer(copy, w);
        && err == ErrorOf(o)
        && Contents() == Applied(cfg, old(Contents()), id, o, w.enqueueClock)
        && breaker.history == old(breaker.history) + Report(err, w)
        && published == old(published) + Told(err, id)
      ensures Counted(err) && err == (if w.sendSucceeds then None else Some(SendFailed))
    {
      var n := copy;
      Send(id, n, breaker, w);
      if !w.sendSucceeds {
        HandleRetry(id, n, w);
        return Some(SendFailed);
      }
      n := n.(row := n.row.(status := Delivered));
      Update(id, n);
      published := published + [(id, Delivered)];
      err := None;
    }

    /** `Process` from the rate limit on, for a row marked as processing. */
    method Deliver(id: Id, copy: Notification, breaker: Breaker.CircuitBreaker, w: World) returns (err: Option<Error>)
      requires breaker.Valid() && limiter.Valid() && queue.Valid() && MetricsBalance()
      requires id in notifications && notifications[id] == copy
      modifies this`notifications, this`attempts, this`dlq, this`published, this`delivered, this`failed, this`processed,
               this`sends, breaker, limiter, queue`queues, queue`arrivals
      ensures breaker.Valid() && limiter.Valid() && queue.Valid() && MetricsBalance()
      ensures var o := old(DecideAdmitted(copy, w));
        && err == ErrorOf(o)
        && Contents() == Applied(cfg, old(Contents()), id, o, w.enqueueClock)
        && breaker.history == old(breaker.history) + Report(err, w)
        && published == old(published) + Told(err, id)
      ensures Counted(err)
      ensures forall c: Channel :: c != copy.channel ==> limiter.Key(c) == old(limiter.Key(c))
      ensures var recent := Limiter.Recent(old(limiter.Key(copy.channel)), w.limiterClock);
        if |recent| >= limiter.limitPerSec
        then err == Some(OverRate) && limiter.Key(copy.channel).members == recent
        else
          && err == (if w.sendSucceeds then None else Some(SendFailed))
          && limiter.Key(copy.channel).members == recent[w.uid := w.limiterClock]
    {
      var n := copy;
      var allowed := limiter.Allow(n.channel, w.limiterClock, w.uid);
      if !allowed {
        queue.Enqueue(Queue.MessageOf(id, n), w.enqueueClock);
        n := n.(row := n.row.(status := Status.Queued));
        Update(id, n);
        return Some(OverRate);
      }
      err := Attempted(id, n, breaker, w);
    }

    /** The row is marked as processing, and the breaker asked. */
    method Start(id: Id, n: Notification, breaker: Breaker.CircuitBreaker, w: World) returns (admitted: bool)
      requires breaker.Valid() && id in notifications && notifications[id].(row := n.row) == n
      requires n.row == notifications[id].row.(status := Processing)
      modifies this`notifications, this`published, breaker
      ensures breaker.Valid() && breaker.history == old(breaker.history) + [Breaker.AllowAt(w.breakerClock)]
      ensures admitted == Breaker.Admits(breaker.cfg, old(breaker.Contents()), w.breakerClock)
      ensures admitted == !Shut(breaker.cfg, old(breaker.Contents()), w.breakerClock)
      ensures notifications == old(notifications)[id := n] && published == old(published) + [(id, Processing)]
    {
      Update(id, n);
      published := published + [(id, Processing)];
      admitted := breaker.Allow(w.breakerClock);
    }

    /** `Process` on a row that is not final. */
    method Try(id: Id, breaker: Breaker.CircuitBreaker, w: World) returns (err: Option<Error>)
      requires breaker.Valid() && limiter.Valid() && queue.Valid() && MetricsBalance()
      requires id in notifications && breaker == BreakerOf(notifications[id].channel)
      modifies this`notifications, this`attempts, this`dlq, this`published, this`delivered, this`failed, this`processed,
               this`sends, breaker, limiter, queue`queues, queue`arrivals
      ensures breaker.Valid() && limiter.Valid() && queue.Valid() && MetricsBalance()
      ensures var o := old(Decide(notifications[id], w));
        && err == ErrorOf(o)
        && Contents() == Applied(cfg, Mark(old(Contents()), id, Processing), id, o, w.enqueueClock)
        && breaker.history == old(breaker.history) + [Breaker.AllowAt(w.breakerClock)] + Report(err, w)
        && published == old(published) + [(id, Processing)] + Told(err, id)
      ensures Counted(err)
      ensures forall c: Channel :: c != old(notifications)[id].channel ==> limiter.Key(c) == old(limiter.Key(c))
      ensures var channel := old(notifications)[id].channel;
        Decides(limiter.limitPerSec, old(SideOf(channel, breaker)), w, err, SideOf(channel, breaker))
    {
      var n := notifications[id];
      ghost var o := Decide(n, w);
      n := n.(row := n.row.(status := Processing));
      var admitted := Start(id, n, breaker, w);
      if !admitted {
        HandleRetry(id, n, w);
        err := Some(CircuitOpen);
      } else {
        assert o == DecideAdmitted(n, w);
        err := Deliver(id, n, breaker, w);
      }
    }

    /** The answer and the tables, as the breaker, the limiter and the provider decided. */
    twostate predicate Decided(id: Id, w: World, new err: Option<Error>)
      requires id in old(notifications)
      reads this, sms, email, push, limiter, queue
    {
      var o := old(Decide(notifications[id], w));
      err == ErrorOf(o) && Contents() == Applied(cfg, old(Contents()), id, o, w.enqueueClock)
    }

    /** The same, with the breaker of the notification's channel. */
    method TryOwn(id: Id, w: World) returns (err: Option<Error>)
      requires Sound() && MetricsBalance() && id in notifications
      modifies this`notifications, this`attempts, this`dlq, this`published, this`delivered, this`failed, this`processed,
               this`sends, sms, email, push, limiter, queue`queues, queue`arrivals
      ensures Sound() && MetricsBalance()
      ensures Decided(id, w, err) && published == old(published) + [(id, Processing)] + Told(err, id) && Counted(err)
      ensures AsksOwnSide(old(notifications)[id].channel, old(Snapshot()), w, err, Snapshot())
    {
      AppliedAfterMark(cfg, Contents(), id, Decide(notifications[id], w), w.enqueueClock);
      match notifications[id].channel {
        case SMS => err := Try(id, sms, w);
        case Email => err := Try(id, email, w);
        case Push => err := Try(id, push, w);
      }
    }

    /** The tables in terms of the answer. */
    lemma {:induction false} AnsweredIsProcessed(v: View, id: Id, w: World, o: Outcome, v': View)
      requires id in v.tables.notifications && AsksOwnSide(v.tables.notifications[id].channel, v, w, ErrorOf(o), v')
      requires match o
               case BreakerOpen(at) => at == RetryAt(v.tables.notifications[id].row, w)
               case Refused(at) => at == RetryAt(v.tables.notifications[id].row, w)
               case _ => true
      requires v'.tables == Applied(cfg, v.tables, id, o, w.enqueueClock)
      requires Adds(v, id, ErrorOf(o), v')
      ensures Processed(v, id, w, ErrorOf(o), v')
    {
      AppliedIsLeft(cfg, v.tables, id, o, RetryAt(v.tables.notifications[id].row, w), w.enqueueClock);
    }

    lemma {:induction false} AnsweredIsRecorded(channel: Channel, v: View, w: World, err: Option<Error>, v': View)
      requires AsksOwnSide(channel, v, w, err, v')
      ensures Recorded(v') == Recorded(v) + (if err.None? || err == Some(SendFailed) then 1 else 0)
    {
      var side := match channel case SMS => v.sms case Email => v.email case Push => v.push;
      var asked := side.history + [Breaker.AllowAt(w.breakerClock)];
      Breaker.RecordsAppend(side.history, Breaker.AllowAt(w.breakerClock));
      if err.None? {
        Breaker.RecordsAppend(asked, Breaker.SuccessAt(w.recordClock));
      } else if err == Some(SendFailed) {
        Breaker.RecordsAppend(asked, Breaker.FailureAt(w.recordClock));
      } else {
        assert asked + [] == asked;
      }
    }

    /** The same, with the ledger over all three breakers, and in terms of the answer. */
    method TryBalanced(id: Id, w: World) returns (err: Option<Error>)
      requires Sound() && LedgerBalances() && id in notifications
      modifies this`notifications, this`attempts, this`dlq, this`published, this`delivered, this`failed, this`processed,
               this`sends, sms, email, push, limiter, queue`queues, queue`arrivals
      ensures Sound() && LedgerBalances()
      ensures Decided(id, w, err) && Processed(old(Snapshot()), id, w, err, Snapshot())
    {
      err := TryOwn(id, w);
      AnsweredIsRecorded(old(notifications)[id].channel, old(Snapshot()), w, err, Snapshot());
      AnsweredIsProcessed(old(Snapshot()), id, w, old(Decide(notifications[id], w)), Snapshot());
    }

    ghost method BookCall(t: Tables, id: Id, o: Outcome, enqueueClock: int)
      requires Linked(t, books) && id in t.notifications && !t.notifications[id].row.status.IsFinal()
      requires Contents() == Applied(cfg, t, id, o, enqueueClock) && Sound() && LedgerBalances()
      modifies this`books
      ensures books == BooksAfter(cfg, old(books), id, o) && Valid()
      ensures Snapshot() == old(Snapshot())
    {
      AppliedIsSettle(cfg, t, books, id, o, enqueueClock);
      books := BooksAfter(cfg, books, id, o);
    }

    /** `Process` on a row that is not final, with its entry in the books. */
    method TryBooked(id: Id, w: World) returns (err: Option<Error>)
      requires Valid() && Deliverable(notifications, id)
      modifies this, sms, email, push, limiter, queue`queues, queue`arrivals
      ensures Valid()
      ensures Decided(id, w, err) && books == BooksAfter(cfg, old(books), id, old(Decide(notifications[id], w)))
      ensures Processed(old(Snapshot()), id, w, err, Snapshot())
    {
      ghost var o := Decide(notifications[id], w);
      ghost var t := Contents();
      err := TryBalanced(id, w);
      BookCall(t, id, o, w.enqueueClock);
    }

    /** `Process`: the tables change as `Applied` says for the outcome the breaker, the limiter and the
        provider decide, which on the books is `Settle`; the ledger still balances. */
    method Process(id: Id, w: World) returns (err: Option<Error>)
      requires Valid()
      modifies this, sms, email, push, limiter, queue`queues, queue`arrivals
      ensures Valid()
      ensures !old(Deliverable(notifications, id)) ==>
        && err == (if id in old(notifications) then None else Some(NotFound))
        && Snapshot() == old(Snapshot()) && books == old(books)
      ensures old(Deliverable(notifications, id)) ==> Processed(old(Snapshot()), id, w, err, Snapshot())
      ensures old(Deliverable(notifications, id)) ==>
        Decided(id, w, err) && books == BooksAfter(cfg, old(books), id, old(Decide(notifications[id], w)))
    {
      if id !in notifications {
        return Some(NotFound);
      }
      if notifications[id].row.status.IsFinal() {
        return None;
      }
      err := TryBooked(id, w);
    }

    method Pop(channel: Channel) returns (msg: Option<Queue.Message>)
      requires queue.Valid()
      modifies queue
      ensures queue.Valid()
      ensures msg.None? <==> Queue.Of(old(queue.queues), channel) == map[]
      ensures msg.None? ==> queue.queues == old(queue.queues) && queue.processing == old(queue.processing)
      ensures msg.Some? ==>
        && msg.value.channel == channel && Queue.IsFirst(Queue.Of(old(queue.queues), channel), msg.value)
        && Snapshot() == PoppedView(old(Snapshot()), channel, msg.value)
        && queue.Processing(channel) == old(queue.Processing(channel)) + {msg.value}
    {
      msg := queue.Dequeue(channel);
    }

    ghost method BookPop(t: Tables, channel: Channel, m: Queue.Message)
      requires Linked(t, books) && m.channel == channel && Contents() == Popped(t, channel, m)
      modifies this`books
      ensures books == PoppedBooks(t, old(books), m) && Linked(Contents(), books) && Snapshot() == old(Snapshot())
    {
      PoppedIsLinked(t, books, channel, m);
      books := PoppedBooks(t, books, m);
    }

    /** The worker's dequeue. */
    method Take(channel: Channel) returns (msg: Option<Queue.Message>)
      requires Valid()
      modifies this`books, queue
      ensures Valid()
      ensures msg.None? <==> Queue.Of(old(queue.queues), channel) == map[]
      ensures msg.None? ==>
        Snapshot() == old(Snapshot()) && books == old(books) && queue.processing == old(queue.processing)
      ensures msg.Some? ==>
        && Queue.IsFirst(Queue.Of(old(queue.queues), channel), msg.value)
        && Snapshot() == PoppedView(old(Snapshot()), channel, msg.value)
        && books == PoppedBooks(old(Contents()), old(books), msg.value)
        && queue.Processing(channel) == old(queue.Processing(channel)) + {msg.value}
    {
      ghost var t := Contents();
      msg := Pop(channel);
      if msg.Some? {
        BookPop(t, channel, msg.value);
      }
    }

    /** The worker's acknowledgement touches the processing set alone. */
    method Finish(channel: Channel, m: Queue.Message)
      requires Valid() && m in queue.Processing(channel)
      modifies queue`processing
      ensures Valid() && Snapshot() == old(Snapshot())
      ensures Acknowledged(old(queue.Processing(channel)), m.id, queue.Processing(channel))
    {
      queue.Acknowledge(channel, m.id);
    }

    /** Process and acknowledge. */
    method Handle(channel: Channel, m: Queue.Message, w: World) returns (err: Option<Error>)
      requires Valid() && m in queue.Processing(channel)
      modifies this, sms, email, push, limiter, queue
      ensures Valid()
      ensures !old(Deliverable(notifications, m.id)) ==> Snapshot() == old(Snapshot()) && books == old(books)
      ensures old(Deliverable(notifications, m.id)) ==>
        && Processed(old(Snapshot()), m.id, w, err, Snapshot())
        && books == BooksAfter(cfg, old(books), m.id, old(Decide(notifications[m.id], w)))
      ensures Acknowledged(old(queue.Processing(channel)), m.id, queue.Processing(channel))
    {
      ghost var processing := queue.Processing(channel);
      err := Process(m.id, w);
      assert queue.Processing(channel) == processing;
      Finish(channel, m);
    }

    /** One round of runWorker: dequeue, process, acknowledge. */
    method WorkerRound(channel: Channel, w: World) returns (msg: Option<Queue.Message>)
      requires Valid()
      modifies this, sms, email, push, limiter, queue
      ensures Valid() && Rounded(channel, old(Snapshot()), w, Snapshot())
      ensures msg.None? ==> books == old(books) && queue.processing == old(queue.processing)
      ensures msg.Some? ==>
        var popped := PoppedBooks(old(Contents()), old(books), msg.value);
        books == if old(Deliverable(notifications, msg.value.id))
                 then BooksAfter(cfg, popped, msg.value.id, old(Decide(notifications[msg.value.id], w))) else popped
      ensures msg.Some? ==>
        Acknowledged(old(queue.Processing(channel)) + {msg.value}, msg.value.id, queue.Processing(channel))
    {
      msg := Take(channel);
      if msg.None? {
        return;
      }
      var id := msg.value.id;
      if Deliverable(notifications, id) {
        assert Decide(notifications[id], w) == old(Decide(notifications[id], w));
      }
      var err := Handle(channel, msg.value, w);
      HandledIsRound(channel, msg.value, old(Snapshot()), w, err, Snapshot());
    }

    /** runWorker: a round at every tick, until it is told to stop; a failed dequeue is logged. However many rounds
        there were, the ledger balances and the books match the tables. */
    method RunWorker(channel: Channel, ticks: seq<Tick>) returns (rounds: nat, ghost trace: seq<View>)
      requires Valid()
      modifies this, sms, email, push, limiter, queue
      ensures Valid() && rounds == |Worlds(ticks)| && RunsThrough(channel, trace, Worlds(ticks))
      ensures trace[0] == old(Snapshot()) && trace[rounds] == Snapshot()
      ensures Homed(old(Snapshot())) ==> Homed(Snapshot()) && KeepsOtherSides(channel, old(Snapshot()), Snapshot())
    {
      rounds, trace := 0, [Snapshot()];
      var i := 0;
      ghost var past: seq<World> := [];
      while i < |ticks| && !ticks[i].Stop?
        invariant 0 <= i <= |ticks| && Valid() && past + Worlds(ticks[i..]) == Worlds(ticks)
        invariant rounds == |past| && RunsThrough(channel, trace, past)
        invariant trace[0] == old(Snapshot()) && trace[rounds] == Snapshot()
      {
        WorldsFrom(past, ticks, i);
        if ticks[i].Tick? {
          var msg := WorkerRound(channel, ticks[i].world);
          TraceGrows(channel, trace, past, ticks[i].world, Snapshot());
          trace, past, rounds := trace + [Snapshot()], past + [ticks[i].world], rounds + 1;
        }
        i := i + 1;
      }
      assert past + [] == past;
      if Homed(trace[0]) {
        ChannelsAreIsolated(channel, trace, past);
      }
    }
  }
}
