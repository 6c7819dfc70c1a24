/** Creating and cancelling notifications: internal/service/notification.go over the statements of
    internal/adapter/repository/postgres/notification.go. */
module Creation {
  import opened Domain

  datatype Error = InvalidChannel | EmptyContent | ContentTooLong | ScheduleInPast | BatchTooLarge
                 | NotFound | CannotCancel | TemplateNotFound | TemplateInactive | TemplateRender | Storage

  datatype Result<+T> = Ok(value: T) | Err(error: Error)

  datatype Request = Request(
    channel: string, content: seq<bv8>, priority: string, scheduledAt: Option<int>, key: Option<string>)

  type Rows = map<Id, Notification>

  function ParseChannel(s: string): Option<Channel> {
    if s == "sms" then Some(SMS) else if s == "email" then Some(Email) else if s == "push" then Some(Push) else None
  }

  function ParsePriority(s: string): nat {
    if s == "high" then 0 else if s == "low" then 2 else 1
  }

  function ContentLimit(channel: Channel): nat {
    match channel
    case SMS => 1600
    case Push => 4096
    case Email => 100000
  }

  /** The channel of a valid request, or what is wrong with it. */
  function Check(req: Request): Result<Channel> {
    match ParseChannel(req.channel)
    case None => Err(InvalidChannel)
    case Some(channel) =>
      if req.content == [] then Err(EmptyContent)
      else if |req.content| > ContentLimit(channel) then Err(ContentTooLong)
      else Ok(channel)
  }

  /** What a valid request looks like, and why any other is refused. */
  lemma {:induction false} ValidRequests(req: Request)
    ensures Check(req) == Ok(SMS) <==> req.channel == "sms" && 1 <= |req.content| <= 1600
    ensures Check(req) == Ok(Push) <==> req.channel == "push" && 1 <= |req.content| <= 4096
    ensures Check(req) == Ok(Email) <==> req.channel == "email" && 1 <= |req.content| <= 100_000
    ensures Check(req) == Err(InvalidChannel) <==> req.channel !in {"sms", "email", "push"}
    ensures Check(req) == Err(EmptyContent) <==> req.channel in {"sms", "email", "push"} && req.content == []
    ensures Check(req) == Err(ContentTooLong) <==>
      && (req.channel == "sms" || req.channel == "push" || req.channel == "email")
      && |req.content| > (if req.channel == "sms" then 1600 else if req.channel == "push" then 4096 else 100_000)
  {
  }

  /** A new row carries what its request asked for. */
  ghost predicate Carries(n: Notification, req: Request) {
    && n.key == req.key
    && (n.channel == SMS <==> req.channel == "sms")
    && (n.channel == Email <==> req.channel == "email")
    && (n.channel == Push <==> req.channel == "push")
    && n.priority == (if req.priority == "high" then 0 else if req.priority == "low" then 2 else 1)
    && n.row.retryCount == 0 && n.row.maxRetries == 3 && n.row.nextRetryAt.None?
    && n.row.scheduledAt == (if n.row.status == Scheduled then req.scheduledAt else None)
  }

  predicate KeepsKeys(rows: Rows, rows': Rows) {
    forall id :: id in rows ==> id in rows' && rows'[id].key == rows[id].key
  }

  function NewNotification(req: Request, channel: Channel, batch: Option<Id>, status: Status): Notification {
    Notification(req.key, batch, channel, ParsePriority(req.priority),
          Row(status, 0, DEFAULT_MAX_RETRIES, if status == Scheduled then req.scheduledAt else None, None))
  }

  lemma {:induction false} CarriesRequest(req: Request, channel: Channel, batch: Option<Id>, status: Status)
    requires ParseChannel(req.channel) == Some(channel)
    ensures Carries(NewNotification(req, channel, batch, status), req)
  {
  }

  // ---- the table and its constraints ----

  predicate KeyTaken(rows: Rows, key: Option<string>) {
    key.Some? && exists id :: id in rows && rows[id].key == key
  }

  /** PRIMARY KEY and UNIQUE: an INSERT that breaks one of them fails. */
  predicate Violates(rows: Rows, id: Id, e: Notification) {
    id in rows || KeyTaken(rows, e.key)
  }

  predicate KeysUnique(rows: Rows) {
    forall x, y :: x in rows && y in rows && x != y && rows[x].key.Some? ==> rows[x].key != rows[y].key
  }

  type Draft = (Id, Notification)

  function InsertAll(rows: Rows, drafts: seq<Draft>): Rows {
    if drafts == [] then rows
    else
      var last := drafts[|drafts| - 1];
      InsertAll(rows, drafts[..|drafts| - 1])[last.0 := last.1]
  }

  /** One INSERT after another succeeds. */
  predicate Insertable(rows: Rows, drafts: seq<Draft>) {
    drafts != [] ==>
      var front, last := drafts[..|drafts| - 1], drafts[|drafts| - 1];
      Insertable(rows, front) && !Violates(InsertAll(rows, front), last.0, last.1)
  }

  lemma {:induction false} InsertAllHolds(rows: Rows, drafts: seq<Draft>)
    requires Insertable(rows, drafts)
    ensures forall i :: 0 <= i < |drafts| ==>
      drafts[i].0 in InsertAll(rows, drafts) && InsertAll(rows, drafts)[drafts[i].0] == drafts[i].1
    ensures forall id :: id in rows ==> id in InsertAll(rows, drafts) && InsertAll(rows, drafts)[id] == rows[id]
    ensures forall id :: id in InsertAll(rows, drafts) ==>
      id in rows || exists i :: 0 <= i < |drafts| && drafts[i].0 == id
  {
    if drafts != [] {
      var front := drafts[..|drafts| - 1];
      InsertAllHolds(rows, front);
      forall i | 0 <= i < |drafts|
        ensures drafts[i].0 in InsertAll(rows, drafts) && InsertAll(rows, drafts)[drafts[i].0] == drafts[i].1
      {
        if i < |front| {
          assert front[i] == drafts[i];
        }
      }
      forall id | id in InsertAll(rows, drafts) && id !in rows
        ensures exists i :: 0 <= i < |drafts| && drafts[i].0 == id
      {
        if id != drafts[|drafts| - 1].0 {
          var i :| 0 <= i < |front| && front[i].0 == id;
          assert drafts[i].0 == id;
        }
      }
    }
  }

  predicate Clash(x: Draft, y: Draft) {
    x.0 == y.0 || (x.1.key.Some? && x.1.key == y.1.key)
  }

  /** A batch goes in if and only if no draft clashes with a row or with another draft. */
  lemma {:induction false} InsertableIff(rows: Rows, drafts: seq<Draft>)
    ensures Insertable(rows, drafts) <==>
      && (forall i :: 0 <= i < |drafts| ==> !Violates(rows, drafts[i].0, drafts[i].1))
      && (forall i, j :: 0 <= i < j < |drafts| ==> !Clash(drafts[i], drafts[j]))
  {
    if drafts != [] {
      var front, last := drafts[..|drafts| - 1], drafts[|drafts| - 1];
      InsertableIff(rows, front);
      assert forall i :: 0 <= i < |front| ==> front[i] == drafts[i];
      if Insertable(rows, front) {
        InsertAllHolds(rows, front);
        var rows' := InsertAll(rows, front);
        if !Violates(rows, last.0, last.1) && Violates(rows', last.0, last.1) {
          var id :| id in rows' && id !in rows && (id == last.0 || (last.1.key.Some? && rows'[id].key == last.1.key));
          var i :| 0 <= i < |front| && front[i].0 == id;
          assert Clash(drafts[i], drafts[|drafts| - 1]);
        }
        if i: nat :| i < |front| && Clash(front[i], last) {
          assert rows'[front[i].0] == front[i].1;
        }
      }
    }
  }

  lemma {:induction false} InsertAllKeepsUnique(rows: Rows, drafts: seq<Draft>)
    requires KeysUnique(rows) && Insertable(rows, drafts)
    ensures KeysUnique(InsertAll(rows, drafts))
  {
    if drafts != [] {
      InsertAllKeepsUnique(rows, drafts[..|drafts| - 1]);
    }
  }

  // ---- the two pollers' claims ----

  datatype Poller = SchedulerPoll | RetryPoll

  /** The WHERE clause of the poller's statement. */
  predicate Due(poller: Poller, row: Row, now: int) {
    match poller
    case SchedulerPoll => ScheduledReady(row, now)
    case RetryPoll => RetryReady(row, now)
  }

  /** Its ORDER BY column. */
  function DueAt(poller: Poller, row: Row): Option<int> {
    if poller.SchedulerPoll? then row.scheduledAt else row.nextRetryAt
  }

  predicate NoLater(poller: Poller, x: Row, y: Row) {
    DueAt(poller, x).Some? && DueAt(poller, y).Some? && DueAt(poller, x).value <= DueAt(poller, y).value
  }

  predicate Distinct(ids: seq<Id>) {
    forall i, j :: 0 <= i < j < |ids| ==> ids[i] != ids[j]
  }

  /** What one statement may pick: at most `limit` due rows that nobody has locked, the ones due longest first;
      it leaves a due row behind only if it reached the limit. */
  predicate Picks(rows: Rows, poller: Poller, now: int, locked: set<Id>, limit: nat, picked: seq<Id>) {
    && Distinct(picked) && |picked| <= limit
    && (forall id :: id in picked ==> id in rows && Due(poller, rows[id].row, now) && id !in locked)
    && (forall id :: id in rows && Due(poller, rows[id].row, now) && id !in locked && id !in picked ==>
          |picked| == limit && forall p :: p in picked ==> NoLater(poller, rows[p].row, rows[id].row))
  }

  function Requeued(rows: Rows, picked: seq<Id>): Rows {
    map id | id in rows :: if id in picked then WithStatus(rows[id], Status.Queued) else rows[id]
  }

  /** What GetScheduledReady returns: at most `limit` rows whose time has come, and all of them if fewer. */
  ghost predicate TakesScheduled(rows: Rows, now: int, locked: set<Id>, limit: nat, picked: seq<Id>) {
    && |picked| <= limit
    && (forall id :: id in picked ==>
          id in rows && id !in locked && rows[id].row.status == Scheduled
          && rows[id].row.scheduledAt.Some? && rows[id].row.scheduledAt.value <= now)
    && (|picked| < limit ==> forall id | id in rows && id !in locked && rows[id].row.status == Scheduled
          && rows[id].row.scheduledAt.Some? && rows[id].row.scheduledAt.value <= now :: id in picked)
  }

  /** What GetRetryReady returns: failed rows with retries left whose next retry has come. */
  ghost predicate TakesFailed(rows: Rows, now: int, locked: set<Id>, limit: nat, picked: seq<Id>) {
    && |picked| <= limit
    && (forall id :: id in picked ==>
          id in rows && id !in locked && rows[id].row.status == Failed
          && rows[id].row.retryCount < rows[id].row.maxRetries
          && rows[id].row.nextRetryAt.Some? && rows[id].row.nextRetryAt.value <= now)
    && (|picked| < limit ==> forall id | id in rows && id !in locked && rows[id].row.status == Failed
          && rows[id].row.retryCount < rows[id].row.maxRetries
          && rows[id].row.nextRetryAt.Some? && rows[id].row.nextRetryAt.value <= now :: id in picked)
  }

  /** The rows picked are queued, with every other column as it was; the others are untouched. */
  ghost predicate MarksQueued(rows: Rows, picked: seq<Id>, rows': Rows) {
    rows'.Keys == rows.Keys && forall id :: id in rows ==>
      rows'[id] == if id in picked then rows[id].(row := rows[id].row.(status := Status.Queued)) else rows[id]
  }

  lemma {:induction false} EarliestExists(rows: Rows, poller: Poller, ids: set<Id>) returns (first: Id)
    requires ids != {} && forall id :: id in ids ==> id in rows && DueAt(poller, rows[id].row).Some?
    ensures first in ids && forall id :: id in ids ==> NoLater(poller, rows[first].row, rows[id].row)
    decreases |ids|
  {
    var some :| some in ids;
    var rest := ids - {some};
    assert ids == rest + {some};
    first := some;
    if rest != {} {
      var other := EarliestExists(rows, poller, rest);
      first := if NoLater(poller, rows[some].row, rows[other].row) then some else other;
      forall id | id in rest ensures NoLater(poller, rows[first].row, rows[id].row) {
        assert NoLater(poller, rows[other].row, rows[id].row);
      }
    } else {
      assert ids == {some};
    }
  }

  class NotificationRepo {
    var rows: Rows

    ghost predicate Valid()
      reads this
    {
      KeysUnique(rows)
    }

    constructor ()
      ensures Valid() && rows == map[]
    {
      rows := map[];
    }

    method Create(id: Id, e: Notification, fault: bool) returns (ok: bool)
      requires Valid()
      modifies this
      ensures Valid() && ok == (!fault && !Violates(old(rows), id, e))
      ensures var clash := exists x :: x in old(rows) && e.key.Some? && old(rows)[x].key == e.key;
        ok <==> !fault && id !in old(rows) && !clash
      ensures rows == if ok then old(rows)[id := e] else old(rows)
    {
      ok := !fault && !Violates(rows, id, e);
      if ok {
        rows := rows[id := e];
      }
    }

    /** One transaction: the first INSERT that fails rolls all of them back. */
    method CreateBatch(drafts: seq<Draft>, fault: bool) returns (ok: bool)
      requires Valid()
      modifies this
      ensures Valid() && ok == (!fault && Insertable(old(rows), drafts))
      ensures rows == if ok then InsertAll(old(rows), drafts) else old(rows)
    {
      var before := rows;
      for i := 0 to |drafts|
        invariant Insertable(before, drafts[..i]) && rows == InsertAll(before, drafts[..i])
      {
        assert drafts[..i + 1][..i] == drafts[..i];
        if Violates(rows, drafts[i].0, drafts[i].1) {
          InsertablePrefix(before, drafts, i + 1);
          rows := before;
          return false;
        }
        rows := rows[drafts[i].0 := drafts[i].1];
      }
      assert drafts[..|drafts|] == drafts;
      if fault {
        rows := before;
        return false;
      }
      InsertAllKeepsUnique(before, drafts);
      ok := true;
    }

    method GetByIdempotencyKey(key: string) returns (found: Option<Id>)
      ensures found.None? <==> !KeyTaken(rows, Some(key))
      ensures found.None? <==> forall id :: id in rows ==> rows[id].key != Some(key)
      ensures found.Some? ==> found.value in rows && rows[found.value].key == Some(key)
    {
      found := None;
      if id :| id in rows && rows[id].key == Some(key) {
        found := Some(id);
      }
    }

    method UpdateStatus(id: Id, status: Status)
      requires Valid()
      modifies this
      ensures Valid()
      ensures id !in old(rows) ==> rows == old(rows)
      ensures id in old(rows) ==>
        var n := old(rows)[id];
        rows == old(rows)[id := n.(row := n.row.(status := status))]
    {
      if id in rows {
        rows := rows[id := WithStatus(rows[id], status)];
      }
    }

    /** GetScheduledReady and GetRetryReady: one statement picks due rows, skipping locked ones, marks them as
        queued and returns them. */
    method Claim(poller: Poller, now: int, locked: set<Id>, limit: nat) returns (picked: seq<Id>)
      requires Valid()
      modifies this
      ensures Valid() && Picks(old(rows), poller, now, locked, limit, picked)
      ensures rows == Requeued(old(rows), picked)
      ensures MarksQueued(old(rows), picked, rows)
      ensures poller.SchedulerPoll? ==> TakesScheduled(old(rows), now, locked, limit, picked)
      ensures poller.RetryPoll? ==> TakesFailed(old(rows), now, locked, limit, picked)
    {
      picked := [];
      var ready := set id | id in rows && Due(poller, rows[id].row, now) && id !in locked;
      while |picked| < limit && ready != {}
        invariant rows == old(rows) && Distinct(picked) && |picked| <= limit
        invariant forall id :: id in picked ==> id in rows && Due(poller, rows[id].row, now) && id !in locked
        invariant forall id :: id in ready <==>
          id in rows && Due(poller, rows[id].row, now) && id !in locked && id !in picked
        invariant forall p, id :: p in picked && id in ready ==> NoLater(poller, rows[p].row, rows[id].row)
        decreases limit - |picked|
      {
        ghost var earliest := EarliestExists(rows, poller, ready);
        var first :| first in ready && forall id :: id in ready ==> NoLater(poller, rows[first].row, rows[id].row);
        picked := picked + [first];
        ready := ready - {first};
      }
      rows := Requeued(rows, picked);
    }

    method CancelByID(id: Id) returns (r: Result<()>)
      requires Valid()
      modifies this
      ensures Valid()
      ensures r == if id !in old(rows) then Err(NotFound)
                   else if old(rows)[id].row.status in {Pending, Scheduled, Status.Queued} then Ok(())
                   else Err(CannotCancel)
      ensures rows == if id in old(rows) then old(rows)[id := Cancel(old(rows)[id])] else old(rows)
      ensures r.Err? ==> rows == old(rows)
      ensures r.Ok? ==>
        var n := old(rows)[id];
        rows == old(rows)[id := n.(row := n.row.(status := Cancelled))]
    {
      var affected := id in rows && rows[id].row.status.CanCancel();
      if affected {
        rows := rows[id := WithStatus(rows[id], Cancelled)];
      }
      if !affected {
        var found := id in rows;
        if !found {
          return Err(NotFound);
        }
        assert rows == rows[id := Cancel(rows[id])];
        return Err(CannotCancel);
      }
      return Ok(());
    }

    method CancelByBatchID(batch: Id) returns (affected: nat)
      requires Valid()
      modifies this
      ensures Valid() && rows.Keys == old(rows).Keys
      ensures forall id :: id in rows ==>
        rows[id] == if old(rows)[id].batch == Some(batch) then Cancel(old(rows)[id]) else old(rows)[id]
      ensures forall id :: id in rows ==>
        var n := old(rows)[id];
        rows[id] == if n.batch == Some(batch) && n.row.status in {Pending, Scheduled, Status.Queued}
                    then n.(row := n.row.(status := Cancelled)) else n
      ensures affected == |set id | id in old(rows) && rows[id] != old(rows)[id]|
    {
      var hit := set id | id in rows && rows[id].batch == Some(batch) && rows[id].row.status.CanCancel();
      rows := map id | id in rows :: if id in hit then WithStatus(rows[id], Cancelled) else rows[id];
      affected := |hit|;
      assert hit == set id | id in old(rows) && rows[id] != old(rows)[id];
    }
  }

  function WithStatus(e: Notification, status: Status): Notification {
    e.(row := e.row.(status := status))
  }

  function Cancel(e: Notification): Notification {
    e.(row := CancelRow(e.row))
  }

  lemma {:induction false} InsertablePrefix(rows: Rows, drafts: seq<Draft>, n: nat)
    requires n <= |drafts| && !Insertable(rows, drafts[..n])
    ensures !Insertable(rows, drafts)
    decreases |drafts|
  {
    if n < |drafts| {
      assert drafts[..|drafts| - 1][..n] == drafts[..n];
      InsertablePrefix(rows, drafts[..|drafts| - 1], n);
    } else {
      assert drafts[..n] == drafts;
    }
  }
}

/** The service: single creates, batches and cancels, over the table and the queue. */
module NotificationApi {
  import opened Domain
  import opened Creation
  import opened Sequences
  import Queue

  const MAX_BATCH_SIZE: nat := 1000

  /** What the world answers while a batch is created: a fresh uuid and a clock reading for each
      request, whether the database fails, and which messages reach Redis. */
  datatype World = World(
    batchId: Id, id: nat -> Id, clock: nat -> int, enqueueClock: nat -> int, storageFault: bool,
    lands: Queue.Message -> bool)

  /** What it answers during a single create; `template` is the rendered content, if a template was named. */
  datatype Answers = Answers(
    id: Id, now: int, enqueueClock: int, template: Option<Result<seq<bv8>>>,
    lookupFault: bool, storageFault: bool, statusFault: bool, redisFault: bool)

  /** The channel of a request whose template renders and whose content is valid. */
  function Screen(req: Request, template: Option<Result<seq<bv8>>>): Result<Channel> {
    if ParseChannel(req.channel).None? then Err(InvalidChannel)
    else
      match template
      case None => Check(req)
      case Some(Err(e)) => Err(e)
      case Some(Ok(content)) => Check(req.(content := content))
  }

  /** The row a single create leaves; it stays pending if the status update fails. */
  function Created(req: Request, channel: Channel, statusFault: bool): Notification {
    NewNotification(req, channel, None,
                    if req.scheduledAt.Some? then Scheduled else if statusFault then Pending else Status.Queued)
  }

  function CreatedMessage(req: Request, channel: Channel, w: Answers): Queue.Message {
    Queue.MessageOf(w.id, Created(req, channel, w.statusFault))
  }

  /** Everything the API writes. */
  datatype Api = Api(rows: Rows, queues: map<Channel, Queue.Scores>, published: seq<(Id, Status)>)

  /** How `Create` ends once the key is known to be free. */
  ghost predicate Puts(s: Api, req: Request, channel: Channel, w: Answers, r: Result<Id>, s': Api) {
    if req.scheduledAt.Some? && req.scheduledAt.value < w.now then r == Err(ScheduleInPast) && s' == s
    else if w.storageFault || w.id in s.rows then r == Err(Storage) && s' == s
    else
      && r == Ok(w.id)
      && s'.rows == s.rows[w.id := Created(req, channel, w.statusFault)]
      && s'.published == s.published + [(w.id, if req.scheduledAt.Some? then Scheduled else Status.Queued)]
      && s'.queues == if req.scheduledAt.Some? || w.redisFault then s.queues
                      else Queue.Added(s.queues, CreatedMessage(req, channel, w), w.enqueueClock)
  }

  /** All the ends of `Create`, in the order of its checks. */
  ghost predicate Creates(s: Api, req: Request, w: Answers, r: Result<Id>, s': Api) {
    var screened := Screen(req, w.template);
    if screened.Err? then r == Err(screened.error) && s' == s
    else if req.key.Some? && w.lookupFault then r == Err(Storage) && s' == s
    else if KeyTaken(s.rows, req.key) then r.Ok? && r.value in s.rows && s.rows[r.value].key == req.key && s' == s
    else Puts(s, req, screened.value, w, r, s')
  }

  /** The row of a new single notification. */
  ghost predicate IsCreated(n: Notification, req: Request, statusFault: bool) {
    && Carries(n, req) && n.batch.None?
    && n.row.status == (if req.scheduledAt.Some? then Scheduled else if statusFault then Pending else Status.Queued)
  }

  /** A create with a key is idempotent: whatever happened since it returned, if rows kept their keys, another one
      with that key whose look-up works returns the same notification and changes nothing. */
  lemma {:induction false} SecondCreateReturnsFirst(
    s0: Api, req1: Request, w1: Answers, r1: Result<Id>, s1: Api,
    s2: Api, req2: Request, w2: Answers, r2: Result<Id>, s3: Api)
    requires Creates(s0, req1, w1, r1, s1) && r1.Ok? && req1.key.Some?
    requires KeepsKeys(s1.rows, s2.rows) && KeysUnique(s2.rows)
    requires Creates(s2, req2, w2, r2, s3)
    requires req2.key == req1.key && Screen(req2, w2.template).Ok? && !w2.lookupFault
    ensures r2 == r1 && s3 == s2
  {
    assert s2.rows[r1.value].key == req2.key;
  }

  datatype BatchResult = BatchResult(
    total: nat, accepted: nat, rejected: nat, errors: seq<(nat, Error)>, notifications: seq<Id>)

  /** In a batch, a time that is not in the future means now. */
  function DraftOf(req: Request, channel: Channel, w: World, i: nat): Draft {
    var later := req.scheduledAt.Some? && req.scheduledAt.value > w.clock(i);
    (w.id(i), NewNotification(req, channel, Some(w.batchId), if later then Scheduled else Status.Queued))
  }

  function Drafts(reqs: seq<Request>, w: World): seq<Draft> {
    if reqs == [] then []
    else
      match Check(Last(reqs))
      case Err(_) => Drafts(Front(reqs), w)
      case Ok(channel) => Drafts(Front(reqs), w) + [DraftOf(Last(reqs), channel, w, |reqs| - 1)]
  }

  function Errors(reqs: seq<Request>): seq<(nat, Error)> {
    if reqs == [] then []
    else
      match Check(Last(reqs))
      case Err(e) => Errors(Front(reqs)) + [(|reqs| - 1, e)]
      case Ok(_) => Errors(Front(reqs))
  }

  function Ids(drafts: seq<Draft>): seq<Id> {
    if drafts == [] then [] else Ids(Front(drafts)) + [Last(drafts).0]
  }

  function Messages(drafts: seq<Draft>): seq<Queue.Message> {
    if drafts == [] then []
    else if Last(drafts).1.row.status == Scheduled then Messages(Front(drafts))
    else Messages(Front(drafts)) + [Queue.MessageOf(Last(drafts).0, Last(drafts).1)]
  }

  function Readings(n: nat, clock: nat -> int): (r: seq<int>)
    ensures |r| == n && forall i: nat :: i < n ==> r[i] == clock(i)
  {
    seq(n, i => if i >= 0 then clock(i) else 0)
  }

  /** The queues after the batch's messages went out. */
  function Sent(queues: map<Channel, Queue.Scores>, drafts: seq<Draft>, w: World): map<Channel, Queue.Scores> {
    Queue.Pipelined(queues, Messages(drafts), Readings(|Messages(drafts)|, w.enqueueClock), w.lands)
  }

  // ---- the batch theorem ----

  /** The positions of the valid requests. */
  function Positions(reqs: seq<Request>): seq<nat> {
    if reqs == [] then []
    else if Check(Last(reqs)).Ok? then Positions(Front(reqs)) + [|reqs| - 1]
    else Positions(Front(reqs))
  }

  predicate Increasing(s: seq<nat>) {
    forall i, j :: 0 <= i < j < |s| ==> s[i] < s[j]
  }

  function Indices(errors: seq<(nat, Error)>): (r: seq<nat>)
    ensures |r| == |errors| && forall i :: 0 <= i < |r| ==> r[i] == errors[i].0
  {
    seq(|errors|, i requires 0 <= i < |errors| => errors[i].0)
  }

  lemma {:induction false} PositionsAreTheValidOnes(reqs: seq<Request>)
    ensures Increasing(Positions(reqs))
    ensures forall i: nat :: i in Positions(reqs) <==> i < |reqs| && Check(reqs[i]).Ok?
  {
    if reqs != [] {
      var front := Front(reqs);
      PositionsAreTheValidOnes(front);
      if Check(Last(reqs)).Ok? {
        forall k | 0 <= k < |Positions(front)| ensures Positions(front)[k] < |front| {
          assert Positions(front)[k] in Positions(front);
        }
      }
      forall i: nat ensures i in Positions(reqs) <==> i < |reqs| && Check(reqs[i]).Ok? {
        if i < |front| {
          assert front[i] == reqs[i];
        }
      }
    }
  }

  /** The drafts are the valid requests, in input order. */
  lemma {:induction false} DraftsFollowPositions(reqs: seq<Request>, w: World)
    ensures |Positions(reqs)| == |Drafts(reqs, w)| == |Ids(Drafts(reqs, w))|
    ensures forall k :: 0 <= k < |Positions(reqs)| ==>
      var i := Positions(reqs)[k];
      && i < |reqs| && Check(reqs[i]).Ok?
      && Drafts(reqs, w)[k] == DraftOf(reqs[i], Check(reqs[i]).value, w, i)
      && Ids(Drafts(reqs, w))[k] == w.id(i)
  {
    if reqs != [] {
      var front := Front(reqs);
      DraftsFollowPositions(front, w);
      forall k | 0 <= k < |Positions(front)|
        ensures Positions(front)[k] < |front| && reqs[Positions(front)[k]] == front[Positions(front)[k]]
      {
      }
      if Check(Last(reqs)).Ok? {
        assert Front(Drafts(reqs, w)) == Drafts(front, w);
      }
    }
  }

  lemma {:induction false} ErrorsHaveIndices(reqs: seq<Request>)
    ensures |Positions(reqs)| + |Errors(reqs)| == |reqs|
    ensures Increasing(Indices(Errors(reqs)))
    ensures forall k :: 0 <= k < |Errors(reqs)| ==> Errors(reqs)[k].0 < |reqs|
  {
    if reqs != [] {
      ErrorsHaveIndices(Front(reqs));
    }
  }

  /** The errors are exactly the invalid requests, in input order, each with its own reason. */
  lemma {:induction false} ErrorsAreTheInvalidOnes(reqs: seq<Request>)
    ensures Increasing(Indices(Errors(reqs)))
    ensures forall i: nat, e :: (i, e) in Errors(reqs) <==> i < |reqs| && Check(reqs[i]) == Err(e)
    ensures |Positions(reqs)| + |Errors(reqs)| == |reqs|
  {
    ErrorsHaveIndices(reqs);
    if reqs != [] {
      var front := Front(reqs);
      ErrorsAreTheInvalidOnes(front);
      forall i: nat, e ensures (i, e) in Errors(reqs) <==> i < |reqs| && Check(reqs[i]) == Err(e) {
        if i < |front| {
          assert front[i] == reqs[i];
        }
      }
    }
  }

  lemma {:induction false} MessagesAreTheUnscheduled(drafts: seq<Draft>, m: Queue.Message)
    ensures m in Messages(drafts) <==>
      exists k :: 0 <= k < |drafts|
        && drafts[k].1.row.status != Scheduled && m == Queue.MessageOf(drafts[k].0, drafts[k].1)
  {
    if drafts != [] {
      MessagesAreTheUnscheduled(Front(drafts), m);
      assert forall k :: 0 <= k < |drafts| - 1 ==> Front(drafts)[k] == drafts[k];
    }
  }

  /** No queue holds a message of this notification, or only `only` does. */
  ghost predicate Unsent(queues: map<Channel, Queue.Scores>, id: Id) {
    forall c: Channel, m: Queue.Message :: m in Queue.Of(queues, c) ==> m.id != id
  }

  ghost predicate SentOnce(queues: map<Channel, Queue.Scores>, only: Queue.Message) {
    && only in Queue.Of(queues, only.channel)
    && forall c: Channel, m :: m in Queue.Of(queues, c) && m.id == only.id ==> m == only && c == only.channel
  }

  lemma {:induction false} OnlyOneDraft(drafts: seq<Draft>, k: nat)
    requires forall i, j :: 0 <= i < j < |drafts| ==> !Clash(drafts[i], drafts[j])
    requires k < |drafts|
    ensures forall j :: 0 <= j < |drafts| && drafts[j].0 == drafts[k].0 ==> j == k
  {
    forall j | 0 <= j < |drafts| && j != k ensures drafts[j].0 != drafts[k].0 {
      assert if j < k then !Clash(drafts[j], drafts[k]) else !Clash(drafts[k], drafts[j]);
    }
  }

  lemma {:induction false} BatchRow(rows: Rows, reqs: seq<Request>, w: World, i: nat)
    requires Insertable(rows, Drafts(reqs, w)) && i < |reqs| && Check(reqs[i]).Ok?
    ensures w.id(i) in InsertAll(rows, Drafts(reqs, w))
    ensures InsertAll(rows, Drafts(reqs, w))[w.id(i)] == DraftOf(reqs[i], Check(reqs[i]).value, w, i).1
  {
    PositionsAreTheValidOnes(reqs);
    DraftsFollowPositions(reqs, w);
    InsertAllHolds(rows, Drafts(reqs, w));
    var k :| 0 <= k < |Positions(reqs)| && Positions(reqs)[k] == i;
    assert Drafts(reqs, w)[k].0 == w.id(i);
  }

  /** A draft's own message is the only one with its id. */
  lemma {:induction false} DraftMessage(drafts: seq<Draft>, k: nat, m: Queue.Message)
    requires forall i, j :: 0 <= i < j < |drafts| ==> !Clash(drafts[i], drafts[j])
    requires k < |drafts| && m.id == drafts[k].0
    ensures m in Messages(drafts) <==>
      drafts[k].1.row.status != Scheduled && m == Queue.MessageOf(drafts[k].0, drafts[k].1)
  {
    MessagesAreTheUnscheduled(drafts, m);
    OnlyOneDraft(drafts, k);
  }

  lemma {:induction false} DraftIsSent(queues: map<Channel, Queue.Scores>, drafts: seq<Draft>, w: World, k: nat)
    requires forall i, j :: 0 <= i < j < |drafts| ==> !Clash(drafts[i], drafts[j])
    requires k < |drafts| && Unsent(queues, drafts[k].0)
    ensures var m, after := Queue.MessageOf(drafts[k].0, drafts[k].1), Sent(queues, drafts, w);
      if drafts[k].1.row.status != Scheduled && w.lands(m) then SentOnce(after, m) else Unsent(after, drafts[k].0)
  {
    var msgs, only := Messages(drafts), Queue.MessageOf(drafts[k].0, drafts[k].1);
    var sent := drafts[k].1.row.status != Scheduled && w.lands(only);
    forall c: Channel, m: Queue.Message | m.id == only.id
      ensures m in Queue.Of(Sent(queues, drafts, w), c) <==> sent && c == only.channel && m == only
    {
      Queue.PipelinedMembers(queues, msgs, Readings(|msgs|, w.enqueueClock), w.lands, m, c);
      DraftMessage(drafts, k, m);
    }
  }

  lemma {:induction false} BatchMessages(
    rows: Rows, queues: map<Channel, Queue.Scores>, reqs: seq<Request>, w: World, i: nat)
    requires Insertable(rows, Drafts(reqs, w)) && i < |reqs| && Check(reqs[i]).Ok? && Unsent(queues, w.id(i))
    ensures w.id(i) !in rows
    ensures var n, after := DraftOf(reqs[i], Check(reqs[i]).value, w, i).1, Sent(queues, Drafts(reqs, w), w);
      var m := Queue.MessageOf(w.id(i), n);
      if n.row.status != Scheduled && w.lands(m) then SentOnce(after, m) else Unsent(after, w.id(i))
  {
    PositionsAreTheValidOnes(reqs);
    DraftsFollowPositions(reqs, w);
    InsertableIff(rows, Drafts(reqs, w));
    var k :| 0 <= k < |Positions(reqs)| && Positions(reqs)[k] == i;
    assert Drafts(reqs, w)[k] == DraftOf(reqs[i], Check(reqs[i]).value, w, i);
    DraftIsSent(queues, Drafts(reqs, w), w, k);
  }

  /** After a batch went in, every accepted request has its own row, and is either scheduled for a later
      time or has exactly one message, or none if that did not reach Redis. */
  lemma {:induction false} BatchIsSent(
    rows: Rows, queues: map<Channel, Queue.Scores>, reqs: seq<Request>, w: World, i: nat)
    requires Insertable(rows, Drafts(reqs, w))
    requires i < |reqs| && Check(reqs[i]).Ok? && Unsent(queues, w.id(i))
    ensures w.id(i) !in rows && w.id(i) in InsertAll(rows, Drafts(reqs, w))
    ensures var n, after := InsertAll(rows, Drafts(reqs, w))[w.id(i)], Sent(queues, Drafts(reqs, w), w);
      && n.channel == Check(reqs[i]).value && Carries(n, reqs[i]) && n.batch == Some(w.batchId)
      && if reqs[i].scheduledAt.Some? && reqs[i].scheduledAt.value > w.clock(i)
         then n.row.status == Scheduled && n.row.scheduledAt == reqs[i].scheduledAt && Unsent(after, w.id(i))
         else
           && n.row.status == Status.Queued
           && if w.lands(Queue.MessageOf(w.id(i), n)) then SentOnce(after, Queue.MessageOf(w.id(i), n))
              else Unsent(after, w.id(i))
  {
    BatchRow(rows, reqs, w, i);
    BatchMessages(rows, queues, reqs, w, i);
  }

  /** The batch result is a partition: every request is accepted or rejected, never both. */
  lemma {:induction false} BatchPartition(reqs: seq<Request>, w: World)
    ensures |Drafts(reqs, w)| + |Errors(reqs)| == |reqs|
    ensures Increasing(Positions(reqs)) && Increasing(Indices(Errors(reqs)))
    ensures forall i: nat :: i < |reqs| ==> (i in Positions(reqs) <==> i !in Indices(Errors(reqs)))
  {
    PositionsAreTheValidOnes(reqs);
    DraftsFollowPositions(reqs, w);
    ErrorsAreTheInvalidOnes(reqs);
    forall i: nat | i < |reqs| ensures i in Indices(Errors(reqs)) <==> Check(reqs[i]).Err? {
      if Check(reqs[i]).Err? {
        var e := Check(reqs[i]).error;
        assert (i, e) in Errors(reqs);
        var k :| 0 <= k < |Errors(reqs)| && Errors(reqs)[k] == (i, e);
        assert Indices(Errors(reqs))[k] == i;
      } else {
        forall k | 0 <= k < |Errors(reqs)| ensures Indices(Errors(reqs))[k] != i {
          assert Errors(reqs)[k] in Errors(reqs);
          assert Check(reqs[Errors(reqs)[k].0]) == Err(Errors(reqs)[k].1);
        }
      }
    }
  }

  /** Unlike a single create, a batch does not look a key up first: one valid request whose key is already
      in the table, or which shares its key with another one, fails all of them. */
  lemma {:induction false} OneUsedKeyFailsTheBatch(rows: Rows, reqs: seq<Request>, w: World, i: nat)
    requires i < |reqs| && Check(reqs[i]).Ok? && reqs[i].key.Some?
    requires KeyTaken(rows, reqs[i].key)
      || exists j: nat :: i < j < |reqs| && Check(reqs[j]).Ok? && reqs[j].key == reqs[i].key
    ensures !Insertable(rows, Drafts(reqs, w))
  {
    PositionsAreTheValidOnes(reqs);
    DraftsFollowPositions(reqs, w);
    InsertableIff(rows, Drafts(reqs, w));
    var k :| 0 <= k < |Positions(reqs)| && Positions(reqs)[k] == i;
    if !KeyTaken(rows, reqs[i].key) {
      var j: nat :| i < j < |reqs| && Check(reqs[j]).Ok? && reqs[j].key == reqs[i].key;
      var l :| 0 <= l < |Positions(reqs)| && Positions(reqs)[l] == j;
      assert k < l;
      assert Clash(Drafts(reqs, w)[k], Drafts(reqs, w)[l]);
    } else {
      assert Violates(rows, Drafts(reqs, w)[k].0, Drafts(reqs, w)[k].1);
    }
  }

  class NotificationService {
    const repo: NotificationRepo
    const queue: Queue.RedisQueue
    var published: seq<(Id, Status)>

    ghost predicate Valid()
      reads repo, queue
    {
      repo.Valid() && queue.Valid()
    }

    constructor (repo: NotificationRepo, queue: Queue.RedisQueue)
      requires repo.Valid() && queue.Valid()
      ensures Valid() && this.repo == repo && this.queue == queue && published == []
    {
      this.repo, this.queue, published := repo, queue, [];
    }

    /** The status update and the enqueue of a row that was just inserted as pending; either may fail. */
    method Launch(req: Request, channel: Channel, n: Notification, w: Answers)
      requires Valid() && w.id in repo.rows && repo.rows[w.id] == n
      requires n == NewNotification(req, channel, None, Pending) && req.scheduledAt.None?
      modifies repo, queue
      ensures Valid() && repo.rows == old(repo.rows)[w.id := Created(req, channel, w.statusFault)]
      ensures queue.queues == if w.redisFault then old(queue.queues)
                              else Queue.Added(old(queue.queues), CreatedMessage(req, channel, w), w.enqueueClock)
    {
      if !w.statusFault {
        repo.UpdateStatus(w.id, Status.Queued);
      }
      if !w.redisFault {
        queue.Enqueue(Queue.MessageOf(w.id, n), w.enqueueClock);
      }
    }

    /** `Create` from the schedule check on, for a key that is not in the table. */
    method Put(req: Request, channel: Channel, w: Answers) returns (r: Result<Id>)
      requires Valid() && !KeyTaken(repo.rows, req.key) && ParseChannel(req.channel) == Some(channel)
      modifies this, repo, queue
      ensures Valid() && Puts(old(Snapshot()), req, channel, w, r, Snapshot())
      ensures r.Ok? ==> r.value == w.id && w.id in repo.rows && IsCreated(repo.rows[w.id], req, w.statusFault)
    {
      var n := NewNotification(req, channel, None, Pending);
      if req.scheduledAt.Some? {
        if req.scheduledAt.value < w.now {
          return Err(ScheduleInPast);
        }
        n := NewNotification(req, channel, None, Scheduled);
      }
      var ok := repo.Create(w.id, n, w.storageFault);
      if !ok {
        return Err(Storage);
      }
      var status := n.row.status;
      if status == Pending {
        Launch(req, channel, n, w);
        status := Status.Queued;
      }
      published := published + [(w.id, status)];
      CarriesRequest(req, channel, None, repo.rows[w.id].row.status);
      return Ok(w.id);
    }

    function Snapshot(): Api
      reads this, repo, queue
    {
      Api(repo.rows, queue.queues, published)
    }

    /** The checks come in the order channel, template, content, key, schedule: a known key answers before a
        past schedule is refused. A failed status update or enqueue is logged, and the create still succeeds. */
    method Create(req: Request, w: Answers) returns (r: Result<Id>)
      requires Valid()
      modifies this, repo, queue
      ensures Valid() && Creates(old(Snapshot()), req, w, r, Snapshot())
      ensures r.Ok? && req.key.Some? ==> r.value in repo.rows && repo.rows[r.value].key == req.key
      ensures r.Ok? && r.value !in old(repo.rows) ==>
        r.value == w.id && w.id in repo.rows && IsCreated(repo.rows[w.id], req, w.statusFault)
    {
      var req' := req;
      if ParseChannel(req.channel).None? {
        return Err(InvalidChannel);
      }
      if w.template.Some? {
        if w.template.value.Err? {
          return Err(w.template.value.error);
        }
        req' := req'.(content := w.template.value.value);
      }
      var check := Check(req');
      if check.Err? {
        return Err(check.error);
      }
      if req.key.Some? {
        if w.lookupFault {
          return Err(Storage);
        }
        var existing := repo.GetByIdempotencyKey(req.key.value);
        if existing.Some? {
          return Ok(existing.value);
        }
      }
      r := Put(req', check.value, w);
    }

    /** The insert and the pipeline of a batch. */
    method Submit(drafts: seq<Draft>, queueMsgs: seq<Queue.Message>, w: World) returns (ok: bool)
      requires Valid() && queueMsgs == Messages(drafts)
      modifies repo, queue
      ensures Valid()
      ensures ok <==> drafts == [] || (!w.storageFault && Insertable(old(repo.rows), drafts))
      ensures repo.rows == if ok then InsertAll(old(repo.rows), drafts) else old(repo.rows)
      ensures queue.queues == if ok then Sent(old(queue.queues), drafts, w) else old(queue.queues)
    {
      ok := true;
      if |drafts| > 0 {
        ok := repo.CreateBatch(drafts, w.storageFault);
        if !ok {
          return;
        }
        if |queueMsgs| > 0 {
          queue.EnqueueBatch(queueMsgs, Readings(|queueMsgs|, w.enqueueClock), w.lands);
        }
      }
    }

    /** `CreateBatch`: nothing remains of a batch whose transaction fails. */
    method CreateBatch(reqs: seq<Request>, w: World) returns (r: Result<BatchResult>)
      requires Valid()
      modifies repo, queue
      ensures Valid()
      ensures r.Err? ==> repo.rows == old(repo.rows) && queue.queues == old(queue.queues)
      ensures r.Err? <==>
        || |reqs| > 1000
        || (Drafts(reqs, w) != [] && (w.storageFault || !Insertable(old(repo.rows), Drafts(reqs, w))))
      ensures r.Err? ==> r.error == if |reqs| > 1000 then BatchTooLarge else Storage
      ensures r.Ok? ==>
        && r.value == BatchResult(|reqs|, |Drafts(reqs, w)|, |Errors(reqs)|, Errors(reqs), Ids(Drafts(reqs, w)))
        && repo.rows == InsertAll(old(repo.rows), Drafts(reqs, w))
        && queue.queues == Sent(old(queue.queues), Drafts(reqs, w), w)
    {
      if |reqs| > MAX_BATCH_SIZE {
        return Err(BatchTooLarge);
      }
      var result := BatchResult(|reqs|, 0, 0, [], []);
      var notifications: seq<Draft> := [];
      var queueMsgs: seq<Queue.Message> := [];
      for i := 0 to |reqs|
        invariant notifications == Drafts(reqs[..i], w) && queueMsgs == Messages(notifications)
        invariant var errors := Errors(reqs[..i]);
          result == BatchResult(|reqs|, |notifications|, |errors|, errors, Ids(notifications))
      {
        assert Front(reqs[..i + 1]) == reqs[..i];
        var req := reqs[i];
        var check := Check(req);
        if check.Err? {
          result := result.(rejected := result.rejected + 1, errors := result.errors + [(i, check.error)]);
          continue;
        }
        var n := NewNotification(req, check.value, Some(w.batchId), Status.Queued);
        if req.scheduledAt.Some? && req.scheduledAt.value > w.clock(i) {
          n := NewNotification(req, check.value, Some(w.batchId), Scheduled);
        } else {
          queueMsgs := queueMsgs + [Queue.MessageOf(w.id(i), n)];
        }
        ghost var before := notifications;
        notifications := notifications + [(w.id(i), n)];
        assert Front(notifications) == before;
        result := result.(accepted := result.accepted + 1, notifications := result.notifications + [w.id(i)]);
      }
      assert reqs[..|reqs|] == reqs;
      var ok := Submit(notifications, queueMsgs, w);
      if !ok {
        return Err(Storage);
      }
      return Ok(result);
    }

    method Cancel(id: Id) returns (r: Result<()>)
      requires Valid()
      modifies this, repo
      ensures Valid()
      ensures r == if id !in old(repo.rows) then Err(NotFound)
                   else if old(repo.rows)[id].row.status in {Pending, Scheduled, Status.Queued} then Ok(())
                   else Err(CannotCancel)
      ensures r.Ok? ==>
        var n := old(repo.rows)[id];
        && repo.rows == old(repo.rows)[id := n.(row := n.row.(status := Cancelled))]
        && published == old(published) + [(id, Cancelled)]
      ensures r.Err? ==> repo.rows == old(repo.rows) && published == old(published)
    {
      r := repo.CancelByID(id);
      if r.Err? {
        return;
      }
      published := published + [(id, Cancelled)];
    }

    method CancelBatch(batch: Id) returns (affected: nat)
      requires Valid()
      modifies repo
      ensures Valid() && repo.rows.Keys == old(repo.rows).Keys
      ensures forall id :: id in repo.rows ==>
        var n := old(repo.rows)[id];
        repo.rows[id] == if n.batch == Some(batch) && n.row.status in {Pending, Scheduled, Status.Queued}
                         then n.(row := n.row.(status := Cancelled)) else n
      ensures affected == |set id | id in old(repo.rows) && repo.rows[id] != old(repo.rows)[id]|
    {
      affected := repo.CancelByBatchID(batch);
    }
  }
}
