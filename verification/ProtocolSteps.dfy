/** What the API does to the table and the queues is, for each notification, a run of the protocol. */
module ProtocolSteps {
  import opened Domain
  import opened Creation
  import opened NotificationApi
  import Queue
  import Lifecycle

  /** `s` is what the table and the queues hold about one notification. */
  predicate Holds(rows: Rows, queues: map<Channel, Queue.Scores>, id: Id, s: Lifecycle.Store)
    requires id in rows
  {
    s.row == Some(rows[id].row) && s.queued == (Queue.MessageOf(id, rows[id]) in Queue.Of(queues, rows[id].channel))
  }

  /** The calls of a `Create`: line 110, then lines 117 and 120 unless the notification is scheduled. */
  function CreateEvents(req: Request, statusFault: bool, redisFault: bool): seq<Lifecycle.Event> {
    if req.scheduledAt.Some? then [Lifecycle.Insert(req.scheduledAt)]
    else
      [Lifecycle.Insert(None),
       Lifecycle.Act(0, Lifecycle.MarkQueued(!statusFault)),
       Lifecycle.Act(0, Lifecycle.Publish(!redisFault))]
  }

  function CreateCell(cfg: Lifecycle.Config, req: Request, statusFault: bool, redisFault: bool): Lifecycle.Cell {
    var status := if req.scheduledAt.Some? then Scheduled else if statusFault then Pending else Status.Queued;
    Lifecycle.Cell(
      Lifecycle.EMPTY_STORE.(row := Some(Lifecycle.NewRow(cfg, status, req.scheduledAt)),
                             queued := req.scheduledAt.None? && !redisFault),
      if req.scheduledAt.Some? then [] else [Lifecycle.Done])
  }

  lemma {:induction false} CreateRuns(cfg: Lifecycle.Config, req: Request, statusFault: bool, redisFault: bool)
    ensures Lifecycle.Run(cfg, Lifecycle.EMPTY, CreateEvents(req, statusFault, redisFault))
         == Some(CreateCell(cfg, req, statusFault, redisFault))
  {
    var events := CreateEvents(req, statusFault, redisFault);
    var inserted := Lifecycle.Step(cfg, Lifecycle.EMPTY, events[0]).value;
    assert events[..1] == [events[0]] && events[..1][..0] == [];
    assert Lifecycle.Run(cfg, Lifecycle.EMPTY, events[..1]) == Some(inserted);
    assert events[..|events|] == events;
    if req.scheduledAt.None? {
      var marked := CreateCell(cfg, req, statusFault, true).(hands := [Lifecycle.Publishing]);
      assert events[..2][..1] == events[..1] && events[..3][..2] == events[..2];
      assert inserted.hands[0 := Lifecycle.Publishing] == marked.hands;
      assert marked.hands[0 := Lifecycle.Done] == [Lifecycle.Done];
      assert Lifecycle.Step(cfg, inserted, events[1]) == Some(marked);
      assert Lifecycle.Run(cfg, Lifecycle.EMPTY, events[..2]) == Some(marked);
      assert Lifecycle.Step(cfg, marked, events[2]) == Some(CreateCell(cfg, req, statusFault, redisFault));
    }
  }

  /** A new id, in no queue yet: the row and the queue after a create are those of the protocol's own calls,
      failed ones included, and nobody else's change. */
  lemma {:induction false} CreateIsItsCalls(
    cfg: Lifecycle.Config, rows: Rows, queues: map<Channel, Queue.Scores>, req: Request, channel: Channel, w: Answers)
    requires cfg.rowMaxRetries == DEFAULT_MAX_RETRIES && w.id !in rows && Unsent(queues, w.id)
    ensures var n := Created(req, channel, w.statusFault);
      var rows', queues' := rows[w.id := n],
        if req.scheduledAt.Some? || w.redisFault then queues
        else Queue.Added(queues, Queue.MessageOf(w.id, n), w.enqueueClock);
      var end := Lifecycle.Run(cfg, Lifecycle.EMPTY, CreateEvents(req, w.statusFault, w.redisFault));
      && end.Some? && Holds(rows', queues', w.id, end.value.store)
      && forall id, s :: id in rows && Holds(rows, queues, id, s) ==> Holds(rows', queues', id, s)
  {
    CreateRuns(cfg, req, w.statusFault, w.redisFault);
  }

  /** CancelByID, and CancelByBatchID for each row of the batch. */
  lemma {:induction false} CancelIsItsStep(
    cfg: Lifecycle.Config, rows: Rows, queues: map<Channel, Queue.Scores>, id: Id, c: Lifecycle.Cell)
    requires id in rows && Holds(rows, queues, id, c.store)
    ensures Lifecycle.Step(cfg, c, Lifecycle.Cancel).Some?
    ensures var end := Lifecycle.Step(cfg, c, Lifecycle.Cancel).value;
      Holds(rows[id := Creation.Cancel(rows[id])], queues, id, end.store)
  {
  }

  function BatchMessage(reqs: seq<Request>, w: World, i: nat): Queue.Message
    requires i < |reqs| && Check(reqs[i]).Ok?
  {
    Queue.Message(w.id(i), Check(reqs[i]).value, ParsePriority(reqs[i].priority))
  }

  /** Each accepted request of a batch: its INSERT, and its enqueue unless it is scheduled. */
  lemma {:induction false} BatchIsItsCalls(
    cfg: Lifecycle.Config, rows: Rows, queues: map<Channel, Queue.Scores>, reqs: seq<Request>, w: World, i: nat)
    requires cfg.rowMaxRetries == DEFAULT_MAX_RETRIES
    requires Insertable(rows, Drafts(reqs, w))
    requires i < |reqs| && Check(reqs[i]).Ok? && Unsent(queues, w.id(i))
    ensures w.id(i) in InsertAll(rows, Drafts(reqs, w))
    ensures var later := reqs[i].scheduledAt.Some? && reqs[i].scheduledAt.value > w.clock(i);
      var publish := Lifecycle.Publish(w.lands(BatchMessage(reqs, w, i)));
      var events := if later then [Lifecycle.InsertBatchRow(reqs[i].scheduledAt)]
                    else [Lifecycle.InsertBatchRow(None), Lifecycle.Act(0, publish)];
      && Lifecycle.Run(cfg, Lifecycle.EMPTY, events).Some?
      && Holds(InsertAll(rows, Drafts(reqs, w)), Sent(queues, Drafts(reqs, w), w), w.id(i),
               Lifecycle.Run(cfg, Lifecycle.EMPTY, events).value.store)
  {
    BatchIsSent(rows, queues, reqs, w, i);
    BatchRow(rows, reqs, w, i);
    BatchRowRuns(cfg, None, w.lands(BatchMessage(reqs, w, i)));
    BatchRowRuns(cfg, reqs[i].scheduledAt, true);
  }

  lemma {:induction false} BatchRowRuns(cfg: Lifecycle.Config, at: Option<int>, ok: bool)
    ensures Lifecycle.Run(cfg, Lifecycle.EMPTY, [Lifecycle.InsertBatchRow(at)])
         == Lifecycle.Step(cfg, Lifecycle.EMPTY, Lifecycle.InsertBatchRow(at))
    ensures at.None? ==>
      Lifecycle.Run(cfg, Lifecycle.EMPTY, [Lifecycle.InsertBatchRow(at), Lifecycle.Act(0, Lifecycle.Publish(ok))])
      == Some(Lifecycle.Cell(
           Lifecycle.EMPTY_STORE.(row := Some(Lifecycle.NewRow(cfg, Status.Queued, None)), queued := ok),
           [Lifecycle.Done]))
  {
    var insert, publish := Lifecycle.InsertBatchRow(at), Lifecycle.Act(0, Lifecycle.Publish(ok));
    assert [insert][..0] == [] && [insert, publish][..1] == [insert];
    assert Lifecycle.Run(cfg, Lifecycle.EMPTY, [insert]) == Lifecycle.Step(cfg, Lifecycle.EMPTY, insert);
    if at.None? {
      var inserted := Lifecycle.Step(cfg, Lifecycle.EMPTY, insert).value;
      assert inserted.hands == [Lifecycle.Publishing];
      assert inserted.hands[0 := Lifecycle.Done] == [Lifecycle.Done];
      assert Lifecycle.Run(cfg, Lifecycle.EMPTY, [insert, publish]) == Lifecycle.Step(cfg, inserted, publish);
    }
  }

  /** A create with a new id leaves every message in its own channel's queue. */
  lemma {:induction false} CreateKeepsHomed(s: Api, req: Request, channel: Channel, w: Answers, r: Result<Id>, s': Api)
    requires Puts(s, req, channel, w, r, s') && Unsent(s.queues, w.id) && Queue.Homed(s.rows, s.queues)
    ensures Queue.Homed(s'.rows, s'.queues)
  {
    forall c: Channel, m: Queue.Message | m in Queue.Of(s'.queues, c) && m.id in s'.rows
      ensures s'.rows[m.id].channel == c
    {
      if m !in Queue.Of(s.queues, c) {
        assert m == CreatedMessage(req, channel, w);
      }
    }
  }

  lemma {:induction false} SentIsHome(
    rows: Rows, queues: map<Channel, Queue.Scores>, drafts: seq<Draft>, w: World, c: Channel, m: Queue.Message)
    requires Insertable(rows, drafts) && Queue.Homed(rows, queues)
    requires forall k :: 0 <= k < |drafts| ==> Unsent(queues, drafts[k].0)
    requires m in Queue.Of(Sent(queues, drafts, w), c) && m.id in InsertAll(rows, drafts)
    ensures InsertAll(rows, drafts)[m.id].channel == c
  {
    var msgs := Messages(drafts);
    InsertAllHolds(rows, drafts);
    if m !in Queue.Of(queues, c) {
      Queue.PipelinedMembers(queues, msgs, Readings(|msgs|, w.enqueueClock), w.lands, m, c);
      MessagesAreTheUnscheduled(drafts, m);
      var k :| 0 <= k < |drafts| && m == Queue.MessageOf(drafts[k].0, drafts[k].1);
      assert InsertAll(rows, drafts)[drafts[k].0] == drafts[k].1;
    }
  }

  /** So does a batch. */
  lemma {:induction false} BatchKeepsHomed(
    rows: Rows, queues: map<Channel, Queue.Scores>, drafts: seq<Draft>, w: World)
    requires Insertable(rows, drafts) && Queue.Homed(rows, queues)
    requires forall k :: 0 <= k < |drafts| ==> Unsent(queues, drafts[k].0)
    ensures Queue.Homed(InsertAll(rows, drafts), Sent(queues, drafts, w))
  {
    forall c: Channel, m: Queue.Message
      | m in Queue.Of(Sent(queues, drafts, w), c) && m.id in InsertAll(rows, drafts)
      ensures InsertAll(rows, drafts)[m.id].channel == c
    {
      SentIsHome(rows, queues, drafts, w, c, m);
    }
  }
}
