/** The scheduler and the retry poller of internal/service/scheduler.go. */
module Scheduler {
  import opened Domain
  import opened Creation
  import Queue

  const POLL_LIMIT: nat := 100

  function Messages(rows: Rows, picked: seq<Id>): (msgs: seq<Queue.Message>)
    requires forall id :: id in picked ==> id in rows
    ensures |msgs| == |picked| && forall i :: 0 <= i < |msgs| ==> msgs[i] == Queue.MessageOf(picked[i], rows[picked[i]])
  {
    if picked == [] then []
    else
      var front, last := picked[..|picked| - 1], picked[|picked| - 1];
      Messages(rows, front) + [Queue.MessageOf(last, rows[last])]
  }

  /** Every picked row's message that reaches Redis is in its channel's queue, with the score of its own reading. */
  ghost predicate Enqueues(
    rows: Rows, picked: seq<Id>, now: seq<int>, lands: Queue.Message -> bool, queues: map<Channel, Queue.Scores>)
    requires |picked| == |now| && forall id :: id in picked ==> id in rows
  {
    forall k | 0 <= k < |picked| ::
      var n := rows[picked[k]];
      var m := Queue.Message(picked[k], n.channel, n.priority);
      lands(m) ==>
        m in Queue.Of(queues, n.channel) && Queue.Of(queues, n.channel)[m] == n.priority * 10_000_000_000_000 + now[k]
  }

  lemma {:induction false} PolledScores(
    rows: Rows, queues: map<Channel, Queue.Scores>, picked: seq<Id>, now: seq<int>, lands: Queue.Message -> bool)
    requires Distinct(picked) && |now| == |picked| && forall id :: id in picked ==> id in rows
    ensures Enqueues(rows, picked, now, lands, Queue.Pipelined(queues, Messages(rows, picked), now, lands))
  {
    var msgs := Messages(rows, picked);
    forall k | 0 <= k < |picked| && lands(msgs[k])
      ensures var q := Queue.Of(Queue.Pipelined(queues, msgs, now, lands), msgs[k].channel);
        msgs[k] in q && q[msgs[k]] == msgs[k].priority * 10_000_000_000_000 + now[k]
    {
      Queue.PipelinedScore(queues, msgs, now, lands, k);
    }
  }

  class PollingService {
    const poller: Poller
    const repo: NotificationRepo
    const queue: Queue.RedisQueue

    ghost predicate Valid()
      reads repo, queue
    {
      repo.Valid() && queue.Valid()
    }

    constructor (poller: Poller, repo: NotificationRepo, queue: Queue.RedisQueue)
      requires repo.Valid() && queue.Valid()
      ensures Valid() && this.poller == poller && this.repo == repo && this.queue == queue
    {
      this.poller, this.repo, this.queue := poller, repo, queue;
    }

    /** The messages of the claimed rows go out in one pipeline. */
    method Publish(ghost rows: Rows, picked: seq<Id>, clock: seq<int>, lands: Queue.Message -> bool)
      requires queue.Valid() && Distinct(picked) && |clock| == |picked|
      requires repo.rows == Requeued(rows, picked) && forall id :: id in picked ==> id in rows
      modifies queue
      ensures queue.Valid() && Enqueues(rows, picked, clock, lands, queue.queues)
      ensures queue.queues == Queue.Pipelined(old(queue.queues), Messages(rows, picked), clock, lands)
    {
      var msgs: seq<Queue.Message> := [];
      for i := 0 to |picked|
        invariant msgs == Messages(rows, picked[..i])
      {
        assert picked[..i + 1][..i] == picked[..i];
        var n := repo.rows[picked[i]];
        msgs := msgs + [Queue.MessageOf(picked[i], n)];
      }
      assert picked[..|picked|] == picked;
      queue.EnqueueBatch(msgs, clock, lands);
      PolledScores(rows, old(queue.queues), picked, clock, lands);
    }

    /** `poll`. The rows are claimed before anything is enqueued: one whose message does not reach Redis stays
        queued without it. */
    method Poll(now: int, locked: set<Id>, clock: seq<int>, lands: Queue.Message -> bool) returns (picked: seq<Id>)
      requires Valid() && |clock| == POLL_LIMIT
      modifies repo, queue
      ensures Valid() && Picks(old(repo.rows), poller, now, locked, 100, picked)
      ensures poller.SchedulerPoll? ==> TakesScheduled(old(repo.rows), now, locked, 100, picked)
      ensures poller.RetryPoll? ==> TakesFailed(old(repo.rows), now, locked, 100, picked)
      ensures repo.rows == Requeued(old(repo.rows), picked) && MarksQueued(old(repo.rows), picked, repo.rows)
      ensures Enqueues(old(repo.rows), picked, clock[..|picked|], lands, queue.queues)
      ensures queue.queues
           == Queue.Pipelined(old(queue.queues), Messages(old(repo.rows), picked), clock[..|picked|], lands)
    {
      ghost var rows := repo.rows;
      picked := repo.Claim(poller, now, locked, POLL_LIMIT);
      if |picked| == 0 {
        return;
      }
      Publish(rows, picked, clock[..|picked|], lands);
    }
  }
}

/** What a poll does to each notification, and that a backlog is worked off oldest first. */
module PollingOrder {
  import opened Domain
  import opened Creation
  import opened ProtocolSteps
  import opened Scheduler
  import Queue
  import Lifecycle

  function PollEvent(poller: Poller, now: int): Lifecycle.Event {
    match poller
    case SchedulerPoll => Lifecycle.PollScheduled(now)
    case RetryPoll => Lifecycle.PollRetry(now)
  }

  lemma {:induction false} ClaimThenPublish(
    cfg: Lifecycle.Config, c: Lifecycle.Cell, poller: Poller, now: int, ok: bool)
    requires c.store.row.Some? && Due(poller, c.store.row.value, now)
    ensures var claimed := Lifecycle.SetStatus(c.store, Status.Queued);
      Lifecycle.Run(cfg, c, [PollEvent(poller, now), Lifecycle.Act(|c.hands|, Lifecycle.Publish(ok))])
      == Some(Lifecycle.Cell(claimed.(queued := c.store.queued || ok), c.hands + [Lifecycle.Done]))
  {
    var claim, publish := PollEvent(poller, now), Lifecycle.Act(|c.hands|, Lifecycle.Publish(ok));
    assert [claim, publish][..1] == [claim] && [claim][..0] == [];
    assert Lifecycle.Run(cfg, c, [claim]) == Lifecycle.Step(cfg, c, claim);
    assert (c.hands + [Lifecycle.Publishing])[|c.hands| := Lifecycle.Done] == c.hands + [Lifecycle.Done];
  }

  /** A poll is, for each row it picks, the protocol's claim followed by its enqueue, which fails if the message
      does not reach Redis; other rows see nothing. */
  lemma {:induction false} PollIsClaimThenEnqueue(
    cfg: Lifecycle.Config, rows: Rows, queues: map<Channel, Queue.Scores>, poller: Poller, now: int, locked: set<Id>,
    picked: seq<Id>, clock: seq<int>, lands: Queue.Message -> bool, id: Id, c: Lifecycle.Cell)
    requires Picks(rows, poller, now, locked, POLL_LIMIT, picked) && |clock| == |picked|
    requires id in rows && Holds(rows, queues, id, c.store)
    ensures var publish := Lifecycle.Publish(lands(Queue.MessageOf(id, rows[id])));
      var events := [PollEvent(poller, now), Lifecycle.Act(|c.hands|, publish)];
      var end := if id in picked then Lifecycle.Run(cfg, c, events) else Some(c);
      var queues' := Queue.Pipelined(queues, Messages(rows, picked), clock, lands);
      end.Some? && Holds(Requeued(rows, picked), queues', id, end.value.store)
  {
    var m := Queue.MessageOf(id, rows[id]);
    Queue.PipelinedMembers(queues, Messages(rows, picked), clock, lands, m, m.channel);
    if id in picked {
      ClaimThenPublish(cfg, c, poller, now, lands(m));
      var k :| 0 <= k < |picked| && picked[k] == id;
      assert Messages(rows, picked)[k] == m;
    }
  }

  /** A poll leaves every message in its own channel's queue. */
  lemma {:induction false} PollKeepsHomed(
    rows: Rows, queues: map<Channel, Queue.Scores>, picked: seq<Id>, clock: seq<int>, lands: Queue.Message -> bool)
    requires Queue.Homed(rows, queues) && |clock| == |picked| && forall id :: id in picked ==> id in rows
    ensures Queue.Homed(Requeued(rows, picked), Queue.Pipelined(queues, Messages(rows, picked), clock, lands))
  {
    var msgs := Messages(rows, picked);
    forall c: Channel, m: Queue.Message | m in Queue.Of(Queue.Pipelined(queues, msgs, clock, lands), c) && m.id in rows
      ensures rows[m.id].channel == c
    {
      Queue.PipelinedMembers(queues, msgs, clock, lands, m, c);
    }
  }

  /** The rows that are due as soon as `id` is. */
  function Backlog(rows: Rows, poller: Poller, id: Id): set<Id>
    requires id in rows
  {
    var at := DueAt(poller, rows[id].row);
    set x | x in rows && at.Some? && Due(poller, rows[x].row, at.value)
  }

  function Members(ids: seq<Id>): set<Id> {
    set id | id in ids
  }

  lemma {:induction false} DistinctCount(ids: seq<Id>)
    requires Distinct(ids)
    ensures |Members(ids)| == |ids|
  {
    if ids != [] {
      var front, last := ids[..|ids| - 1], ids[|ids| - 1];
      DistinctCount(front);
      assert ids == front + [last] && last !in front;
      assert Members(ids) == Members(front) + {last};
    }
  }

  /** One poll either takes a due row or takes a full hundred of the rows due by its own time. */
  lemma {:induction false} BacklogShrinks(rows: Rows, poller: Poller, now: int, picked: seq<Id>, id: Id)
    requires Picks(rows, poller, now, {}, POLL_LIMIT, picked)
    requires id in rows && Due(poller, rows[id].row, now) && id !in picked
    ensures Requeued(rows, picked)[id] == rows[id]
    ensures |Backlog(Requeued(rows, picked), poller, id)| == |Backlog(rows, poller, id)| - POLL_LIMIT
  {
    var taken := Members(picked);
    DistinctCount(picked);
    assert taken <= Backlog(rows, poller, id);
    assert Backlog(Requeued(rows, picked), poller, id) == Backlog(rows, poller, id) - taken;
  }

  /** Polls one after another, with clock readings `nows`, on a table nobody else changes. */
  ghost predicate Polls(rows: Rows, poller: Poller, nows: seq<int>, picks: seq<seq<Id>>) {
    |nows| == |picks| &&
    (nows != [] ==>
      && Picks(rows, poller, nows[0], {}, POLL_LIMIT, picks[0])
      && Polls(Requeued(rows, picks[0]), poller, nows[1..], picks[1..]))
  }

  /** A due row is picked within one poll for every started hundred of rows due by its own time. */
  lemma {:induction false} PickedInTurn(rows: Rows, poller: Poller, nows: seq<int>, picks: seq<seq<Id>>, id: Id)
    requires Polls(rows, poller, nows, picks)
    requires id in rows && forall i :: 0 <= i < |nows| ==> Due(poller, rows[id].row, nows[i])
    requires |nows| * POLL_LIMIT >= |Backlog(rows, poller, id)| && nows != []
    ensures exists i :: 0 <= i < |picks| && id in picks[i]
  {
    if id in picks[0] {
    } else {
      BacklogShrinks(rows, poller, nows[0], picks[0], id);
      var rows' := Requeued(rows, picks[0]);
      assert id in Backlog(rows', poller, id);
      PickedInTurn(rows', poller, nows[1..], picks[1..], id);
      var i :| 0 <= i < |picks[1..]| && id in picks[1..][i];
      assert id in picks[i + 1];
    }
  }
}
