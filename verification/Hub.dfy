/** The event hub of internal/adapter/event/hub.go: `Run` serves registrations, unregistrations and
    broadcasts one at a time; every client has a send channel of capacity 256, which its writePump
    drains. A removed client's channel is closed, either on unregistration or when it is full. */
module Hub {
  import opened Domain

  type Client = nat

  datatype StatusEvent = StatusEvent(notification: Id, batch: string, status: Status)

  const CAPACITY: nat := 256

  /** A branch of the select in `Run`, or writePump's receive on one client's channel. */
  datatype Input =
    | Join(client: Client, batch: string)
    | Leave(client: Client)
    | Broadcast(event: StatusEvent)
    | Receive(client: Client)

  /** The life of one client: everything its buffer was given, and how much of that it has received. */
  datatype Life =
    | Unknown
    | Live(batch: string, given: seq<StatusEvent>, taken: nat)
    | Removed(batch: string, given: seq<StatusEvent>, taken: nat)

  /** An empty filter takes every event. */
  predicate Wants(batch: string, event: StatusEvent) {
    batch == "" || batch == event.batch
  }

  function Next(client: Client, life: Life, input: Input): Life {
    match input
    case Join(c, batch) => if c == client then Live(batch, [], 0) else life
    case Leave(c) => if c == client && life.Live? then Removed(life.batch, life.given, life.taken) else life
    case Broadcast(e) =>
      if !life.Live? || !Wants(life.batch, e) then life
      else if |life.given| < life.taken + CAPACITY then Live(life.batch, life.given + [e], life.taken)
      else Removed(life.batch, life.given, life.taken)
    case Receive(c) =>
      if c == client && !life.Unknown? && life.taken < |life.given| then life.(taken := life.taken + 1) else life
  }

  function LifeOf(client: Client, history: seq<Input>): Life {
    if history == [] then Unknown
    else Next(client, LifeOf(client, history[..|history| - 1]), history[|history| - 1])
  }

  /** `Register` makes a new Client object each time. */
  predicate FreshJoins(history: seq<Input>) {
    forall i, j :: 0 <= i < j < |history| && history[i].Join? && history[j].Join? ==>
      history[i].client != history[j].client
  }

  /** A Go channel with its client's filter. Sending on or closing a closed channel panics. */
  datatype Chan = Chan(batch: string, buffer: seq<StatusEvent>, closed: bool)

  class EventHub {
    var clients: set<Client>
    var chans: map<Client, Chan>
    ghost var history: seq<Input>

    ghost predicate Mirrors(c: Client, life: Life)
      reads this
    {
      match life
      case Unknown => c !in clients && c !in chans
      case Live(batch, given, taken) =>
        && c in clients && c in chans
        && taken <= |given| <= taken + CAPACITY && chans[c] == Chan(batch, given[taken..], false)
      case Removed(batch, given, taken) =>
        && c !in clients && c in chans
        && taken <= |given| <= taken + CAPACITY && chans[c] == Chan(batch, given[taken..], true)
    }

    ghost predicate Valid()
      reads this
    {
      forall c: Client :: Mirrors(c, LifeOf(c, history))
    }

    constructor ()
      ensures Valid() && history == []
    {
      clients, chans, history := {}, map[], [];
    }

    /** close(client.send) */
    method Close(c: Client)
      requires c in chans && !chans[c].closed
      modifies this`chans
      ensures chans == old(chans)[c := old(chans[c]).(closed := true)]
    {
      chans := chans[c := chans[c].(closed := true)];
    }

    /** client.send <- data, in a select with a default branch */
    method TrySend(c: Client, e: StatusEvent) returns (sent: bool)
      requires c in chans && !chans[c].closed
      modifies this`chans
      ensures sent == (|old(chans[c]).buffer| < 256)
      ensures var ch := old(chans[c]);
        chans == if sent then old(chans)[c := ch.(buffer := ch.buffer + [e])] else old(chans)
    {
      sent := |chans[c].buffer| < CAPACITY;
      if sent {
        chans := chans[c := chans[c].(buffer := chans[c].buffer + [e])];
      }
    }

    method Register(c: Client, batch: string)
      requires Valid() && c !in chans
      modifies this
      ensures Valid() && history == old(history) + [Join(c, batch)]
    {
      Extends(history, Join(c, batch));
      chans := chans[c := Chan(batch, [], false)];
      clients := clients + {c};
      history := history + [Join(c, batch)];
      forall d: Client ensures Mirrors(d, LifeOf(d, history)) {
        assert old(Mirrors(d, LifeOf(d, history)));
      }
    }

    method Unregister(c: Client)
      requires Valid()
      modifies this
      ensures Valid() && history == old(history) + [Leave(c)]
    {
      Extends(history, Leave(c));
      assert Mirrors(c, LifeOf(c, history));
      if c in clients {
        clients := clients - {c};
        Close(c);
      }
      history := history + [Leave(c)];
      forall d: Client ensures Mirrors(d, LifeOf(d, history)) {
        assert old(Mirrors(d, LifeOf(d, history)));
      }
    }

    /** One client's turn in the loop over the clients. */
    method Offer(c: Client, e: StatusEvent, ghost life: Life)
      requires c in clients && Mirrors(c, life)
      modifies this`clients, this`chans
      ensures Mirrors(c, Next(c, life, Broadcast(e)))
      ensures clients == old(clients) || clients == old(clients) - {c}
      ensures chans.Keys == old(chans).Keys && forall d :: d in chans && d != c ==> chans[d] == old(chans)[d]
    {
      var batch := chans[c].batch;
      if batch != "" && batch != e.batch {
        return;
      }
      var sent := TrySend(c, e);
      if sent {
        assert (life.given + [e])[life.taken..] == life.given[life.taken..] + [e];
      } else {
        Close(c);
        clients := clients - {c};
      }
    }

    /** The broadcast branch: the event goes to every client that wants it and has room. */
    method Deliver(e: StatusEvent)
      requires Valid()
      modifies this
      ensures Valid() && history == old(history) + [Broadcast(e)]
    {
      Extends(history, Broadcast(e));
      var todo := clients;
      while todo != {}
        invariant history == old(history) && todo <= clients <= old(clients)
        invariant forall c :: c in todo ==> Mirrors(c, LifeOf(c, old(history)))
        invariant forall c :: c !in todo ==> Mirrors(c, Next(c, LifeOf(c, old(history)), Broadcast(e)))
        decreases todo
      {
        var c :| c in todo;
        label before:
        Offer(c, e, LifeOf(c, history));
        todo := todo - {c};
        forall d | d in todo ensures Mirrors(d, LifeOf(d, old(history))) {
          assert old@before(Mirrors(d, LifeOf(d, history)));
        }
        forall d | d !in todo ensures Mirrors(d, Next(d, LifeOf(d, old(history)), Broadcast(e))) {
          assert d != c ==> old@before(Mirrors(d, Next(d, LifeOf(d, history), Broadcast(e))));
        }
      }
      history := history + [Broadcast(e)];
      forall d: Client ensures Mirrors(d, LifeOf(d, history)) {
        assert LifeOf(d, history) == Next(d, LifeOf(d, old(history)), Broadcast(e));
      }
    }

    /** writePump: what is still buffered is received even after the channel was closed. */
    method Take(c: Client) returns (e: Option<StatusEvent>)
      requires Valid()
      modifies this
      ensures Valid() && history == old(history) + [Receive(c)]
      ensures var life := LifeOf(c, old(history));
        e == if !life.Unknown? && life.taken < |life.given| then Some(life.given[life.taken]) else None
    {
      Extends(history, Receive(c));
      assert Mirrors(c, LifeOf(c, history));
      e := None;
      if c in chans && chans[c].buffer != [] {
        e := Some(chans[c].buffer[0]);
        chans := chans[c := chans[c].(buffer := chans[c].buffer[1..])];
      }
      history := history + [Receive(c)];
      forall d: Client ensures Mirrors(d, LifeOf(d, history)) {
        assert old(Mirrors(d, LifeOf(d, history)));
      }
    }
  }

  lemma {:induction false} Extends(history: seq<Input>, input: Input)
    ensures forall c: Client :: LifeOf(c, history + [input]) == Next(c, LifeOf(c, history), input)
  {
    assert (history + [input])[..|history|] == history;
  }
}

/** What each client's buffer was given. */
module HubStream {
  import opened Hub

  function Broadcasts(inputs: seq<Input>): seq<StatusEvent> {
    if inputs == [] then []
    else
      var earlier, last := Broadcasts(inputs[..|inputs| - 1]), inputs[|inputs| - 1];
      if last.Broadcast? then earlier + [last.event] else earlier
  }

  function OfBatch(events: seq<StatusEvent>, batch: string): seq<StatusEvent> {
    if events == [] then []
    else
      var earlier, last := OfBatch(events[..|events| - 1], batch), events[|events| - 1];
      if last.batch == batch then earlier + [last] else earlier
  }

  /** Every broadcast for a client without a batch, and those of its batch for any other. */
  function Matching(inputs: seq<Input>, batch: string): seq<StatusEvent> {
    if batch == "" then Broadcasts(inputs) else OfBatch(Broadcasts(inputs), batch)
  }

  lemma {:induction false} MatchingGrows(inputs: seq<Input>, input: Input, batch: string)
    ensures Matching(inputs + [input], batch)
         == Matching(inputs, batch)
          + if input.Broadcast? && (batch == "" || batch == input.event.batch) then [input.event] else []
  {
    assert (inputs + [input])[..|inputs|] == inputs;
    if input.Broadcast? {
      assert (Broadcasts(inputs) + [input.event])[..|Broadcasts(inputs)|] == Broadcasts(inputs);
    }
  }

  /** Between joining at `from` and leaving at `to` the client was given every matching broadcast. */
  predicate Streamed(history: seq<Input>, client: Client, batch: string, given: seq<StatusEvent>, from: nat, to: nat) {
    && from < to <= |history|
    && history[from] == Join(client, batch)
    && given == Matching(history[from + 1..to], batch)
  }

  /** Why the client is gone: it left, or a broadcast it wants found its buffer full. */
  predicate RemovedBy(history: seq<Input>, client: Client, batch: string, to: nat) {
    to < |history| &&
    (history[to] == Leave(client)
     || (history[to].Broadcast? && (batch == "" || batch == history[to].event.batch)
         && var life := LifeOf(client, history[..to]); life.Live? && |life.given| - life.taken == 256))
  }

  lemma {:induction false} NeverOverfull(history: seq<Input>, client: Client)
    ensures var life := LifeOf(client, history);
      !life.Unknown? ==> life.taken <= |life.given| <= life.taken + 256
  {
    if history != [] {
      NeverOverfull(history[..|history| - 1], client);
    }
  }

  lemma {:induction false} JoinedSomewhere(history: seq<Input>, client: Client) returns (i: nat)
    requires !LifeOf(client, history).Unknown?
    ensures i < |history| && history[i].Join? && history[i].client == client
  {
    var front := history[..|history| - 1];
    if LifeOf(client, front).Unknown? {
      i := |history| - 1;
    } else {
      i := JoinedSomewhere(front, client);
    }
  }

  lemma {:induction false} StreamGrows(
    history: seq<Input>, input: Input, client: Client, batch: string, given: seq<StatusEvent>, from: nat, to: nat)
    requires Streamed(history, client, batch, given, from, to)
    ensures Streamed(history + [input], client, batch, given, from, to)
    ensures to == |history| ==>
      Streamed(history + [input], client, batch,
               if input.Broadcast? && (batch == "" || batch == input.event.batch) then given + [input.event] else given,
               from, to + 1)
    ensures RemovedBy(history, client, batch, to) ==> RemovedBy(history + [input], client, batch, to)
  {
    var longer := history + [input];
    assert longer[from + 1..to] == history[from + 1..to];
    if to == |history| {
      MatchingGrows(history[from + 1..to], input, batch);
      assert longer[from + 1..to + 1] == history[from + 1..to] + [input];
    }
    if to < |history| {
      assert longer[..to] == history[..to];
    }
  }

  /** A live client was given its stream so far, and a removed one its stream up to its removal. */
  predicate GivenItsStream(history: seq<Input>, client: Client, from: nat, to: nat) {
    var life := LifeOf(client, history);
    && !life.Unknown? && Streamed(history, client, life.batch, life.given, from, to)
    && (if life.Live? then to == |history| else RemovedBy(history, client, life.batch, to))
  }

  lemma {:induction false} StreamGoesOn(front: seq<Input>, input: Input, client: Client, from: nat, to: nat)
    returns (to': nat)
    requires GivenItsStream(front, client, from, to) && (input.Join? ==> input.client != client)
    ensures GivenItsStream(front + [input], client, from, to')
  {
    var before, history := LifeOf(client, front), front + [input];
    assert history[..|history| - 1] == front;
    StreamGrows(front, input, client, before.batch, before.given, from, to);
    NeverOverfull(front, client);
    to' := if LifeOf(client, history).Live? then to + 1 else to;
    assert before.Live? ==> history[..to] == front;
  }

  /** For every sequence of joins, leaves, broadcasts and receives, each client is given exactly the
      broadcasts of its batch, or all if it named none, in order and without a gap, from its registration up to
      the one moment it is removed; a live client has missed none. */
  lemma {:induction false} GivenExactlyItsStream(history: seq<Input>, client: Client) returns (from: nat, to: nat)
    requires FreshJoins(history) && !LifeOf(client, history).Unknown?
    ensures var life := LifeOf(client, history);
      && Streamed(history, client, life.batch, life.given, from, to)
      && (if life.Live? then to == |history| else RemovedBy(history, client, life.batch, to))
  {
    var n := |history| - 1;
    var front, input := history[..n], history[n];
    assert history == front + [input];
    if LifeOf(client, front).Unknown? {
      from, to := n, n + 1;
      assert history[from + 1..to] == [];
    } else {
      from, to := GivenExactlyItsStream(front, client);
      if input.Join? && input.client == client {
        var j := JoinedSomewhere(front, client);
        assert false;
      }
      to := StreamGoesOn(front, input, client, from, to);
    }
  }
}
