/** Concurrent single creates with idempotency keys (internal/service/notification.go:79-127): the look-up,
    the insert, the status update and the enqueue are separate steps, and any number of creates, batches and
    other writers interleave. */
module Idempotency {
  import opened Domain
  import opened Creation

  /** A create, by its next step or by how it ended. `e` is the row it means to insert. */
  datatype Call =
    | Looking(id: Id, e: Notification)
    | Inserting(id: Id, e: Notification)
    | Marking(id: Id, e: Notification)
    | Enqueuing(id: Id, e: Notification)
    | Returned(id: Id, key: Option<string>)
    | Refused(key: Option<string>)

  /** `sent` says which create enqueued which notification. */
  datatype State = State(rows: Rows, calls: seq<Call>, sent: seq<(nat, Id)>)

  datatype Action =
    | Begin(id: Id, e: Notification)
    | Move(i: nat)
    | Fault(i: nat)                  // the next step of the call fails
    | Crash(i: nat)                  // the call stops for good
    | Batch(drafts: seq<Draft>)      // the transaction of a CreateBatch
    | Write(id: Id, row: Row)        // any other component updates a row

  /** The row `GetByIdempotencyKey` finds. */
  ghost function RowOf(rows: Rows, key: Option<string>): (id: Id)
    requires KeyTaken(rows, key)
    ensures id in rows && rows[id].key == key
  {
    var id :| id in rows && rows[id].key == key;
    id
  }

  predicate Moves(s: State, i: nat) {
    i < |s.calls| && !s.calls[i].Returned? && !s.calls[i].Refused?
  }

  ghost function Moved(s: State, i: nat): State
    requires Moves(s, i)
  {
    match s.calls[i]
    case Looking(id, e) =>
      if KeyTaken(s.rows, e.key) then s.(calls := s.calls[i := Returned(RowOf(s.rows, e.key), e.key)])
      else s.(calls := s.calls[i := Inserting(id, e)])
    case Inserting(id, e) =>
      if Violates(s.rows, id, e) then s.(calls := s.calls[i := Refused(e.key)])
      else s.(rows := s.rows[id := e],
              calls := s.calls[i := if e.row.status == Scheduled then Returned(id, e.key) else Marking(id, e)])
    case Marking(id, e) =>
      s.(rows := if id in s.rows then s.rows[id := WithStatus(s.rows[id], Status.Queued)] else s.rows,
         calls := s.calls[i := Enqueuing(id, e)])
    case Enqueuing(id, e) =>
      s.(calls := s.calls[i := Returned(id, e.key)], sent := s.sent + [(i, id)])
  }

  /** A failed look-up or insert fails the create; a failed update or enqueue is only logged. */
  function Faulted(call: Call): Call
    requires !call.Returned? && !call.Refused?
  {
    match call
    case Looking(_, e) => Refused(e.key)
    case Inserting(_, e) => Refused(e.key)
    case Marking(id, e) => Enqueuing(id, e)
    case Enqueuing(id, e) => Returned(id, e.key)
  }

  ghost function Step(s: State, a: Action): State {
    match a
    case Begin(id, e) =>
      s.(calls := s.calls + [if e.key.Some? then Looking(id, e) else Inserting(id, e)])
    case Move(i) => if Moves(s, i) then Moved(s, i) else s
    case Fault(i) => if Moves(s, i) then s.(calls := s.calls[i := Faulted(s.calls[i])]) else s
    case Crash(i) => if Moves(s, i) then s.(calls := s.calls[i := Refused(s.calls[i].e.key)]) else s
    case Batch(drafts) => if Insertable(s.rows, drafts) then s.(rows := InsertAll(s.rows, drafts)) else s
    case Write(id, row) => if id in s.rows then s.(rows := s.rows[id := s.rows[id].(row := row)]) else s
  }

  ghost function Run(s: State, actions: seq<Action>): State {
    if actions == [] then s else Step(Run(s, actions[..|actions| - 1]), actions[|actions| - 1])
  }

  /** The call has inserted its row, and will enqueue it. */
  predicate Owes(call: Call) {
    call.Marking? || call.Enqueuing?
  }

  predicate HasRow(rows: Rows, id: Id, key: Option<string>) {
    id in rows && rows[id].key == key
  }

  predicate Backed(rows: Rows, call: Call) {
    && (Owes(call) ==> HasRow(rows, call.id, call.e.key))
    && (call.Returned? ==> HasRow(rows, call.id, call.key))
  }

  predicate SentBy(s: State, k: nat)
    requires k < |s.sent|
  {
    var i := s.sent[k].0;
    i < |s.calls| && s.calls[i].Returned? && s.calls[i].id == s.sent[k].1
  }

  ghost predicate Sound(s: State) {
    && KeysUnique(s.rows)
    && (forall i :: 0 <= i < |s.calls| ==> Backed(s.rows, s.calls[i]))
    && (forall i, j :: 0 <= i < j < |s.calls| && Owes(s.calls[i]) && Owes(s.calls[j]) ==>
          s.calls[i].id != s.calls[j].id)
    && (forall i, k :: 0 <= i < |s.calls| && 0 <= k < |s.sent| && Owes(s.calls[i]) ==> s.calls[i].id != s.sent[k].1)
    && (forall k :: 0 <= k < |s.sent| ==> SentBy(s, k))
    && (forall k, l :: 0 <= k < l < |s.sent| ==> s.sent[k].1 != s.sent[l].1)
  }

  lemma {:induction false} RowsGrow(s: State, rows': Rows)
    requires Sound(s) && KeepsKeys(s.rows, rows') && KeysUnique(rows')
    ensures Sound(s.(rows := rows'))
  {
    forall k | 0 <= k < |s.sent| ensures SentBy(s.(rows := rows'), k) {
      assert SentBy(s, k);
    }
  }

  /** One call moves on without touching a row or the log, and owes no more than before. */
  lemma {:induction false} CallMoves(s: State, i: nat, call: Call)
    requires Sound(s) && Moves(s, i) && Backed(s.rows, call)
    requires Owes(call) ==> Owes(s.calls[i]) && call.id == s.calls[i].id
    ensures Sound(s.(calls := s.calls[i := call]))
  {
    var s' := s.(calls := s.calls[i := call]);
    forall k | 0 <= k < |s.sent| ensures SentBy(s', k) {
      assert SentBy(s, k);
    }
  }

  lemma {:induction false} InsertIsSound(s: State, i: nat)
    requires Sound(s) && Moves(s, i) && s.calls[i].Inserting? && !Violates(s.rows, s.calls[i].id, s.calls[i].e)
    ensures Sound(Moved(s, i))
  {
    var s', id := Moved(s, i), s.calls[i].id;
    assert KeysUnique(s'.rows);
    forall j | 0 <= j < |s.calls| && j != i ensures Backed(s'.rows, s'.calls[j]) && (Owes(s.calls[j]) ==>
      s.calls[j].id != id) {
      assert Backed(s.rows, s.calls[j]);
    }
    forall k | 0 <= k < |s.sent| ensures SentBy(s', k) && s.sent[k].1 != id {
      assert SentBy(s, k);
      assert Backed(s.rows, s.calls[s.sent[k].0]);
    }
  }

  lemma {:induction false} EnqueueIsSound(s: State, i: nat)
    requires Sound(s) && Moves(s, i) && s.calls[i].Enqueuing?
    ensures Sound(Moved(s, i))
  {
    var s' := Moved(s, i);
    CallMoves(s, i, Returned(s.calls[i].id, s.calls[i].e.key));
    forall k | 0 <= k < |s'.sent| ensures SentBy(s', k) {
      if k < |s.sent| {
        assert SentBy(s.(calls := s'.calls), k);
      }
    }
    forall j | 0 <= j < |s.calls| && j != i && Owes(s.calls[j]) ensures s.calls[j].id != s.calls[i].id {
    }
  }

  lemma {:induction false} MoveIsSound(s: State, i: nat)
    requires Sound(s) && Moves(s, i)
    ensures Sound(Moved(s, i))
  {
    match s.calls[i]
    case Looking(id, e) =>
      CallMoves(s, i, Moved(s, i).calls[i]);
    case Inserting(id, e) =>
      if Violates(s.rows, id, e) {
        CallMoves(s, i, Refused(e.key));
      } else {
        InsertIsSound(s, i);
      }
    case Marking(id, e) =>
      CallMoves(s, i, Enqueuing(id, e));
      RowsGrow(s.(calls := s.calls[i := Enqueuing(id, e)]), Moved(s, i).rows);
    case Enqueuing(id, e) =>
      EnqueueIsSound(s, i);
  }

  lemma {:induction false} StepIsSound(s: State, a: Action)
    requires Sound(s)
    ensures Sound(Step(s, a)) && KeepsKeys(s.rows, Step(s, a).rows)
  {
    match a
    case Begin(id, e) =>
      var s' := Step(s, a);
      forall k | 0 <= k < |s.sent| ensures SentBy(s', k) {
        assert SentBy(s, k);
      }
    case Move(i) =>
      if Moves(s, i) {
        MoveIsSound(s, i);
      }
    case Fault(i) =>
      if Moves(s, i) {
        CallMoves(s, i, Faulted(s.calls[i]));
      }
    case Crash(i) =>
      if Moves(s, i) {
        CallMoves(s, i, Refused(s.calls[i].e.key));
      }
    case Batch(drafts) =>
      if Insertable(s.rows, drafts) {
        InsertAllKeepsUnique(s.rows, drafts);
        InsertAllHolds(s.rows, drafts);
        RowsGrow(s, InsertAll(s.rows, drafts));
      }
    case Write(id, row) =>
      RowsGrow(s, Step(s, a).rows);
  }

  lemma {:induction false} RunIsSound(s: State, actions: seq<Action>)
    requires Sound(s)
    ensures Sound(Run(s, actions)) && KeepsKeys(s.rows, Run(s, actions).rows)
  {
    if actions != [] {
      RunIsSound(s, actions[..|actions| - 1]);
      StepIsSound(Run(s, actions[..|actions| - 1]), actions[|actions| - 1]);
    }
  }

  predicate Answers(call: Call, key: string) {
    call.Returned? && call.key == Some(key)
  }

  predicate SentFor(s: State, k: nat, key: string)
    requires k < |s.sent|
  {
    HasRow(s.rows, s.sent[k].1, Some(key))
  }

  /** In every interleaving: at most one row per key; all creates that return for a key return that row;
      at most one of them enqueues it, once; and a create that was refused enqueued nothing. */
  lemma {:induction false} IdempotentCreates(rows: Rows, actions: seq<Action>, key: string)
    requires KeysUnique(rows)
    ensures var s := Run(State(rows, [], []), actions);
      forall x, y :: HasRow(s.rows, x, Some(key)) && HasRow(s.rows, y, Some(key)) ==> x == y
    ensures var s := Run(State(rows, [], []), actions);
      forall i, j | 0 <= i < |s.calls| && 0 <= j < |s.calls| && Answers(s.calls[i], key) && Answers(s.calls[j], key) ::
        s.calls[i].id == s.calls[j].id && HasRow(s.rows, s.calls[i].id, Some(key))
    ensures var s := Run(State(rows, [], []), actions);
      forall k, l :: 0 <= k < |s.sent| && 0 <= l < |s.sent| && SentFor(s, k, key) && SentFor(s, l, key) ==> k == l
    ensures var s := Run(State(rows, [], []), actions);
      forall k :: 0 <= k < |s.sent| ==> s.sent[k].0 < |s.calls| && s.calls[s.sent[k].0].Returned?
  {
    RunIsSound(State(rows, [], []), actions);
    var s := Run(State(rows, [], []), actions);
    forall i, j | 0 <= i < |s.calls| && 0 <= j < |s.calls| && Answers(s.calls[i], key) && Answers(s.calls[j], key)
      ensures s.calls[i].id == s.calls[j].id && HasRow(s.rows, s.calls[i].id, Some(key))
    {
      assert Backed(s.rows, s.calls[i]) && Backed(s.rows, s.calls[j]);
    }
    forall k | 0 <= k < |s.sent| ensures s.sent[k].0 < |s.calls| && s.calls[s.sent[k].0].Returned? {
      assert SentBy(s, k);
    }
  }

  predicate Spares(actions: seq<Action>, i: nat) {
    forall k :: 0 <= k < |actions| ==> actions[k] != Move(i) && actions[k] != Fault(i) && actions[k] != Crash(i)
  }

  lemma {:induction false} SparedCallWaits(s: State, actions: seq<Action>, i: nat)
    requires i < |s.calls| && Spares(actions, i)
    ensures i < |Run(s, actions).calls| && Run(s, actions).calls[i] == s.calls[i]
  {
    if actions != [] {
      SparedCallWaits(s, actions[..|actions| - 1], i);
    }
  }

  /** Whether the action at `k` of the run put the key into the table. */
  ghost predicate TakesKey(s: State, actions: seq<Action>, k: nat, key: Option<string>)
    requires k < |actions|
  {
    !KeyTaken(Run(s, actions[..k]).rows, key) && KeyTaken(Run(s, actions[..k + 1]).rows, key)
  }

  lemma {:induction false} KeyStays(s: State, a: Action, key: Option<string>)
    requires Sound(s) && KeyTaken(s.rows, key)
    ensures KeyTaken(Step(s, a).rows, key)
  {
    StepIsSound(s, a);
    var id :| id in s.rows && s.rows[id].key == key;
    assert id in Step(s, a).rows && Step(s, a).rows[id].key == key;
  }

  lemma {:induction false} SomeActionTakesKey(s: State, actions: seq<Action>, key: Option<string>)
    requires Sound(s) && !KeyTaken(s.rows, key)
    ensures KeyTaken(Run(s, actions).rows, key) <==> exists k :: 0 <= k < |actions| && TakesKey(s, actions, k, key)
  {
    if actions != [] {
      var n := |actions| - 1;
      var front := actions[..n];
      SomeActionTakesKey(s, front, key);
      forall k | 0 <= k < n ensures TakesKey(s, actions, k, key) <==> TakesKey(s, front, k, key) {
        assert actions[..k] == front[..k] && actions[..k + 1] == front[..k + 1];
      }
      assert actions[..n + 1] == actions;
      if KeyTaken(Run(s, front).rows, key) {
        RunIsSound(s, front);
        KeyStays(Run(s, front), actions[n], key);
        var k :| 0 <= k < n && TakesKey(s, front, k, key);
        assert TakesKey(s, actions, k, key);
      } else {
        assert TakesKey(s, actions, n, key) <==> KeyTaken(Run(s, actions).rows, key);
      }
    }
  }

  /** The look-up is not atomic with the insert. A create whose look-up found nothing is refused at its insert
      if and only if some other action took its key in between; it does not get the winner's id. */
  lemma {:induction false} RefusedIffOvertaken(s: State, actions: seq<Action>, i: nat)
    requires Sound(s) && i < |s.calls| && s.calls[i].Looking? && s.calls[i].e.key.Some?
    requires !KeyTaken(s.rows, s.calls[i].e.key) && Spares(actions, i)
    requires s.calls[i].id !in Run(Step(s, Move(i)), actions).rows
    ensures var key, looked := s.calls[i].e.key, Step(s, Move(i));
      var end := Step(Run(looked, actions), Move(i));
      && i < |end.calls|
      && (end.calls[i] == Refused(key) <==> exists k :: 0 <= k < |actions| && TakesKey(looked, actions, k, key))
  {
    var looked := Step(s, Move(i));
    MoveIsSound(s, i);
    SparedCallWaits(looked, actions, i);
    SomeActionTakesKey(looked, actions, s.calls[i].e.key);
  }

  /** It happens: two creates with one key look it up before either inserts, and the second one is refused. */
  lemma {:induction false} RacingCreateIsRefused(key: string, channel: Channel)
    ensures var e := Notification(Some(key), None, channel, 1, Row(Pending, 0, DEFAULT_MAX_RETRIES, None, None));
      var s := Run(State(map[], [], []), [Begin(0, e), Begin(1, e), Move(0), Move(1), Move(0), Move(1)]);
      s.calls == [Marking(0, e), Refused(Some(key))] && s.rows == map[0 := e]
  {
    var e := Notification(Some(key), None, channel, 1, Row(Pending, 0, DEFAULT_MAX_RETRIES, None, None));
    var s0 := State(map[], [], []);
    var acts := [Begin(0, e), Begin(1, e), Move(0), Move(1), Move(0), Move(1)];
    assert acts[..6][..5] == acts[..5] && acts[..5][..4] == acts[..4] && acts[..4][..3] == acts[..3]
        && acts[..3][..2] == acts[..2] && acts[..2][..1] == acts[..1] && acts[..1][..0] == [] && acts[..6] == acts;
    assert Run(s0, acts[..2]).calls == [Looking(0, e), Looking(1, e)] by {
      assert Run(s0, acts[..1]).calls == [Looking(0, e)];
    }
    assert Run(s0, acts[..4]) == State(map[], [Inserting(0, e), Inserting(1, e)], []) by {
      assert Run(s0, acts[..3]) == State(map[], [Inserting(0, e), Looking(1, e)], []);
    }
    var s5 := Run(s0, acts[..5]);
    assert s5 == State(map[0 := e], [Marking(0, e), Inserting(1, e)], []);
    assert s5.rows[0].key == e.key;
  }
}

/** The API's own `Create` is one call of this protocol. */
module CreateCalls {
  import opened Domain
  import opened Creation
  import opened NotificationApi
  import opened Idempotency

  /** The row `Create` inserts. */
  function Inserted(req: Request, channel: Channel): Notification {
    NewNotification(req, channel, None, if req.scheduledAt.Some? then Scheduled else Pending)
  }

  function Step0(fault: bool): Action {
    if fault then Fault(0) else Move(0)
  }

  /** The steps of a create alone: the look-up if it has a key, the insert, and unless it is scheduled the status
      update and the enqueue, each of which may fail. */
  function StepsOf(req: Request, channel: Channel, w: Answers): seq<Action> {
    [Begin(w.id, Inserted(req, channel))]
    + (if req.key.Some? then [Move(0)] else [])
    + [Move(0)]
    + (if req.scheduledAt.Some? then [] else [Step0(w.statusFault), Step0(w.redisFault)])
  }

  lemma {:induction false} RunSplit(s: State, xs: seq<Action>, ys: seq<Action>)
    ensures Run(s, xs + ys) == Run(Run(s, xs), ys)
  {
    if ys == [] {
      assert xs + ys == xs;
    } else {
      assert (xs + ys)[..|xs + ys| - 1] == xs + ys[..|ys| - 1];
      RunSplit(s, xs, ys[..|ys| - 1]);
    }
  }

  lemma {:induction false} RunOne(s: State, a: Action)
    ensures Run(s, [a]) == Step(s, a)
  {
    assert [a][..0] == [];
  }

  lemma {:induction false} BeginAndInsert(rows: Rows, req: Request, channel: Channel, w: Answers)
    requires !KeyTaken(rows, req.key) && w.id !in rows
    ensures var n := Inserted(req, channel);
      var call := if req.scheduledAt.Some? then Returned(w.id, req.key) else Marking(w.id, n);
      Run(State(rows, [], []), [Begin(w.id, n)] + (if req.key.Some? then [Move(0)] else []) + [Move(0)])
      == State(rows[w.id := n], [call], [])
  {
    var n, s0 := Inserted(req, channel), State(rows, [], []);
    var looked := State(rows, [Inserting(w.id, n)], []);
    RunOne(s0, Begin(w.id, n));
    if req.key.Some? {
      RunSplit(s0, [Begin(w.id, n)], [Move(0)]);
      RunOne(State(rows, [Looking(w.id, n)], []), Move(0));
      assert [Looking(w.id, n)][0 := Inserting(w.id, n)] == [Inserting(w.id, n)];
    } else {
      assert [Begin(w.id, n)] + [] == [Begin(w.id, n)];
    }
    RunSplit(s0, [Begin(w.id, n)] + (if req.key.Some? then [Move(0)] else []), [Move(0)]);
    RunOne(looked, Move(0));
    assert forall call: Call :: [Inserting(w.id, n)][0 := call] == [call];
  }

  lemma {:induction false} MarkAndEnqueue(rows: Rows, req: Request, channel: Channel, w: Answers)
    requires req.scheduledAt.None?
    ensures var n := Inserted(req, channel);
      Run(State(rows[w.id := n], [Marking(w.id, n)], []), [Step0(w.statusFault), Step0(w.redisFault)])
      == State(rows[w.id := Created(req, channel, w.statusFault)], [Returned(w.id, req.key)],
               if w.redisFault then [] else [(0, w.id)])
  {
    var n := Inserted(req, channel);
    var s := State(rows[w.id := n], [Marking(w.id, n)], []);
    var rows' := rows[w.id := Created(req, channel, w.statusFault)];
    var marked := State(rows', [Enqueuing(w.id, n)], []);
    assert [Step0(w.statusFault), Step0(w.redisFault)] == [Step0(w.statusFault)] + [Step0(w.redisFault)];
    RunSplit(s, [Step0(w.statusFault)], [Step0(w.redisFault)]);
    RunOne(s, Step0(w.statusFault));
    assert s.calls[0 := Enqueuing(w.id, n)] == [Enqueuing(w.id, n)];
    assert Step(s, Step0(w.statusFault)) == marked by {
      assert rows[w.id := n][w.id := Created(req, channel, w.statusFault)] == rows';
    }
    RunOne(marked, Step0(w.redisFault));
    assert marked.calls[0 := Returned(w.id, req.key)] == [Returned(w.id, req.key)];
  }

  /** With a free key and a new id, the row, the answer and the enqueue of `Create` are those of its steps here. */
  lemma {:induction false} CreateIsItsSteps(rows: Rows, req: Request, channel: Channel, w: Answers)
    requires !KeyTaken(rows, req.key) && w.id !in rows
    ensures Run(State(rows, [], []), StepsOf(req, channel, w))
         == State(rows[w.id := Created(req, channel, w.statusFault)], [Returned(w.id, req.key)],
                  if req.scheduledAt.Some? || w.redisFault then [] else [(0, w.id)])
  {
    var first := [Begin(w.id, Inserted(req, channel))] + (if req.key.Some? then [Move(0)] else []) + [Move(0)];
    BeginAndInsert(rows, req, channel, w);
    if req.scheduledAt.Some? {
      assert StepsOf(req, channel, w) == first;
    } else {
      RunSplit(State(rows, [], []), first, [Step0(w.statusFault), Step0(w.redisFault)]);
      MarkAndEnqueue(rows, req, channel, w);
    }
  }

  /** With a key that is taken, its look-up returns a row with the key, and that is all. */
  lemma {:induction false} CreateFindsKey(rows: Rows, req: Request, channel: Channel, w: Answers)
    requires KeyTaken(rows, req.key)
    ensures var s := Run(State(rows, [], []), [Begin(w.id, Inserted(req, channel)), Move(0)]);
      && s.rows == rows && s.sent == [] && |s.calls| == 1
      && s.calls[0].Returned? && s.calls[0].key == req.key && HasRow(rows, s.calls[0].id, req.key)
  {
    var begin := Begin(w.id, Inserted(req, channel));
    assert [begin, Move(0)] == [begin] + [Move(0)];
    RunSplit(State(rows, [], []), [begin], [Move(0)]);
    RunOne(State(rows, [], []), begin);
    RunOne(Step(State(rows, [], []), begin), Move(0));
  }
}
