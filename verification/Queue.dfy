/** The Redis priority queue of internal/adapter/queue: one sorted set per channel, scored by priority
    and enqueue time, and an atomic pop of the lowest score into the processing set. */
module Queue {
  import opened Domain

  /** A queue message; its JSON text is the sorted-set member. Ids are numbered in the order of their
      text, and all texts have one length, so equal scores are ordered by id, then by priority. */
  datatype Message = Message(id: Id, channel: Channel, priority: nat)

  function MessageOf(id: Id, n: Notification): Message {
    Message(id, n.channel, n.priority)
  }

  type Scores = map<Message, int>

  /** priority * 1e13 + milliseconds (calcScore). */
  const WEIGHT: int := 10_000_000_000_000

  function Score(priority: nat, now: int): int {
    priority * WEIGHT + now
  }

  predicate TextBefore(x: Message, y: Message) {
    x.id < y.id || (x.id == y.id && x.priority < y.priority)
  }

  /** Sorted-set order: by score, then by member text. */
  predicate Before(q: Scores, x: Message, y: Message)
    requires x in q && y in q
  {
    q[x] < q[y] || (q[x] == q[y] && TextBefore(x, y))
  }

  predicate IsFirst(q: Scores, m: Message) {
    m in q && forall x :: x in q && x != m ==> Before(q, m, x)
  }

  predicate OneChannel(q: Scores, channel: Channel) {
    forall m :: m in q ==> m.channel == channel
  }

  lemma {:induction false} FirstExists(q: Scores, channel: Channel) returns (m: Message)
    requires q != map[] && OneChannel(q, channel)
    ensures IsFirst(q, m)
    decreases |q|
  {
    var some :| some in q;
    var rest := q - {some};
    assert rest.Keys == q.Keys - {some};
    m := some;
    if rest != map[] {
      var first := FirstExists(rest, channel);
      m := if Before(q, some, first) then some else first;
      forall x | x in q && x != m ensures Before(q, m, x) {
        if x != some && x != first {
          assert x in rest && Before(rest, first, x);
        }
      }
    } else {
      assert q.Keys == {some} by {
        assert q.Keys - {some} == {};
      }
    }
  }

  /** The queue as its users mean it: when each waiting message was last enqueued. */
  type Arrivals = map<Message, int>

  predicate InRange(a: Arrivals) {
    forall m :: m in a ==> 0 <= a[m] < 10_000_000_000_000
  }

  function Encode(a: Arrivals): Scores {
    map m | m in a :: Score(m.priority, a[m])
  }

  predicate Precedes(a: Arrivals, x: Message, y: Message)
    requires x in a && y in a
  {
    || x.priority < y.priority
    || (x.priority == y.priority && a[x] < a[y])
    || (x.priority == y.priority && a[x] == a[y] && x.id < y.id)
  }

  /** Until 1e13 ms after the epoch, the score orders by priority first and by enqueue time second. */
  lemma ScoreIsLexicographic(p: nat, s: int, q: nat, t: int)
    requires 0 <= s < 10_000_000_000_000 && 0 <= t < 10_000_000_000_000
    ensures Score(p, s) < Score(q, t) <==> p < q || (p == q && s < t)
    ensures Score(p, s) == Score(q, t) <==> p == q && s == t
  {
  }

  lemma {:induction false} OrderRefines(a: Arrivals, x: Message, y: Message)
    requires InRange(a) && x in a && y in a && x != y && x.channel == y.channel
    ensures Before(Encode(a), x, y) <==> Precedes(a, x, y)
  {
    ScoreIsLexicographic(x.priority, a[x], y.priority, a[y]);
  }

  lemma {:induction false} EncodePut(a: Arrivals, m: Message, now: int)
    ensures Encode(a[m := now]) == Encode(a)[m := Score(m.priority, now)]
  {
  }

  lemma {:induction false} EncodePop(a: Arrivals, m: Message)
    ensures Encode(a - {m}) == Encode(a) - {m}
  {
  }

  lemma {:induction false} FirstPrecedes(a: Arrivals, channel: Channel, m: Message)
    requires OneChannel(Encode(a), channel) && IsFirst(Encode(a), m)
    ensures m in a
    ensures InRange(a) ==> forall x :: x in a && x != m ==> Precedes(a, m, x)
  {
    if InRange(a) {
      forall x | x in a && x != m ensures Precedes(a, m, x) {
        assert x in Encode(a);
        OrderRefines(a, m, x);
      }
    }
  }

  function Of<V>(queues: map<Channel, map<Message, V>>, channel: Channel): map<Message, V> {
    if channel in queues then queues[channel] else map[]
  }

  /** Every message of a known notification is in the queue of its notification's channel. */
  ghost predicate Homed(rows: map<Id, Notification>, queues: map<Channel, Scores>) {
    forall c: Channel, m: Message :: m in Of(queues, c) && m.id in rows ==> rows[m.id].channel == c
  }

  /** ZADD: a member already present gets the new score. */
  function Added(queues: map<Channel, Scores>, msg: Message, now: int): map<Channel, Scores> {
    queues[msg.channel := Of(queues, msg.channel)[msg := Score(msg.priority, now)]]
  }

  /** A pipeline of ZADDs. Redis may fail part of the way: only those that `lands` allows take effect. */
  function Pipelined(
    queues: map<Channel, Scores>, msgs: seq<Message>, now: seq<int>, lands: Message -> bool): map<Channel, Scores>
    requires |msgs| == |now|
  {
    if msgs == [] then queues
    else
      var front, m := Pipelined(queues, msgs[..|msgs| - 1], now[..|msgs| - 1], lands), msgs[|msgs| - 1];
      if lands(m) then Added(front, m, now[|msgs| - 1]) else front
  }

  lemma {:induction false} PipelinedMembers(
    queues: map<Channel, Scores>, msgs: seq<Message>, now: seq<int>, lands: Message -> bool, m: Message, c: Channel)
    requires |msgs| == |now|
    ensures m in Of(Pipelined(queues, msgs, now, lands), c) <==>
      m in Of(queues, c) || (m in msgs && lands(m) && m.channel == c)
  {
    if msgs != [] {
      PipelinedMembers(queues, msgs[..|msgs| - 1], now[..|now| - 1], lands, m, c);
    }
  }

  /** Each message of a pipeline that lands has the score of its own clock reading. */
  lemma {:induction false} PipelinedScore(
    queues: map<Channel, Scores>, msgs: seq<Message>, now: seq<int>, lands: Message -> bool, k: nat)
    requires |msgs| == |now| && k < |msgs| && lands(msgs[k])
    requires forall i, j :: 0 <= i < j < |msgs| ==> msgs[i] != msgs[j]
    ensures var q := Of(Pipelined(queues, msgs, now, lands), msgs[k].channel);
      msgs[k] in q && q[msgs[k]] == msgs[k].priority * 10_000_000_000_000 + now[k]
  {
    if k < |msgs| - 1 {
      PipelinedScore(queues, msgs[..|msgs| - 1], now[..|now| - 1], lands, k);
    }
  }

  class RedisQueue {
    var queues: map<Channel, Scores>
    var processing: map<Channel, set<Message>>
    ghost var arrivals: map<Channel, Arrivals>

    ghost predicate Valid()
      reads this
    {
      forall c: Channel :: OneChannel(Of(queues, c), c) && Of(queues, c) == Encode(Of(arrivals, c))
    }

    function Processing(channel: Channel): set<Message>
      reads this
    {
      if channel in processing then processing[channel] else {}
    }

    constructor ()
      ensures Valid() && queues == map[] && processing == map[]
    {
      queues, processing, arrivals := map[], map[], map[];
    }

    method Enqueue(msg: Message, now: int)
      requires Valid()
      modifies this`queues, this`arrivals
      ensures Valid() && queues == Added(old(queues), msg, now)
      ensures var q := Of(queues, msg.channel);
        msg in q && q[msg] == msg.priority * 10_000_000_000_000 + now
      ensures Of(arrivals, msg.channel) == Of(old(arrivals), msg.channel)[msg := now]
      ensures forall c: Channel :: c != msg.channel ==> Of(arrivals, c) == Of(old(arrivals), c)
    {
      var members := if msg.channel in queues then queues[msg.channel] else map[];
      queues := queues[msg.channel := members[msg := Score(msg.priority, now)]];
      EncodePut(Of(arrivals, msg.channel), msg, now);
      arrivals := arrivals[msg.channel := Of(arrivals, msg.channel)[msg := now]];
      forall c: Channel ensures OneChannel(Of(queues, c), c) && Of(queues, c) == Encode(Of(arrivals, c)) {
        assert OneChannel(Of(old(queues), c), c) && Of(old(queues), c) == Encode(Of(old(arrivals), c));
      }
    }

    /** A pipeline of ZADDs, each with its own reading of the clock. */
    method EnqueueBatch(msgs: seq<Message>, now: seq<int>, lands: Message -> bool)
      requires Valid() && |msgs| == |now|
      modifies this`queues, this`arrivals
      ensures Valid() && queues == Pipelined(old(queues), msgs, now, lands)
    {
      for i := 0 to |msgs|
        invariant Valid() && queues == Pipelined(old(queues), msgs[..i], now[..i], lands)
      {
        if lands(msgs[i]) {
          Enqueue(msgs[i], now[i]);
        }
        assert msgs[..i + 1][..i] == msgs[..i] && now[..i + 1][..i] == now[..i];
      }
      assert msgs[..|msgs|] == msgs && now[..|now|] == now;
    }

    /** The pop script: the first member moves to the processing set, atomically. */
    method Dequeue(channel: Channel) returns (msg: Option<Message>)
      requires Valid()
      modifies this
      ensures Valid()
      ensures msg.None? <==> Of(old(queues), channel) == map[]
      ensures msg.None? ==> queues == old(queues) && processing == old(processing)
      ensures msg.Some? ==>
        && IsFirst(Of(old(queues), channel), msg.value)
        && queues == old(queues)[channel := Of(old(queues), channel) - {msg.value}]
        && processing == old(processing)[channel := old(Processing(channel)) + {msg.value}]
        && msg.value in Of(old(arrivals), channel)
        && Of(arrivals, channel) == Of(old(arrivals), channel) - {msg.value}
      ensures msg.Some? && InRange(Of(old(arrivals), channel)) ==>
        forall x :: x in Of(old(arrivals), channel) && x != msg.value ==>
          Precedes(Of(old(arrivals), channel), msg.value, x)
    {
      var members := Of(queues, channel);
      if members == map[] {
        return None;
      }
      ghost var first := FirstExists(members, channel);
      var m :| IsFirst(members, m);
      queues := queues[channel := members - {m}];
      processing := processing[channel := Processing(channel) + {m}];
      msg := Some(m);
      FirstPrecedes(Of(arrivals, channel), channel, m);
      EncodePop(Of(arrivals, channel), m);
      arrivals := arrivals[channel := Of(arrivals, channel) - {m}];
      forall c: Channel ensures OneChannel(Of(queues, c), c) && Of(queues, c) == Encode(Of(arrivals, c)) {
        assert OneChannel(Of(old(queues), c), c) && Of(old(queues), c) == Encode(Of(old(arrivals), c));
      }
    }

    /** Looks through the processing set for the notification and removes the first match. */
    method Acknowledge(channel: Channel, id: Id)
      requires Valid()
      modifies this`processing
      ensures Valid()
      ensures forall c: Channel :: c != channel ==> Processing(c) == old(Processing(c))
      ensures (forall m :: m in old(Processing(channel)) ==> m.id != id) ==>
        Processing(channel) == old(Processing(channel))
      ensures (exists m :: m in old(Processing(channel)) && m.id == id) ==>
        exists m :: m in old(Processing(channel)) && m.id == id && Processing(channel) == old(Processing(channel)) - {m}
    {
      var members := Processing(channel);
      while members != {}
        invariant members <= Processing(channel) == old(Processing(channel)) && processing == old(processing)
        invariant forall m :: m in Processing(channel) && m !in members ==> m.id != id
        decreases members
      {
        var m :| m in members;
        if m.id == id {
          processing := processing[channel := Processing(channel) - {m}];
          return;
        }
        members := members - {m};
      }
    }
  }
}

/** The scores encode a lexicographic order on (priority, enqueue time, text). */
module QueueOrder {
  import opened Domain
  import opened Queue

  /** From 1e13 ms on it does not: a message of the next priority can overtake. */
  lemma ScoreOverflows(p: nat, s: int)
    requires s >= 10_000_000_000_000
    ensures Score(p + 1, s - 10_000_000_000_000) == Score(p, s)
  {
  }

  /** Popping until the set is empty. */
  ghost predicate Drains(q: Scores, popped: seq<Message>) {
    if popped == [] then q == map[]
    else IsFirst(q, popped[0]) && Drains(q - {popped[0]}, popped[1..])
  }

  lemma {:induction false} DrainExists(q: Scores, channel: Channel) returns (popped: seq<Message>)
    requires OneChannel(q, channel)
    ensures Drains(q, popped)
    decreases |q|
  {
    if q == map[] {
      popped := [];
    } else {
      var m := FirstExists(q, channel);
      assert (q - {m}).Keys == q.Keys - {m};
      var rest := DrainExists(q - {m}, channel);
      popped := [m] + rest;
    }
  }

  lemma {:induction false} DrainMembers(q: Scores, popped: seq<Message>)
    requires Drains(q, popped)
    ensures multiset(popped) == multiset(q.Keys)
  {
    if popped != [] {
      DrainMembers(q - {popped[0]}, popped[1..]);
      assert popped == [popped[0]] + popped[1..];
      assert (q - {popped[0]}).Keys == q.Keys - {popped[0]};
      assert q.Keys == q.Keys - {popped[0]} + {popped[0]};
    }
  }

  /** Draining yields each waiting message once, by priority and then by enqueue time. */
  lemma {:induction false} DrainIsSortedPermutation(a: Arrivals, channel: Channel, popped: seq<Message>)
    requires InRange(a) && OneChannel(a, channel) && Drains(Encode(a), popped)
    ensures multiset(popped) == multiset(a.Keys)
    ensures forall i, j :: 0 <= i < j < |popped| ==>
      popped[i] in a && popped[j] in a && Precedes(a, popped[i], popped[j])
  {
    DrainMembers(Encode(a), popped);
    assert Encode(a).Keys == a.Keys;
    if popped != [] {
      var m := popped[0];
      EncodePop(a, m);
      DrainIsSortedPermutation(a - {m}, channel, popped[1..]);
      forall j | 0 < j < |popped| ensures popped[j] in a && Precedes(a, m, popped[j]) {
        assert popped[j] == popped[1..][j - 1] && popped[j] in multiset(popped[1..]);
        OrderRefines(a, m, popped[j]);
      }
      forall i, j | 0 <= i < j < |popped|
        ensures popped[i] in a && popped[j] in a && Precedes(a, popped[i], popped[j])
      {
        if i > 0 {
          assert popped[i] == popped[1..][i - 1] && popped[j] == popped[1..][j - 1];
        }
      }
    }
  }
}

/** How long a message waits. */
module QueueFairness {
  import opened Domain
  import opened Queue

  function Ahead(a: Arrivals, m: Message): set<Message>
    requires m in a
  {
    set x | x in a && Precedes(a, x, m)
  }

  function Rank(a: Arrivals, m: Message): nat
    requires m in a
  {
    |Ahead(a, m)|
  }

  datatype Op = Put(msg: Message, now: int) | Pop(msg: Message)

  ghost predicate Enabled(a: Arrivals, op: Op) {
    match op
    case Put(_, now) => 0 <= now < WEIGHT
    case Pop(x) => IsFirst(Encode(a), x)
  }

  function Apply(a: Arrivals, op: Op): Arrivals {
    match op
    case Put(x, now) => a[x := now]
    case Pop(x) => a - {x}
  }

  /** A Put that may pass `m`: of higher priority, or of the same priority and not later. */
  predicate Overtakes(a: Arrivals, m: Message, op: Op)
    requires m in a
  {
    op.Put? && (op.msg.priority < m.priority || (op.msg.priority == m.priority && op.now <= a[m]))
  }

  lemma {:induction false} PopMovesUp(a: Arrivals, channel: Channel, m: Message, x: Message)
    requires InRange(a) && OneChannel(a, channel) && m in a && x != m && IsFirst(Encode(a), x)
    ensures Rank(a - {x}, m) == Rank(a, m) - 1
  {
    OrderRefines(a, x, m);
    assert Ahead(a - {x}, m) == Ahead(a, m) - {x};
  }

  lemma {:induction false} LaterPutDoesNotPass(a: Arrivals, m: Message, x: Message, now: int)
    requires m in a && x != m
    ensures Rank(a[x := now], m) <= Rank(a, m) + if Overtakes(a, m, Put(x, now)) then 1 else 0
  {
    var ahead := Ahead(a[x := now], m);
    if Overtakes(a, m, Put(x, now)) {
      assert ahead <= Ahead(a, m) + {x};
      Smaller(ahead, Ahead(a, m) + {x});
    } else {
      assert ahead <= Ahead(a, m);
      Smaller(ahead, Ahead(a, m));
    }
  }

  lemma {:induction false} Smaller(s: set<Message>, t: set<Message>)
    requires s <= t
    ensures |s| <= |t|
  {
    assert t == s + (t - s);
  }

  /** A history of the channel's queue during which `m` is neither popped nor enqueued again. */
  ghost predicate Waits(a: Arrivals, m: Message, ops: seq<Op>)
    decreases ops
  {
    m in a &&
    (ops == [] ||
     (ops[0].msg != m && ops[0].msg.channel == m.channel && Enabled(a, ops[0]) && Waits(Apply(a, ops[0]), m, ops[1..])))
  }

  function After(a: Arrivals, ops: seq<Op>): Arrivals
    decreases ops
  {
    if ops == [] then a else After(Apply(a, ops[0]), ops[1..])
  }

  function Pops(ops: seq<Op>): nat {
    if ops == [] then 0 else (if ops[0].Pop? then 1 else 0) + Pops(ops[1..])
  }

  ghost function Overtakings(a: Arrivals, m: Message, ops: seq<Op>): nat
    requires Waits(a, m, ops)
    decreases ops
  {
    if ops == [] then 0
    else (if Overtakes(a, m, ops[0]) then 1 else 0) + Overtakings(Apply(a, ops[0]), m, ops[1..])
  }

  /** While a message waits, every pop but those that made up for an overtaking message brought it one
      place forward; so it is popped after at most its rank plus the overtakings. */
  lemma {:induction false} BoundedWaiting(a: Arrivals, channel: Channel, m: Message, ops: seq<Op>)
    requires InRange(a) && OneChannel(a, channel) && m.channel == channel && Waits(a, m, ops)
    ensures m in After(a, ops)
    ensures Pops(ops) + Rank(After(a, ops), m) <= Rank(a, m) + Overtakings(a, m, ops)
    decreases ops
  {
    if ops != [] {
      var a' := Apply(a, ops[0]);
      match ops[0] {
        case Put(x, now) => LaterPutDoesNotPass(a, m, x, now);
        case Pop(x) => PopMovesUp(a, channel, m, x);
      }
      BoundedWaiting(a', channel, m, ops[1..]);
    }
  }
}

/** The documentation orders a queue by creation time within a priority. The score has the time of the last
    enqueue instead. */
module QueueCreation {
  import opened Domain
  import opened Queue
  import opened QueueOrder
  import opened QueueFairness

  /** When each notification was created. */
  type Creations = Message -> int

  ghost predicate Enqueues(a: Arrivals, ops: seq<Op>)
    decreases ops
  {
    ops == [] || (Enabled(a, ops[0]) && Enqueues(Apply(a, ops[0]), ops[1..]))
  }

  /** A message is enqueued when it was created or later, and again after each denial or retry. */
  predicate Timely(ops: seq<Op>, created: Creations) {
    forall i :: 0 <= i < |ops| && ops[i].Put? ==> created(ops[i].msg) <= ops[i].now
  }

  predicate SamePriority(a: Arrivals, x: Message, y: Message) {
    x in a && y in a && x != y && x.priority == y.priority
  }

  /** Which of two messages of one priority was enqueued first; ties go by id. */
  predicate EnqueuedBefore(a: Arrivals, x: Message, y: Message)
    requires x in a && y in a
  {
    a[x] < a[y] || (a[x] == a[y] && x.id < y.id)
  }

  ghost predicate PopsInCreationOrder(popped: seq<Message>, created: Creations) {
    forall i, j :: 0 <= i < j < |popped| && popped[i].priority == popped[j].priority ==>
      created(popped[i]) <= created(popped[j])
  }

  ghost predicate EnqueuedInCreationOrder(a: Arrivals, created: Creations) {
    forall x, y :: SamePriority(a, x, y) && EnqueuedBefore(a, x, y) ==> created(x) <= created(y)
  }

  /** Messages of one priority are popped in the order of creation exactly when their last enqueues are in
      that order. */
  lemma {:induction false} CreationOrderIff(a: Arrivals, channel: Channel, popped: seq<Message>, created: Creations)
    requires InRange(a) && OneChannel(a, channel) && Drains(Encode(a), popped)
    ensures PopsInCreationOrder(popped, created) <==> EnqueuedInCreationOrder(a, created)
  {
    DrainIsSortedPermutation(a, channel, popped);
    if PopsInCreationOrder(popped, created) {
      forall x, y | SamePriority(a, x, y) && EnqueuedBefore(a, x, y)
        ensures created(x) <= created(y)
      {
        var i := PoppedAt(a, popped, x);
        var j := PoppedAt(a, popped, y);
        assert i < j;
      }
    } else {
      var i, j :| 0 <= i < j < |popped|
        && popped[i].priority == popped[j].priority && created(popped[i]) > created(popped[j]);
      assert Precedes(a, popped[i], popped[j]);
      assert SamePriority(a, popped[i], popped[j]) && EnqueuedBefore(a, popped[i], popped[j]);
    }
  }

  lemma {:induction false} PoppedAt(a: Arrivals, popped: seq<Message>, x: Message) returns (i: nat)
    requires multiset(popped) == multiset(a.Keys) && x in a
    ensures i < |popped| && popped[i] == x
  {
    assert x in multiset(popped);
    i :| i < |popped| && popped[i] == x;
  }

  /** Every waiting message was last enqueued when it was created. */
  ghost predicate KeptAtCreation(a: Arrivals, created: Creations) {
    forall m :: m in a ==> a[m] == created(m)
  }

  lemma {:induction false} EnqueuedAtCreation(a: Arrivals, ops: seq<Op>, created: Creations)
    requires KeptAtCreation(a, created)
    requires forall i :: 0 <= i < |ops| && ops[i].Put? ==> created(ops[i].msg) == ops[i].now
    ensures KeptAtCreation(After(a, ops), created)
    decreases ops
  {
    if ops != [] {
      forall i | 0 <= i < |ops[1..]| ensures ops[1..][i] == ops[i + 1] {
      }
      EnqueuedAtCreation(Apply(a, ops[0]), ops[1..], created);
    }
  }

  /** So the documented order holds for notifications that are enqueued when they are created and never
      again: any history of such enqueues and pops drains in creation order. */
  lemma {:induction false} CreationOrderWithoutReenqueues(
    ops: seq<Op>, channel: Channel, popped: seq<Message>, created: Creations)
    requires forall i :: 0 <= i < |ops| && ops[i].Put? ==> created(ops[i].msg) == ops[i].now
    requires InRange(After(map[], ops)) && OneChannel(After(map[], ops), channel)
    requires Drains(Encode(After(map[], ops)), popped)
    ensures PopsInCreationOrder(popped, created)
  {
    EnqueuedAtCreation(map[], ops, created);
    CreationOrderIff(After(map[], ops), channel, popped, created);
  }

  /** It fails for others: `older` is popped, denied and enqueued again behind `newer`, which is popped next. */
  lemma {:induction false} ReenqueuedBehindNewer(older: Message, newer: Message, created: Creations)
    returns (ops: seq<Op>)
    requires older != newer && older.channel == newer.channel && older.priority == newer.priority
    requires 0 <= created(older) < created(newer) < WEIGHT - 1
    ensures Timely(ops, created) && Enqueues(map[], ops)
    ensures var a := After(map[], ops); older in a && newer in a && IsFirst(Encode(a), newer)
  {
    var t := created(newer) + 1;
    var a1 := map[older := created(older)];
    var a2 := a1[newer := created(newer)];
    ScoreIsLexicographic(older.priority, created(older), newer.priority, created(newer));
    ScoreIsLexicographic(newer.priority, created(newer), older.priority, t);
    ops := [];
    ops := Preceded(a2 - {older}, Put(older, t), ops);
    ops := Preceded(a2, Pop(older), ops);
    ops := Preceded(a1, Put(newer, created(newer)), ops);
    ops := Preceded(map[], Put(older, created(older)), ops);
  }

  lemma {:induction false} Preceded(a: Arrivals, op: Op, rest: seq<Op>) returns (ops: seq<Op>)
    requires Enabled(a, op) && Enqueues(Apply(a, op), rest)
    ensures ops == [op] + rest && Enqueues(a, ops) && After(a, ops) == After(Apply(a, op), rest)
  {
    ops := [op] + rest;
    assert ops[1..] == rest;
  }
}
