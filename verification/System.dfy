/** All notifications together. A statement that touches many rows (a poll, a batch insert, a batch cancel)
    is one step of all of them at once; every other call is a step of one. What was proved for one
    notification under every interleaving of its own calls therefore holds of each. */
module System {
  import opened Domain
  import opened Lifecycle
  import opened AtMostOnce
  import opened Books
  import opened RetryLimits
  import opened FinestGrain

  type World = map<Id, Cell>

  /** The notifications a statement touches, each with what the statement does to it. */
  type Statement = map<Id, Event>

  function At(w: World, id: Id): Cell {
    if id in w then w[id] else EMPTY
  }

  predicate Enabled(cfg: Config, w: World, st: Statement) {
    forall id :: id in st ==> Step(cfg, At(w, id), st[id]).Some?
  }

  function Execute(cfg: Config, w: World, st: Statement): World
    requires Enabled(cfg, w, st)
  {
    map id | id in w.Keys + st.Keys :: if id in st then Step(cfg, At(w, id), st[id]).value else w[id]
  }

  function Play(cfg: Config, statements: seq<Statement>): Option<World> {
    if statements == [] then Some(map[])
    else
      match Play(cfg, statements[..|statements| - 1])
      case None => None
      case Some(w) =>
        var st := statements[|statements| - 1];
        if Enabled(cfg, w, st) then Some(Execute(cfg, w, st)) else None
  }

  /** What one notification sees of a history. */
  function View(statements: seq<Statement>, id: Id): seq<Event> {
    if statements == [] then []
    else
      var front, st := statements[..|statements| - 1], statements[|statements| - 1];
      if id in st then View(front, id) + [st[id]] else View(front, id)
  }

  /** Each notification runs on its own. */
  lemma {:induction false} ViewIsARun(cfg: Config, statements: seq<Statement>, id: Id)
    requires Play(cfg, statements).Some?
    ensures Run(cfg, EMPTY, View(statements, id)) == Some(At(Play(cfg, statements).value, id))
  {
    if statements != [] {
      var front, st := statements[..|statements| - 1], statements[|statements| - 1];
      ViewIsARun(cfg, front, id);
      if id in st {
        assert (View(front, id) + [st[id]])[..|View(front, id)|] == View(front, id);
      }
    }
  }

  lemma {:induction false} ViewIsNormal(statements: seq<Statement>, id: Id)
    requires forall k, x :: 0 <= k < |statements| && x in statements[k] ==> Normal(statements[k][x])
    ensures forall i :: 0 <= i < |View(statements, id)| ==> Normal(View(statements, id)[i])
  {
    if statements != [] {
      var front, st := statements[..|statements| - 1], statements[|statements| - 1];
      assert forall k :: 0 <= k < |front| ==> front[k] == statements[k];
      ViewIsNormal(front, id);
    }
  }

  /** How many sends of these notifications the provider reported as successful. */
  ghost function Successes(w: World, ids: set<Id>): nat
    requires ids <= w.Keys
    decreases |ids|
  {
    if ids == {} then 0
    else
      var id := Pick(ids);
      w[id].store.sent + Successes(w, ids - {id})
  }

  ghost function Pick(ids: set<Id>): (id: Id)
    requires ids != {}
    ensures id in ids
  {
    var id :| id in ids;
    id
  }

  lemma {:induction false} SuccessesBounded(w: World, ids: set<Id>)
    requires ids <= w.Keys && forall id :: id in ids ==> w[id].store.sent <= 1
    ensures Successes(w, ids) <= |ids|
    decreases |ids|
  {
    if ids != {} {
      SuccessesBounded(w, ids - {Pick(ids)});
    }
  }

  /** Over all notifications, faults and crashes included: each is sent successfully at most once, so the
      provider never reports more successes than there are notifications. */
  lemma {:induction false} ProviderSuccessesBounded(cfg: Config, statements: seq<Statement>)
    requires Play(cfg, statements).Some?
    ensures var w := Play(cfg, statements).value;
      (forall id :: id in w ==> w[id].store.sent <= 1) && Successes(w, w.Keys) <= |w|
  {
    var w := Play(cfg, statements).value;
    forall id | id in w ensures w[id].store.sent <= 1 {
      ViewIsARun(cfg, statements, id);
      SentAtMostOnce(cfg, View(statements, id));
    }
    SuccessesBounded(w, w.Keys);
  }

  lemma {:induction false} ViewIsFaultFree(statements: seq<Statement>, id: Id)
    requires forall k, x :: 0 <= k < |statements| && x in statements[k] ==> FaultFree(statements[k][x])
    ensures forall i :: 0 <= i < |View(statements, id)| ==> FaultFree(View(statements, id)[i])
  {
    if statements != [] {
      var front, st := statements[..|statements| - 1], statements[|statements| - 1];
      assert forall k :: 0 <= k < |front| ==> front[k] == statements[k];
      ViewIsFaultFree(front, id);
    }
  }

  /** And in fault-free histories whose late Updates land on notifications that are queued or in a hand, none of
      them is lost when the limits agree. */
  lemma {:induction false} NoneIsLost(cfg: Config, statements: seq<Statement>)
    requires Play(cfg, statements).Some? && LimitsAgree(cfg)
    requires forall k, x :: 0 <= k < |statements| && x in statements[k] ==> FaultFree(statements[k][x])
    requires forall id :: id in Play(cfg, statements).value ==> LandsOwned(cfg, View(statements, id))
    ensures forall id :: id in Play(cfg, statements).value ==> Accounted(cfg, Play(cfg, statements).value[id])
  {
    forall id | id in Play(cfg, statements).value ensures Accounted(cfg, Play(cfg, statements).value[id]) {
      ViewIsARun(cfg, statements, id);
      ViewIsFaultFree(statements, id);
      HousedRun(cfg, View(statements, id));
      HousedIsAccounted(cfg, At(Play(cfg, statements).value, id));
    }
  }

  /** With the atomic requeue there are no late Updates. */
  lemma {:induction false} NoneIsLostWhenAtomic(cfg: Config, statements: seq<Statement>)
    requires Play(cfg, statements).Some? && LimitsAgree(cfg)
    requires forall k, x :: 0 <= k < |statements| && x in statements[k] ==> Normal(statements[k][x])
    ensures forall id :: id in Play(cfg, statements).value ==> Accounted(cfg, Play(cfg, statements).value[id])
  {
    forall id | id in Play(cfg, statements).value ensures LandsOwned(cfg, View(statements, id)) {
      ViewIsNormal(statements, id);
    }
    NoneIsLost(cfg, statements);
  }
}
