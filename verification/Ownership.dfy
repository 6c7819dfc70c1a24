/** With the rate-limited branch as one step, the many actors of `Lifecycle` refine a machine with a
    single owner: the row itself, the queue member, or one actor's hand. */
module Ownership {
  import opened Domain
  import opened Lifecycle
  import opened AtMostOnce

  datatype Place = Nowhere | InRow | InQueue | InHand(hand: Hand)

  /** `burying` counts workers that have yet to write a dead-letter entry. */
  datatype Solo = Solo(store: Store, place: Place, burying: nat)

  datatype Turn = Shared(event: Event) | Owner(action: Action) | Finish(ok: bool)

  predicate Owns(h: Hand) {
    !h.Stale? && !h.Burying? && !h.Done?
  }

  predicate IsBurying(h: Hand) {
    h.Burying?
  }

  function Resting(s: Store): Place {
    if s.queued then InQueue else if Parked(s) then InRow else Nowhere
  }

  function Turned(cfg: Config, s: Solo, turn: Turn): Option<Solo> {
    match turn
    case Finish(ok) =>
      if s.burying == 0 then None
      else Some(Solo(if ok then s.store.(dead := s.store.dead + 1) else s.store, s.place, s.burying - 1))
    case Owner(a) =>
      if !s.place.InHand? then None
      else
        (match Move(cfg, s.store, s.place.hand, a)
         case None => None
         case Some((store, h)) =>
           Some(Solo(store, if Owns(h) then InHand(h) else Resting(store), s.burying + One(h.Burying?))))
    case Shared(e) =>
      if e.Act? then None
      else
        match Step(cfg, Cell(s.store, []), e)
        case None => None
        case Some(Cell(store, hands)) =>
          var place := if hands != [] then InHand(hands[0]) else if s.place.InHand? then s.place else Resting(store);
          Some(Solo(store, place, s.burying))
  }

  ghost predicate SoleOwner(hands: seq<Hand>, i: int) {
    && 0 <= i < |hands| && Owns(hands[i])
    && forall j :: 0 <= j < |hands| && j != i ==> !Owns(hands[j])
  }

  ghost predicate NoOwner(hands: seq<Hand>) {
    forall j :: 0 <= j < |hands| ==> !Owns(hands[j])
  }

  /** The cell has the one owner that `s` says. */
  ghost predicate Abstracts(c: Cell, s: Solo) {
    && c.store == s.store
    && (forall j :: 0 <= j < |c.hands| ==> !c.hands[j].Stale?)
    && s.burying == Count(IsBurying, c.hands)
    && (c.store.row.None? ==> c.store.queued == false && c.hands == [])
    && match s.place
       case Nowhere => !Parked(c.store) && !c.store.queued && NoOwner(c.hands)
       case InRow => Parked(c.store) && !c.store.queued && NoOwner(c.hands)
       case InQueue => !Parked(c.store) && c.store.queued && NoOwner(c.hands)
       case InHand(h) => !Parked(c.store) && !c.store.queued && exists i :: SoleOwner(c.hands, i) && c.hands[i] == h
  }

  /** Which turn of the single-owner machine a step is. */
  function Image(c: Cell, e: Event): Turn {
    if !e.Act? then Shared(e)
    else if e.actor < |c.hands| && c.hands[e.actor].Burying? then Finish(e.action == Bury(true))
    else Owner(e.action)
  }

  lemma {:induction false} Spawned(hands: seq<Hand>, h: Hand)
    requires NoOwner(hands) && Owns(h)
    ensures SoleOwner(hands + [h], |hands|)
  {
  }

  lemma {:induction false} Replaced(hands: seq<Hand>, i: int, h: Hand)
    requires SoleOwner(hands, i)
    ensures if Owns(h) then SoleOwner(hands[i := h], i) else NoOwner(hands[i := h])
  {
  }

  /** Only an insertion, a poll of a parked row, a dequeue or a cancel comes from outside. */
  lemma {:induction false} ArrivalPlace(cfg: Config, s: Store, e: Event)
    requires !e.Act? && Step(cfg, Cell(s, []), e).Some?
    requires !(Parked(s) && s.queued) && (s.row.None? ==> !s.queued)
    ensures var c := Step(cfg, Cell(s, []), e).value;
      && c.store.row.Some?
      && (c.hands != [] ==> !Parked(c.store) && !c.store.queued && (s.row.None? || Parked(s) || s.queued))
      && (c.hands == [] ==> !(Parked(c.store) && c.store.queued))
      && (c.hands == [] && s.row.Some? ==> (Parked(c.store) ==> Parked(s)) && c.store.queued == s.queued)
  {
  }

  lemma {:induction false} Arrives(c: Cell, s: Solo, store: Store, h: Hand)
    requires Abstracts(c, s) && NoOwner(c.hands)
    requires store.row.Some? && !Parked(store) && !store.queued
    requires h.Creating? || h.Publishing? || h.Got?
    ensures Abstracts(Cell(store, c.hands + [h]), Solo(store, InHand(h), s.burying))
  {
    CountAppend(IsBurying, c.hands, h);
    Spawned(c.hands, h);
  }

  lemma {:induction false} Stays(c: Cell, s: Solo, store: Store)
    requires Abstracts(c, s) && store.row.Some? && !(Parked(store) && store.queued)
    requires s.place.InHand? ==> !Parked(store) && !store.queued
    ensures Abstracts(Cell(store, c.hands), Solo(store, if s.place.InHand? then s.place else Resting(store), s.burying))
  {
  }

  lemma {:induction false} SimulateShared(cfg: Config, c: Cell, s: Solo, e: Event)
    requires Abstracts(c, s) && !e.Act? && Step(cfg, c, e).Some?
    ensures Turned(cfg, s, Shared(e)).Some?
    ensures Abstracts(Step(cfg, c, e).value, Turned(cfg, s, Shared(e)).value)
  {
    Arrival(cfg, c, e);
    ArrivalPlace(cfg, c.store, e);
    var alone := Step(cfg, Cell(c.store, []), e).value;
    if alone.hands == [] {
      Stays(c, s, alone.store);
      assert c.hands + alone.hands == c.hands;
    } else {
      assert alone.hands == [alone.hands[0]];
      Arrives(c, s, alone.store, alone.hands[0]);
    }
  }

  /** An owner keeps the notification out of the row's and the queue's hands until it lets go. */
  lemma {:induction false} OwnerMove(cfg: Config, s: Store, h: Hand, a: Action)
    requires Owns(h) && !Parked(s) && !s.queued && Move(cfg, s, h, a).Some?
    requires !a.Requeue? && !a.StaleUpdate?
    ensures var (s', h') := Move(cfg, s, h, a).value;
      && !h'.Stale?
      && (if Owns(h') then !Parked(s') && !s'.queued else !(Parked(s') && s'.queued))
      && (s.row.Some? ==> s'.row.Some?)
  {
  }

  lemma {:induction false} SimulateOwner(cfg: Config, c: Cell, s: Solo, i: nat, a: Action)
    requires Abstracts(c, s) && AtomicRequeue(Act(i, a)) && Step(cfg, c, Act(i, a)).Some?
    requires Owns(c.hands[i])
    ensures Turned(cfg, s, Owner(a)).Some?
    ensures Abstracts(Step(cfg, c, Act(i, a)).value, Turned(cfg, s, Owner(a)).value)
  {
    var h := Move(cfg, c.store, c.hands[i], a).value.1;
    assert s.place.InHand? && SoleOwner(c.hands, i);
    OwnerMove(cfg, c.store, c.hands[i], a);
    CountReplace(IsBurying, c.hands, i, h);
    Replaced(c.hands, i, h);
  }

  lemma {:induction false} SimulateBurial(cfg: Config, c: Cell, s: Solo, i: nat, a: Action)
    requires Abstracts(c, s) && Step(cfg, c, Act(i, a)).Some?
    requires c.hands[i].Burying?
    ensures Turned(cfg, s, Finish(a == Bury(true))).Some?
    ensures Abstracts(Step(cfg, c, Act(i, a)).value, Turned(cfg, s, Finish(a == Bury(true))).value)
  {
    CountReplace(IsBurying, c.hands, i, Done);
    if s.place.InHand? {
      var k :| SoleOwner(c.hands, k) && c.hands[k] == s.place.hand;
      assert SoleOwner(c.hands[i := Done], k);
    }
  }

  lemma {:induction false} Simulate(cfg: Config, c: Cell, s: Solo, e: Event)
    requires Abstracts(c, s) && AtomicRequeue(e) && Step(cfg, c, e).Some?
    ensures Turned(cfg, s, Image(c, e)).Some?
    ensures Abstracts(Step(cfg, c, e).value, Turned(cfg, s, Image(c, e)).value)
  {
    if e.Act? {
      if c.hands[e.actor].Burying? {
        SimulateBurial(cfg, c, s, e.actor, e.action);
      } else {
        SimulateOwner(cfg, c, s, e.actor, e.action);
      }
    } else {
      SimulateShared(cfg, c, s, e);
    }
  }

  /** Every run with the atomic branch, faults and crashes allowed, has at most one owner throughout. */
  lemma {:induction false} SingleOwner(cfg: Config, events: seq<Event>) returns (s: Solo)
    requires Run(cfg, EMPTY, events).Some?
    requires forall i :: 0 <= i < |events| ==> AtomicRequeue(events[i])
    ensures Abstracts(Run(cfg, EMPTY, events).value, s)
  {
    if events == [] {
      s := Solo(EMPTY_STORE, Nowhere, 0);
    } else {
      var front, e := events[..|events| - 1], events[|events| - 1];
      s := SingleOwner(cfg, front);
      var c := Run(cfg, EMPTY, front).value;
      Simulate(cfg, c, s, e);
      s := Turned(cfg, s, Image(c, e)).value;
    }
  }
}
