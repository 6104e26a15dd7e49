/** What holds in every state that some run of a link reaches, from a fresh kitchen on. */
module LinkTheorems {
  import opened Menu
  import opened Sums
  import opened Kitchen
  import opened KitchenSafety
  import opened Protocol
  import opened LinkSafety
  import opened LinkEnds
  import opened LinkStatus

  ghost predicate LinkInv(l: Link, nCooks: nat) {
    && |l.k.cooks| == nCooks
    && KitchenInv(l.k)
    && (forall q: Lens :: Conserved(q, l))
    && Counted(l)
    && OrdersEnd(l) && ResultsEnd(l)
    && StatusInv(l)
  }

  lemma NewLinkInv(id: nat, nCooks: nat)
    requires nCooks > 0
    ensures LinkInv(NewLink(id, nCooks), nCooks)
  {
    hide KitchenInv, Conserved;
    NewKitchenInv(nCooks);
    forall q: Lens ensures Conserved(q, NewLink(id, nCooks)) {
      NothingToConserve(id, nCooks, q);
    }
  }

  lemma NothingToConserve(id: nat, nCooks: nat, q: Lens)
    ensures Conserved(q, NewLink(id, nCooks))
  {
    SumZero(NewKitchen(nCooks).cooks, Undone(q));
  }

  lemma EventKeepsId(l: Link, e: Event)
    requires Enabled(l, e)
    ensures |Next(l, e).k.cooks| == |l.k.cooks| && Next(l, e).h.id == l.h.id && Next(l, e).h.capacity == l.h.capacity
    ensures Next(l, e).h.status.id == l.h.status.id
  {
    if e.Inside? { MovesStayInside(l.k, e.m); }
    hide Do, Can, Polled, NarrowStock;
  }

  /** Every event, of the kitchen or of the reception, keeps the invariant. */
  lemma EventKeepsInv(l: Link, e: Event, nCooks: nat)
    requires LinkInv(l, nCooks) && Enabled(l, e)
    ensures LinkInv(Next(l, e), nCooks)
  {
    hide KitchenInv, Conserved, Counted, OrdersEnd, ResultsEnd, StatusInv, Next, Enabled;
    EventKeepsId(l, e);
    EventKeepsKitchen(l, e);
    forall q: Lens ensures Conserved(q, Next(l, e)) {
      EventKeepsFlow(l, e, q);
    }
    EventKeepsCount(l, e);
    EventKeepsEnds(l, e);
    EventKeepsStatus(l, e);
  }

  lemma {:induction false} RunKeepsInv(id: nat, nCooks: nat, events: seq<Event>)
    requires nCooks > 0 && Run(NewLink(id, nCooks), events).Some?
    ensures LinkInv(Run(NewLink(id, nCooks), events).value, nCooks)
  {
    hide LinkInv, NewLink, Next, Enabled;
    if events == [] {
      NewLinkInv(id, nCooks);
    } else {
      var front := events[..|events| - 1];
      RunKeepsInv(id, nCooks, front);
      EventKeepsInv(Run(NewLink(id, nCooks), front).value, events[|events| - 1], nCooks);
    }
  }

  lemma ReachableInv(l: Link, nCooks: nat)
    requires nCooks > 0 && Reachable(l, nCooks)
    ensures LinkInv(l, nCooks)
  {
    hide LinkInv, NewLink;
    var id, events :| Run(NewLink(id, nCooks), events) == Some(l);
    RunKeepsInv(id, nCooks, events);
  }

  lemma NewLinkReachable(id: nat, nCooks: nat)
    ensures Reachable(NewLink(id, nCooks), nCooks)
  {
    hide NewLink;
    assert Run(NewLink(id, nCooks), []) == Some(NewLink(id, nCooks));
  }

  lemma ReachNext(l: Link, e: Event, nCooks: nat)
    requires Reachable(l, nCooks) && Enabled(l, e)
    ensures Reachable(Next(l, e), nCooks)
  {
    hide NewLink, Next, Enabled;
    var id, events :| Run(NewLink(id, nCooks), events) == Some(l);
    assert (events + [e])[..|events|] == events;
    assert Run(NewLink(id, nCooks), events + [e]) == Some(Next(l, e));
  }

  /** The status that the reception keeps of a kitchen goes by that kitchen's id. */
  lemma StatusNamesItsKitchen(l: Link, nCooks: nat)
    requires Reachable(l, nCooks)
    ensures l.h.status.id == l.h.id
  {
    hide Run;
    var id, events :| Run(NewLink(id, nCooks), events) == Some(l);
    RunKeepsIds(id, nCooks, events);
  }

  lemma {:induction false} RunKeepsIds(id: nat, nCooks: nat, events: seq<Event>)
    requires Run(NewLink(id, nCooks), events).Some?
    ensures var h := Run(NewLink(id, nCooks), events).value.h; h.id == id && h.status.id == id
  {
    if events != [] {
      hide NewLink, Next, Enabled;
      var n := |events| - 1;
      RunKeepsIds(id, nCooks, events[..n]);
      EventKeepsId(Run(NewLink(id, nCooks), events[..n]).value, events[n]);
    }
  }

  // -------------------------------------------------------------------- loads

  /**
   The reception's load counter is exactly the pizzas on their way to the kitchen, in
   it, and answered but not yet heard of; so its guard never suppresses a decrement.
   */
  lemma ReceptionLoadAccounted(l: Link, nCooks: nat)
    requires nCooks > 0 && Reachable(l, nCooks)
    ensures l.h.load == InFlight(All, l) <= l.h.capacity == 2 * nCooks
    ensures Enabled(l, Receive) && (l.results[0].DonePkt? || l.results[0].FullPkt?) ==>
      Next(l, Receive).h.load == l.h.load - 1
  {
    hide Reachable, StatusInv, OrdersEnd, ResultsEnd, KitchenInv;
    ReachableInv(l, nCooks);
    LoadExact(l);
    if l.results != [] && (l.results[0].DonePkt? || l.results[0].FullPkt?) {
      AnswerFindsLoad(l);
    }
    hide Conserved, InFlight;
  }

  /**
   The pool's load counter is the queued pizzas and those held by cooks, less the one
   that addPizza has pushed and not yet counted. It fits the capacity, and no --load
   finds it at zero.
   */
  lemma PoolLoadAccounted(l: Link, nCooks: nat)
    requires nCooks > 0 && Reachable(l, nCooks)
    ensures |l.k.cooks| == nCooks
    ensures l.k.pool.load + Gap(l.k.worker) == |l.k.pool.queue| + Sum(l.k.cooks, Held) <= 2 * nCooks
    ensures forall i :: Enabled(l, Inside(Settle(i))) ==> l.k.pool.load > 0
  {
    hide Reachable, Conserved, Counted, StatusInv, OrdersEnd, ResultsEnd, LocksInv, LifeInv, WakeInv, StockInv;
    ReachableInv(l, nCooks);
    forall i | Enabled(l, Inside(Settle(i))) ensures l.k.pool.load > 0 {
      SumMember(l.k.cooks, i, Held);
    }
  }

  /** Nothing but accepting a pizza raises the pool's load; so an idle kitchen that accepts none stays idle. */
  lemma OnlyAcceptanceRaisesLoad(l: Link, e: Event, nCooks: nat)
    requires nCooks > 0 && Reachable(l, nCooks) && Enabled(l, e)
    ensures Next(l, e).k.pool.load > l.k.pool.load <==> e == Inside(AddCount)
  {
    hide Reachable, Handled, Polled, AllAvailable, Needs, Without, Sum;
    if e.Inside? && e.m.Settle? {
      PoolLoadAccounted(l, nCooks);
      assert Enabled(l, Inside(Settle(e.m.i)));
    }
  }

  // ------------------------------------------------------------- conservation

  /**
   Nothing is lost or altered: for every type and size, the pizzas sent are those
   reported Done, those refused, and those in flight.
   */
  lemma PizzasConserved(l: Link, nCooks: nat, q: Lens)
    requires nCooks > 0 && Reachable(l, nCooks)
    ensures Sum(l.log.sent, Each(q)) == InFlight(q, l) + Sum(l.log.done, Each(q)) + Sum(l.log.full, Each(q))
  {
    hide Reachable, InFlight, KitchenInv, Counted, StatusInv, OrdersEnd, ResultsEnd;
    ReachableInv(l, nCooks);
    assert Conserved(q, l);
  }

  // ------------------------------------------------------------------- pool

  /**
   No lost wakeup. While the pool runs and the queue mutex is free, a cook can be
   asleep only if every queued pizza has a cook of its own on the way to the queue.
   */
  lemma NoLostWakeup(l: Link, nCooks: nat)
    requires nCooks > 0 && Reachable(l, nCooks)
    requires l.k.pool.running && l.k.pool.lock.Free?
    ensures !Slumber(l.k.cooks) || |l.k.pool.queue| <= Sum(l.k.cooks, Heading)
  {
    hide Reachable, Conserved, Counted, StatusInv, OrdersEnd, ResultsEnd, LoadInv, LifeInv, StockInv;
    ReachableInv(l, nCooks);
  }
}
