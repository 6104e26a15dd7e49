/** What holds of the whole system in every state that some run reaches. */
module PizzeriaTheorems {
  import opened Menu
  import opened Sums
  import opened Kitchen
  import opened Protocol
  import opened KitchenSafety
  import opened LinkSafety
  import opened LinkEnds
  import opened LinkStatus
  import opened LinkTheorems
  import opened Endings
  import opened Allocation
  import opened Orders
  import opened Pizzeria
  import opened PizzeriaSafety

  /** The system after a sequence of steps, provided each was allowed when it came. */
  ghost function Story(s: System, steps: seq<Step>): Option<System> {
    if steps == [] then Some(s)
    else
      var before := Story(s, steps[..|steps| - 1]);
      var a := steps[|steps| - 1];
      if before.Some? && Allowed(before.value, a) then Some(Perform(before.value, a)) else None
  }

  ghost predicate Arises(s: System, nCooks: nat) {
    exists steps :: Story(Opening(nCooks), steps) == Some(s)
  }

  lemma {:induction false} StoryKeepsInv(nCooks: nat, steps: seq<Step>)
    requires nCooks > 0 && Story(Opening(nCooks), steps).Some?
    ensures SystemInv(Story(Opening(nCooks), steps).value)
  {
    hide SystemInv, Opening, Allowed, Perform;
    if steps == [] {
      OpeningInv(nCooks);
    } else {
      var front := steps[..|steps| - 1];
      StoryKeepsInv(nCooks, front);
      StepKeepsInv(Story(Opening(nCooks), front).value, steps[|steps| - 1]);
    }
  }

  lemma ArisesInv(s: System, nCooks: nat)
    requires nCooks > 0 && Arises(s, nCooks)
    ensures SystemInv(s)
  {
    hide SystemInv, Opening, Story;
    var steps :| Story(Opening(nCooks), steps) == Some(s);
    StoryKeepsInv(nCooks, steps);
  }

  // ------------------------------------------------------------- conservation

  ghost function FlightOf(q: Lens): Link -> nat {
    (l: Link) => InFlight(q, l)
  }

  ghost function DoneOf(q: Lens): Link -> nat {
    (l: Link) => Sum(l.log.done, Each(q))
  }

  ghost function FullOf(q: Lens): Link -> nat {
    (l: Link) => Sum(l.log.full, Each(q))
  }

  /** A total over all kitchens the reception ever opened. */
  ghost function Over(s: System, w: Link -> nat): nat {
    Sum(s.links, w) + Sum(s.gone, w)
  }

  lemma {:induction false} LinksConserve(links: seq<Link>, nCooks: nat, q: Lens)
    requires nCooks > 0
    requires forall l :: l in links ==> Reachable(l, nCooks)
    ensures Sum(links, SentOf(q)) == Sum(links, FlightOf(q)) + Sum(links, DoneOf(q)) + Sum(links, FullOf(q))
  {
    hide Reachable, InFlight;
    if links != [] {
      var n := |links| - 1;
      forall l | l in links[..n] ensures l in links {}
      LinksConserve(links[..n], nCooks, q);
      PizzasConserved(links[n], nCooks, q);
    }
  }

  /**
   End to end: the pizzas of all orders, of each type and size, are those reported Done,
   those refused, those in flight, and those about to be sent. What is still in flight
   at a kitchen that is gone is stranded for good.
   */
  lemma EveryPizzaAccountedFor(s: System, nCooks: nat, q: Lens)
    requires nCooks > 0 && Arises(s, nCooks)
    ensures Sum(s.placed, Each(q)) ==
            Over(s, DoneOf(q)) + Over(s, FullOf(q)) + Over(s, FlightOf(q)) + Sum(Todo(s.desk), Each(q))
  {
    hide Arises, Reachable, Ascending, DeskInv, BookKept;
    ArisesInv(s, nCooks);
    assert Routed(q, s);
    LinksConserve(s.links, s.nCooks, q);
    LinksConserve(s.gone, s.nCooks, q);
  }

  /**
   A kitchen the reception has erased had timed out. It left nothing unsaid, and the
   pizzas it never answered for are the ones it left unread; they are what its load shows.
   */
  lemma GoneKitchensTimedOut(s: System, nCooks: nat, l: Link, q: Lens)
    requires nCooks > 0 && Arises(s, nCooks) && l in s.gone
    ensures l.k.worker.Finished? && l.k.exit.ByTimeout? && l.results == []
    ensures InFlight(q, l) == Sum(l.orders, PizzaIn(q))
    ensures l.h.load == Sum(l.orders, PizzaIn(All))
  {
    hide Arises, Reachable, Ascending, DeskInv, BookKept, Routed, InKitchen;
    ArisesInv(s, nCooks);
    DeadWithoutQuit(l, s.nCooks);
    JoinedKitchenIsEmpty(l, s.nCooks, q);
    StrandedAreUnread(l, s.nCooks, q);
  }

  lemma DeadWithoutQuit(l: Link, nCooks: nat)
    requires nCooks > 0 && Reachable(l, nCooks) && !l.h.alive && !l.log.quit
    ensures l.k.worker.Finished? && l.k.exit.ByTimeout? && l.results == []
  {
    hide Reachable, Conserved, Counted, StatusInv, LocksInv, LoadInv, WakeInv, StockInv;
    ReachableInv(l, nCooks);
  }

  // -------------------------------------------------------------------- orders

  ghost function FullsOf(l: Link): nat {
    |l.log.full|
  }

  ghost function LoadsOf(l: Link): nat {
    l.h.load
  }

  lemma {:induction false} SentIsLoadAndAnswers(links: seq<Link>, nCooks: nat)
    requires nCooks > 0 && forall l :: l in links ==> Reachable(l, nCooks)
    ensures Sum(links, SentOf(All)) == Sum(links, LoadsOf) + Sum(links, DonesOf) + Sum(links, FullsOf)
  {
    hide Reachable;
    if links != [] {
      var n := |links| - 1;
      forall l | l in links[..n] ensures l in links {}
      SentIsLoadAndAnswers(links[..n], nCooks);
      LoadAndAnswers(links[n], nCooks);
    }
  }

  lemma LoadAndAnswers(l: Link, nCooks: nat)
    requires nCooks > 0 && Reachable(l, nCooks)
    ensures SentOf(All)(l) == LoadsOf(l) + DonesOf(l) + FullsOf(l)
  {
    hide Reachable, Conserved, OrdersEnd, ResultsEnd, StatusInv, KitchenInv;
    ReachableInv(l, nCooks);
    EveryPizzaSeen(l.log.sent);
  }

  /**
   The order book waits for exactly the pizzas in the loads of all kitchens, the refused
   ones, and those not yet sent; so one refused or stranded pizza keeps it waiting for ever.
   */
  lemma BookWaitsForLoads(s: System, nCooks: nat)
    requires nCooks > 0 && Arises(s, nCooks)
    ensures Outstanding(s.book.pending) == Over(s, LoadsOf) + Over(s, FullsOf) + |Todo(s.desk)|
  {
    hide Arises, Reachable, Ascending, DeskInv, BookInv, Outstanding, Prefix;
    ArisesInv(s, nCooks);
    assert Routed(All, s);
    EveryPizzaSeen(s.placed);
    EveryPizzaSeen(Todo(s.desk));
    OutstandingIsRest(s.book, s.quantities, Dones(s));
    SentIsLoadAndAnswers(s.links, s.nCooks);
    SentIsLoadAndAnswers(s.gone, s.nCooks);
  }

  /**
   Orders are announced by count. Order k is announced by the Done number q1 + ... + qk of
   all that have come in, in the sequence of the orders, and no Done ever finds the book empty.
   */
  lemma OrdersAnnouncedByCount(s: System, nCooks: nat, i: nat, k: nat)
    requires nCooks > 0 && Arises(s, nCooks) && 1 <= k <= |s.quantities|
    ensures k in s.book.announced <==> Prefix(s.quantities, k) <= Dones(s)
    ensures Allowed(s, Take(i)) && s.links[i].results[0].DonePkt? ==>
      && s.book.pending != []
      && (k !in s.book.announced && k in Perform(s, Take(i)).book.announced <==> Dones(s) + 1 == Prefix(s.quantities, k))
  {
    hide Arises, LinksInv, Ascending, DeskInv, Routed, BookInv, Prefix, Next;
    ArisesInv(s, nCooks);
    AnnouncedWhenCounted(s.book, s.quantities, Dones(s), k);
    if Allowed(s, Take(i)) && s.links[i].results[0].DonePkt? {
      DoneIsAwaited(s, i);
      TickKeepsBook(s.book, s.quantities, Dones(s));
      AnnouncedOnItsLastDone(s.book, s.quantities, Dones(s), k);
    }
  }

  // -------------------------------------------------------------------- status

  /** No status packet of a living kitchen is on its way outside getStatus. */
  lemma StatusStaysInSurvey(s: System, nCooks: nat, i: nat)
    requires nCooks > 0 && Arises(s, nCooks) && i < |s.links| && s.links[i].h.alive
    requires !s.desk.Asking? && !s.desk.Surveying?
    ensures forall p :: p in s.links[i].orders ==> !p.StatusRequestPkt?
    ensures forall p :: p in s.links[i].results ==> !p.CookPkt? && !p.StatusReplyPkt?
  {
    hide Arises, Reachable, Ascending, Routed, BookKept;
    ArisesInv(s, nCooks);
    assert AtDesk(s.desk, i, s.links[i]);
    NoStrayStatus(s.links[i], s.nCooks);
  }

  /**
   When getStatus returns, every kitchen it reports has answered this survey: each cook once, in
   order, with the load, capacity and stock of that one reply. The capacity is the true one
   exactly for 127 cooks or fewer. No two kitchens share an id.
   */
  lemma SurveyIsComplete(s: System, nCooks: nat, i: nat)
    requires nCooks > 0 && Arises(s, nCooks) && s.desk.Surveying? && Allowed(s, EndSurvey)
    requires i < |s.links| && s.links[i].h.alive
    ensures var status := s.links[i].h.status;
      && |status.cooks| == s.nCooks && status.stock.Some?
      && (forall c :: 0 <= c < s.nCooks ==> status.cooks[c].id as nat == c % 256)
      && (status.capacity == 2 * s.nCooks <==> s.nCooks <= 127)
      && (s.nCooks <= 127 ==> status.load <= status.capacity)
      && status.id == s.links[i].h.id
    ensures forall j :: 0 <= j < |s.links| && j != i ==> s.links[j].h.id != s.links[i].h.id
  {
    hide Arises, Reachable, Routed, BookKept;
    ArisesInv(s, nCooks);
    assert AtDesk(s.desk, i, s.links[i]);
    SurveyShowsEveryCook(s.links[i], s.nCooks);
    StatusNamesItsKitchen(s.links[i], s.nCooks);
  }

  // ------------------------------------------------------ dispatch and shutdown

  /** During a dispatch every handle is alive and within its capacity. */
  lemma DispatchIsOrderly(s: System, nCooks: nat)
    requires nCooks > 0 && Arises(s, nCooks) && s.desk.Dispatching?
    ensures Orderly(Floor(Handles(s.links), s.nextId, []), s.nCooks)
    ensures forall i :: 0 <= i < |s.links| ==> s.links[i].h.alive
  {
    hide Arises, Reachable, Routed, BookKept;
    ArisesInv(s, nCooks);
    forall i | 0 <= i < |s.links|
      ensures s.links[i].h.alive && s.links[i].h.load <= s.links[i].h.capacity == 2 * s.nCooks
    {
      assert AtDesk(s.desk, i, s.links[i]);
      ReceptionLoadAccounted(s.links[i], s.nCooks);
    }
  }

  lemma SentIsPlaced(s: System, pizza: Pizza)
    ensures var f := Place(Floor(Handles(s.links), s.nextId, []), s.nCooks, pizza);
      Handles(Sent(s, pizza).links) == f.handles && Sent(s, pizza).nextId == f.nextId
  {
    hide NewKitchen, Best;
    BestIsBest(Handles(s.links));
  }

  /** One step of a dispatch does to the handles what the allocation loop does. */
  lemma DispatchIsAllocation(s: System, nCooks: nat)
    requires nCooks > 0 && Arises(s, nCooks) && Allowed(s, DispatchOne)
    ensures var f := Place(Floor(Handles(s.links), s.nextId, []), s.nCooks, s.desk.todo[0]);
      Handles(Perform(s, DispatchOne).links) == f.handles && Perform(s, DispatchOne).nextId == f.nextId
    ensures Orderly(Floor(Handles(s.links), s.nextId, []), s.nCooks)
    ensures forall i :: 0 <= i < |s.links| ==> s.links[i].h.alive
  {
    hide Arises, Place, Sent, Handles, Orderly;
    DispatchIsOrderly(s, nCooks);
    SentIsPlaced(s, s.desk.todo[0]);
  }

  /** After shutdown no kitchen is left running, and only a kitchen that timed out by itself has pizzas unread. */
  lemma ClosedLeavesNobodyRunning(s: System, nCooks: nat, i: nat)
    requires nCooks > 0 && Arises(s, nCooks) && s.desk.Closed? && i < |s.links|
    ensures s.links[i].k.worker.Finished?
    ensures Sum(s.links[i].orders, PizzaIn(All)) > 0 ==> s.links[i].k.exit.ByTimeout?
  {
    hide Arises, Reachable, Ascending, Routed, BookKept;
    ArisesInv(s, nCooks);
    assert AtDesk(s.desk, i, s.links[i]);
    DeadIsFinished(s.links[i], s.nCooks);
    if Sum(s.links[i].orders, PizzaIn(All)) > 0 { StrandingNeedsTimeout(s.links[i], s.nCooks); }
  }

  lemma DeadIsFinished(l: Link, nCooks: nat)
    requires nCooks > 0 && Reachable(l, nCooks) && !l.h.alive
    ensures l.k.worker.Finished?
  {
    hide Reachable, Conserved, Counted, StatusInv, KitchenInv, OrdersEnd;
    ReachableInv(l, nCooks);
  }
}
