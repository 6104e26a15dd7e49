/**
 The account of a whole run with the stranded pizzas apart: where each ordered pizza is, at
 which steps of the system pizzas are stranded, and what remains when the program closes.
 */
module Ledger {
  import opened Menu
  import opened Sums
  import opened Kitchen
  import opened Protocol
  import opened LinkSafety
  import opened LinkTheorems
  import opened Endings
  import opened Allocation
  import opened Pizzeria
  import opened PizzeriaSafety
  import opened PizzeriaTheorems

  ghost function StrandedOf(q: Lens): Link -> nat {
    (l: Link) => Stranded(q, l)
  }

  /** On the way to a kitchen that will read them, inside one, or reported and not yet received. */
  ghost function MovingOf(q: Lens): Link -> nat {
    (l: Link) => if l.k.exit.ByTimeout? then InKitchen(q, l.k) + Unheard(q, l) else InFlight(q, l)
  }

  /** Answers that the reception has not read. */
  ghost function Unheard(q: Lens, l: Link): nat {
    Sum(l.results, DoneIn(q)) + Sum(l.results, FullIn(q))
  }

  ghost function UnheardOf(q: Lens): Link -> nat {
    (l: Link) => Unheard(q, l)
  }

  lemma {:induction false} FlightSplits(links: seq<Link>, q: Lens)
    ensures Sum(links, FlightOf(q)) == Sum(links, StrandedOf(q)) + Sum(links, MovingOf(q))
  {
    hide InKitchen;
    if links != [] { FlightSplits(links[..|links| - 1], q); }
  }

  /**
   Every ordered pizza is in one of five places: done, refused, stranded, on its way, or about to
   be sent. Kitchens that have been erased have nothing on its way.
   */
  lemma FivePlaces(s: System, nCooks: nat, q: Lens)
    requires nCooks > 0 && Arises(s, nCooks)
    ensures Sum(s.placed, Each(q)) ==
            Over(s, DoneOf(q)) + Over(s, FullOf(q)) + Over(s, StrandedOf(q))
              + Sum(s.links, MovingOf(q)) + Sum(Todo(s.desk), Each(q))
    ensures Sum(s.gone, MovingOf(q)) == 0
  {
    hide Arises, InFlight, InKitchen;
    EveryPizzaAccountedFor(s, nCooks, q);
    FlightSplits(s.links, q);
    FlightSplits(s.gone, q);
    forall i | 0 <= i < |s.gone| ensures MovingOf(q)(s.gone[i]) == 0 {
      NothingMovesThere(s, nCooks, s.gone[i], q);
    }
    SumZero(s.gone, MovingOf(q));
  }

  lemma NothingMovesThere(s: System, nCooks: nat, l: Link, q: Lens)
    requires nCooks > 0 && Arises(s, nCooks) && l in s.gone
    ensures MovingOf(q)(l) == 0
  {
    hide Arises, InKitchen;
    GoneKitchensTimedOut(s, nCooks, l, q);
  }

  // ------------------------------------------------------------------ where it grows

  /** What a step adds to the stranded pizzas. */
  ghost function Lost(s: System, a: Step, q: Lens): nat
    requires Allowed(s, a)
  {
    match a
    case KitchenStep(i, e) => if e == Inside(Expire) then Sum(s.links[i].orders, PizzaIn(q)) else 0
    case DispatchOne =>
      BestIsBest(Handles(s.links));
      (match Best(Handles(s.links))
       case Some(b) => if s.links[b].k.exit.ByTimeout? then Seen(q, s.desk.todo[0]) else 0
       case None => 0)
    case _ => 0
  }

  lemma ChangedLink(s: System, i: nat, l: Link, q: Lens)
    requires i < |s.links|
    ensures Over(After(s, i, l), StrandedOf(q)) + Stranded(q, s.links[i]) == Over(s, StrandedOf(q)) + Stranded(q, l)
  {
    SumUpdate(s.links, i, l, StrandedOf(q));
  }

  lemma SweepKeepsStranded(s: System, q: Lens)
    ensures Over(Swept(s), StrandedOf(q)) == Over(s, StrandedOf(q))
  {
    SweepSplits(s.links, StrandedOf(q));
    SumConcat(s.gone, Dead(s.links), StrandedOf(q));
  }

  /** What the reception does to a link otherwise. */
  lemma ReceptionStrandsNothing(l: Link, q: Lens)
    ensures Stranded(q, Asked(l)) == Stranded(q, l) == Stranded(q, Dismissed(l)) == Stranded(q, Reaped(l))
  {
    SumAppend(l.orders, StatusRequestPkt, PizzaIn(q));
    SumAppend(l.orders, ShutdownPkt, PizzaIn(q));
  }

  lemma DeliveryStrands(l: Link, pizza: Pizza, q: Lens)
    ensures Stranded(q, Delivered(l, pizza)) == Stranded(q, l) + if l.k.exit.ByTimeout? then Seen(q, pizza) else 0
  {
    SumAppend(l.orders, PizzaPkt(Pack(pizza)), PizzaIn(q));
  }

  lemma SentStrands(s: System, q: Lens)
    requires Allowed(s, DispatchOne)
    ensures Over(Sent(s, s.desk.todo[0]), StrandedOf(q)) == Over(s, StrandedOf(q)) + Lost(s, DispatchOne, q)
  {
    hide Best, Delivered;
    var pizza := s.desk.todo[0];
    BestIsBest(Handles(s.links));
    match Best(Handles(s.links)) {
      case Some(b) =>
        DeliveryStrands(s.links[b], pizza, q);
        ChangedLink(s, b, Delivered(s.links[b], pizza), q);
      case None =>
        DeliveryStrands(NewLink(s.nextId, s.nCooks), pizza, q);
        SumAppend(s.links, Delivered(NewLink(s.nextId, s.nCooks), pizza), StrandedOf(q));
    }
  }

  /**
   Pizzas are stranded at two steps of the system and no other: when a kitchen times out, those in its
   order queue; and when the dispatch chooses a kitchen that has timed out and whose Shutdown it
   has not read, the one it sends. None ever comes back.
   */
  lemma StrandedGrowsExactly(s: System, a: Step, nCooks: nat, q: Lens)
    requires nCooks > 0 && Arises(s, nCooks) && Allowed(s, a)
    ensures Over(Perform(s, a), StrandedOf(q)) == Over(s, StrandedOf(q)) + Lost(s, a, q)
  {
    hide Arises, Reachable, Ascending, DeskInv, Routed, BookKept, Next, Enabled, Sent, Alive, Dead, StrandedOf, Sum;
    ArisesInv(s, nCooks);
    match a
    case KitchenStep(i, e) =>
      StrandedExactly(s.links[i], e, s.nCooks, q);
      ChangedLink(s, i, Next(s.links[i], e), q);
    case Take(i) =>
      StrandedExactly(s.links[i], Receive, s.nCooks, q);
      ChangedLink(s, i, Next(s.links[i], Receive), q);
    case Sweep => SweepKeepsStranded(s, q);
    case StartDispatch => SweepKeepsStranded(s, q);
    case DispatchOne => SentStrands(s, q);
    case AskNext =>
      ReceptionStrandsNothing(s.links[s.desk.next], q);
      ChangedLink(s, s.desk.next, Asked(s.links[s.desk.next]), q);
    case CloseNext =>
      ReceptionStrandsNothing(s.links[s.desk.next], q);
      ChangedLink(s, s.desk.next, Reaped(s.links[s.desk.next]), q);
      ChangedLink(s, s.desk.next, Dismissed(s.links[s.desk.next]), q);
    case _ =>
  }

  // ---------------------------------------------------------------- when it is over

  lemma {:induction false} OnlyAnswersMove(links: seq<Link>, q: Lens)
    requires forall i :: 0 <= i < |links| ==> MovingOf(q)(links[i]) == UnheardOf(q)(links[i])
    ensures Sum(links, MovingOf(q)) == Sum(links, UnheardOf(q))
  {
    if links != [] { OnlyAnswersMove(links[..|links| - 1], q); }
  }

  lemma FinishedMoves(l: Link, nCooks: nat, q: Lens)
    requires nCooks > 0 && Reachable(l, nCooks) && l.k.worker.Finished?
    ensures MovingOf(q)(l) == UnheardOf(q)(l)
  {
    hide Reachable, InKitchen, Each;
    JoinedKitchenIsEmpty(l, nCooks, q);
    StrandedIsTheRest(l, nCooks, q);
    PizzasConserved(l, nCooks, q);
  }

  /**
   When the program has shut down, each ordered pizza has been done, refused or stranded; only what the
   kitchens said after the reception stopped listening makes up the difference.
   */
  lemma FinalAccount(s: System, nCooks: nat, q: Lens)
    requires nCooks > 0 && Arises(s, nCooks) && s.desk.Closed?
    ensures Sum(s.placed, Each(q)) ==
            Over(s, DoneOf(q)) + Over(s, FullOf(q)) + Over(s, StrandedOf(q)) + Sum(s.links, UnheardOf(q))
  {
    hide Arises, Reachable, Ascending, DeskInv, Routed, BookKept;
    FivePlaces(s, nCooks, q);
    ArisesInv(s, nCooks);
    forall i | 0 <= i < |s.links| ensures MovingOf(q)(s.links[i]) == UnheardOf(q)(s.links[i]) {
      ClosedLeavesNobodyRunning(s, nCooks, i);
      FinishedMoves(s.links[i], s.nCooks, q);
    }
    OnlyAnswersMove(s.links, q);
  }
}
