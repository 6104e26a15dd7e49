/**
 When an announced order is ready. Announcements go by count, so they are right for as
 long as nobody orders before everything ordered earlier is done, and not otherwise.
 */
module Announcements {
  import opened Menu
  import opened Sums
  import opened Kitchen
  import opened Protocol
  import opened LinkSafety
  import opened Allocation
  import opened Orders
  import opened Pizzeria
  import opened PizzeriaSafety
  import opened PizzeriaTheorems

  /** The Dones that came in cover all pizzas of the first k orders, of each type and size. */
  ghost predicate Served(s: System, k: nat)
    requires k <= |s.quantities|
  {
    && Prefix(s.quantities, k) <= |s.placed|
    && forall q: Lens :: Sum(s.placed[..Prefix(s.quantities, k)], Each(q)) <= Over(s, DoneOf(q))
  }

  lemma {:induction false} DonesAreCounted(links: seq<Link>)
    ensures Sum(links, DoneOf(All)) == Sum(links, DonesOf)
  {
    if links != [] {
      var n := |links| - 1;
      DonesAreCounted(links[..n]);
      EveryPizzaSeen(links[n].log.done);
    }
  }

  lemma AllDonesCounted(s: System)
    ensures Over(s, DoneOf(All)) == Dones(s)
  {
    DonesAreCounted(s.links);
    DonesAreCounted(s.gone);
  }

  /** An announced order is paid for by as many Dones; so a served order is an announced one. */
  lemma ServedIsAnnounced(s: System, nCooks: nat, k: nat)
    requires nCooks > 0 && Arises(s, nCooks) && 1 <= k <= |s.quantities| && Served(s, k)
    ensures k in s.book.announced
  {
    hide Arises, LinksInv, Ascending, DeskInv, Routed, BookInv, Prefix;
    ArisesInv(s, nCooks);
    AnnouncedWhenCounted(s.book, s.quantities, Dones(s), k);
    AllDonesCounted(s);
    var first := s.placed[..Prefix(s.quantities, k)];
    assert Sum(first, Each(All)) <= Over(s, DoneOf(All));
    EveryPizzaSeen(first);
  }

  /**
   The book is empty exactly when everything ever ordered is done: then as many Dones
   have come in as pizzas were ordered, of every type and size, and nothing is refused, stranded
   or on its way.
   */
  lemma BookEmptyWhenAllDone(s: System, nCooks: nat)
    requires nCooks > 0 && Arises(s, nCooks)
    ensures s.book.pending == [] <==> Dones(s) == |s.placed|
    ensures s.book.pending == [] <==> forall q: Lens :: Over(s, DoneOf(q)) == Sum(s.placed, Each(q))
    ensures s.book.pending == [] ==> forall q: Lens :: Over(s, FullOf(q)) == 0 && Over(s, FlightOf(q)) == 0
  {
    hide Arises, LinksInv, Ascending, DeskInv, Routed, BookInv, Over, Dones;
    ArisesInv(s, nCooks);
    OutstandingIsRest(s.book, s.quantities, Dones(s));
    AllDonesCounted(s);
    EveryPizzaSeen(s.placed);
    if s.book.pending == [] {
      EveryPizzaAccountedFor(s, nCooks, All);
      forall q: Lens
        ensures Over(s, DoneOf(q)) == Sum(s.placed, Each(q)) && Over(s, FullOf(q)) == 0 && Over(s, FlightOf(q)) == 0
      {
        EveryPizzaAccountedFor(s, nCooks, q);
        FewerOfOneKind(s, q);
      }
    } else {
      SomethingPending(s.book, s.quantities, Dones(s));
      assert Over(s, DoneOf(All)) != Sum(s.placed, Each(All));
    }
  }

  lemma SomethingPending(b: Book, quantities: seq<nat>, dones: nat)
    requires BookInv(b, quantities, dones) && b.pending != []
    ensures dones < Prefix(quantities, |quantities|)
  {
    PrefixGrows(quantities, |b.announced| + 1, |quantities|);
  }

  lemma {:induction false} FewerFull(links: seq<Link>, q: Lens)
    ensures Sum(links, FullOf(q)) <= Sum(links, FullOf(All))
    ensures Sum(links, FlightOf(q)) <= Sum(links, FlightOf(All))
  {
    if links != [] {
      var n := |links| - 1;
      FewerFull(links[..n], q);
      SumFewer(links[n].log.full, Each(q), Each(All));
      FewerInFlight(links[n], q);
    }
  }

  lemma FewerInFlight(l: Link, q: Lens)
    ensures InFlight(q, l) <= InFlight(All, l)
  {
    SumFewer(l.orders, PizzaIn(q), PizzaIn(All));
    SumFewer(l.results, DoneIn(q), DoneIn(All));
    SumFewer(l.results, FullIn(q), FullIn(All));
    SumFewer(l.k.pool.queue, Each(q), Each(All));
    SumFewer(l.k.cooks, Undone(q), Undone(All));
  }

  lemma FewerOfOneKind(s: System, q: Lens)
    ensures Over(s, FullOf(q)) <= Over(s, FullOf(All)) && Over(s, FlightOf(q)) <= Over(s, FlightOf(All))
    ensures Sum(Todo(s.desk), Each(q)) <= Sum(Todo(s.desk), Each(All))
  {
    FewerFull(s.links, q);
    FewerFull(s.gone, q);
    SumFewer(Todo(s.desk), Each(q), Each(All));
  }

  lemma WholeOrderBook(s: System, nCooks: nat)
    requires nCooks > 0 && Arises(s, nCooks)
    ensures Prefix(s.quantities, |s.quantities|) == |s.placed|
    ensures s.placed[..|s.placed|] == s.placed
  {
    hide Arises, LinksInv, Ascending, DeskInv, Routed, BookInv, Prefix;
    ArisesInv(s, nCooks);
  }

  /** The announcement of the newest order is right: it is made exactly when everything is served. */
  lemma LastAnnouncementIsRight(s: System, nCooks: nat)
    requires nCooks > 0 && Arises(s, nCooks) && s.quantities != []
    ensures |s.quantities| in s.book.announced <==> Served(s, |s.quantities|)
  {
    hide Arises, Over, Dones, Prefix, BookInv, LinksInv, Ascending, DeskInv, Routed;
    WholeOrderBook(s, nCooks);
    if Served(s, |s.quantities|) { ServedIsAnnounced(s, nCooks, |s.quantities|); }
    if |s.quantities| in s.book.announced {
      ArisesInv(s, nCooks);
      LastAnnounced(s.book, s.quantities, Dones(s));
      BookEmptyWhenAllDone(s, nCooks);
    }
  }

  lemma LastAnnounced(b: Book, quantities: seq<nat>, dones: nat)
    requires BookInv(b, quantities, dones) && |quantities| in b.announced && quantities != []
    ensures b.pending == []
  {
  }

  // -------------------------------------------------------- patient customers

  /** Nobody orders while more than so many orders are pending. */
  ghost predicate Patient(nCooks: nat, steps: seq<Step>, limit: nat) {
    forall i :: 0 <= i < |steps| && steps[i].PlaceOrder? && steps[i].pizzas != [] ==>
      Story(Opening(nCooks), steps[..i]).Some? && |Story(Opening(nCooks), steps[..i]).value.book.pending| <= limit
  }

  ghost predicate ArisesPatiently(s: System, nCooks: nat, limit: nat) {
    exists steps :: Story(Opening(nCooks), steps) == Some(s) && Patient(nCooks, steps, limit)
  }

  lemma TakeDoes(s: System, i: nat, q: Lens)
    requires Allowed(s, Take(i))
    ensures Over(Perform(s, Take(i)), DoneOf(q)) >= Over(s, DoneOf(q))
  {
    var l := s.links[i];
    var l' := Next(l, Receive);
    if l.results[0].DonePkt? { SumAppend(l.log.done, Read(l.results[0].slip), Each(q)); }
    hide Handled, Enabled;
    assert DoneOf(q)(l') >= DoneOf(q)(l);
    hide Next;
    SumUpdate(s.links, i, l', DoneOf(q));
  }

  lemma SameDoneSameTotal(s: System, i: nat, l: Link, q: Lens)
    requires i < |s.links| && l.log.done == s.links[i].log.done
    ensures Over(After(s, i, l), DoneOf(q)) == Over(s, DoneOf(q))
  {
    SumUpdate(s.links, i, l, DoneOf(q));
  }

  lemma SweepKeepsDones(s: System, q: Lens)
    ensures Over(Swept(s), DoneOf(q)) == Over(s, DoneOf(q))
  {
    SweepSplits(s.links, DoneOf(q));
    SumConcat(s.gone, Dead(s.links), DoneOf(q));
  }

  lemma SentKeepsDones(s: System, pizza: Pizza, q: Lens)
    ensures Over(Sent(s, pizza), DoneOf(q)) == Over(s, DoneOf(q))
    ensures Sent(s, pizza).quantities == s.quantities && Sent(s, pizza).placed == s.placed
  {
    hide Best, NewKitchen;
    BestIsBest(Handles(s.links));
    match Best(Handles(s.links)) {
      case Some(b) => SameDoneSameTotal(s, b, Delivered(s.links[b], pizza), q);
      case None => SumAppend(s.links, Delivered(NewLink(s.nextId, s.nCooks), pizza), DoneOf(q));
    }
  }

  /** What has been done stays done, and only ordering changes what was ordered. */
  lemma DonesStay(s: System, a: Step, q: Lens)
    requires Allowed(s, a)
    ensures Over(Perform(s, a), DoneOf(q)) >= Over(s, DoneOf(q))
    ensures !a.PlaceOrder? ==> Perform(s, a).quantities == s.quantities && Perform(s, a).placed == s.placed
  {
    hide Next, Enabled, Sent, Alive, Dead, DoneOf, Sum;
    match a
    case KitchenStep(i, e) =>
      KitchenLeavesDeskAlone(s.links[i], e);
      SameDoneSameTotal(s, i, Next(s.links[i], e), q);
    case Take(i) => TakeDoes(s, i, q);
    case Sweep => SweepKeepsDones(s, q);
    case StartDispatch => SweepKeepsDones(s, q);
    case DispatchOne => SentKeepsDones(s, s.desk.todo[0], q);
    case AskNext => SameDoneSameTotal(s, s.desk.next, Asked(s.links[s.desk.next]), q);
    case CloseNext =>
      SameDoneSameTotal(s, s.desk.next, Reaped(s.links[s.desk.next]), q);
      SameDoneSameTotal(s, s.desk.next, Dismissed(s.links[s.desk.next]), q);
    case _ =>
  }

  lemma {:induction false} PrefixSumGrows(s: seq<Pizza>, j: nat, k: nat, w: Pizza -> nat)
    requires j <= k <= |s|
    ensures Sum(s[..j], w) <= Sum(s[..k], w)
  {
    if j < k {
      PrefixSumGrows(s, j, k - 1, w);
      assert s[..k][..k - 1] == s[..k - 1];
    }
  }

  lemma EarlierServed(s: System, j: nat, k: nat)
    requires j <= k <= |s.quantities| && Served(s, k)
    ensures Served(s, j)
  {
    hide Over, Prefix;
    PrefixGrows(s.quantities, j, k);
    forall q: Lens ensures Sum(s.placed[..Prefix(s.quantities, j)], Each(q)) <= Over(s, DoneOf(q)) {
      PrefixSumGrows(s.placed, Prefix(s.quantities, j), Prefix(s.quantities, k), Each(q));
      assert Sum(s.placed[..Prefix(s.quantities, k)], Each(q)) <= Over(s, DoneOf(q));
    }
  }

  lemma StaysServed(s: System, a: Step, k: nat)
    requires Allowed(s, a) && k <= |s.quantities| && Served(s, k)
    ensures k <= |Perform(s, a).quantities| && Served(Perform(s, a), k)
  {
    hide Over, Prefix;
    var s' := Perform(s, a);
    if a.PlaceOrder? {
      PlacingExtends(s, a.pizzas);
      if a.pizzas != [] { PrefixExtended(s.quantities, |a.pizzas|, k); }
    } else {
      DonesStay(s, a, All);
    }
    hide Perform, Allowed;
    forall q: Lens ensures Sum(s'.placed[..Prefix(s'.quantities, k)], Each(q)) <= Over(s', DoneOf(q)) {
      DonesStay(s, a, q);
      assert Sum(s.placed[..Prefix(s.quantities, k)], Each(q)) <= Over(s, DoneOf(q));
      assert s'.placed[..Prefix(s.quantities, k)] == s.placed[..Prefix(s.quantities, k)];
    }
  }

  lemma PlacingExtends(s: System, pizzas: seq<Pizza>)
    requires Allowed(s, PlaceOrder(pizzas))
    ensures Perform(s, PlaceOrder(pizzas)).placed == s.placed + pizzas
    ensures Perform(s, PlaceOrder(pizzas)).quantities ==
            if pizzas == [] then s.quantities else s.quantities + [|pizzas|]
  {
  }

  /** All orders but the newest are served. */
  ghost predicate OthersServed(s: System) {
    s.quantities != [] ==> Served(s, |s.quantities| - 1)
  }

  lemma PatienceKeeps(s: System, a: Step, nCooks: nat)
    requires nCooks > 0 && Arises(s, nCooks) && Allowed(s, a) && OthersServed(s)
    requires a.PlaceOrder? && a.pizzas != [] ==> s.book.pending == []
    ensures OthersServed(Perform(s, a))
  {
    hide Arises, Served, Perform, Allowed;
    if a.PlaceOrder? {
      PlacingExtends(s, a.pizzas);
      if a.pizzas != [] {
        AllServed(s, nCooks);
        WholeOrderBook(s, nCooks);
        StaysServed(s, a, |s.quantities|);
      } else if s.quantities != [] {
        ServedFits(s, |s.quantities| - 1);
        StaysServed(s, a, |s.quantities| - 1);
      }
    } else {
      DonesStay(s, a, All);
      if s.quantities != [] {
        StaysServed(s, a, |s.quantities| - 1);
      }
    }
  }

  lemma ServedFits(s: System, k: nat)
    requires k <= |s.quantities| && Served(s, k)
    ensures Prefix(s.quantities, k) <= |s.placed|
  {
  }

  lemma AllServed(s: System, nCooks: nat)
    requires nCooks > 0 && Arises(s, nCooks) && s.book.pending == []
    ensures Served(s, |s.quantities|)
  {
    hide Arises, Over, Dones, Prefix;
    WholeOrderBook(s, nCooks);
    BookEmptyWhenAllDone(s, nCooks);
  }

  lemma {:induction false} PatienceServes(nCooks: nat, steps: seq<Step>)
    requires nCooks > 0 && Story(Opening(nCooks), steps).Some? && Patient(nCooks, steps, 0)
    ensures OthersServed(Story(Opening(nCooks), steps).value)
  {
    if steps != [] {
      hide OthersServed, Perform, Allowed, Opening, Arises;
      var n := |steps| - 1;
      ShorterIsPatient(nCooks, steps, 0);
      PatienceServes(nCooks, steps[..n]);
      var s := Story(Opening(nCooks), steps[..n]).value;
      assert Arises(s, nCooks) by { StoryArises(nCooks, steps[..n]); }
      PatienceKeeps(s, steps[n], nCooks);
    }
  }

  lemma StoryArises(nCooks: nat, steps: seq<Step>)
    requires Story(Opening(nCooks), steps).Some?
    ensures Arises(Story(Opening(nCooks), steps).value, nCooks)
  {
    hide Opening, Story;
  }

  lemma ShorterIsPatient(nCooks: nat, steps: seq<Step>, limit: nat)
    requires steps != [] && Patient(nCooks, steps, limit)
    ensures Patient(nCooks, steps[..|steps| - 1], limit)
  {
    hide Story, Opening;
    var front := steps[..|steps| - 1];
    forall i | 0 <= i < |front| && front[i].PlaceOrder? && front[i].pizzas != []
      ensures Story(Opening(nCooks), front[..i]).Some? && |Story(Opening(nCooks), front[..i]).value.book.pending| <= limit
    {
      assert steps[i] == front[i] && front[..i] == steps[..i];
    }
  }

  /** If nobody orders before the book is empty, each order is announced exactly when it is served. */
  lemma PatientOrdersAnnouncedWhenReady(s: System, nCooks: nat, k: nat)
    requires nCooks > 0 && ArisesPatiently(s, nCooks, 0) && 1 <= k <= |s.quantities|
    ensures k in s.book.announced <==> Served(s, k)
  {
    hide Served, Opening, Story, Patient, Arises;
    var steps :| Story(Opening(nCooks), steps) == Some(s) && Patient(nCooks, steps, 0);
    StoryArises(nCooks, steps);
    if Served(s, k) { ServedIsAnnounced(s, nCooks, k); }
    if k == |s.quantities| {
      LastAnnouncementIsRight(s, nCooks);
    } else {
      PatienceServes(nCooks, steps);
      EarlierServed(s, k, |s.quantities| - 1);
    }
  }
}
