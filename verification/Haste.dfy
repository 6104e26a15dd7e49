/**
 A run in which an order is announced that nobody has cooked: the next order was placed
 while it was pending, and one of that order's pizzas, in another kitchen, was done first.
 */
module Haste {
  import opened Menu
  import opened Sums
  import opened Kitchen
  import opened Protocol
  import opened LinkSafety
  import opened Allocation
  import opened Orders
  import opened Pizzeria
  import opened PizzeriaSafety
  import opened PizzeriaTheorems
  import opened Announcements
  import opened Turns
  import opened Completion

  /** So many of the later order's pizzas. */
  ghost function Rest(n: nat, later: Pizza): seq<Pizza> {
    seq(n, _ => later)
  }

  /** Only such pizzas are ordered. */
  ghost predicate Ordered(steps: seq<Step>, kinds: set<Pizza>) {
    forall i :: 0 <= i < |steps| && steps[i].PlaceOrder? ==> forall p :: p in steps[i].pizzas ==> p in kinds
  }

  /** Reached by customers who order such pizzas only, and not while more than so many orders are pending. */
  ghost predicate ArisesFrom(s: System, nCooks: nat, limit: nat, kinds: set<Pizza>) {
    exists steps ::
      Story(Opening(nCooks), steps) == Some(s) && Patient(nCooks, steps, limit) && Ordered(steps, kinds)
  }

  /** Reached with orders of two pizzas, and with at most one order pending whenever another is placed. */
  ghost predicate Hasty(s: System, nCooks: nat, first: Pizza, later: Pizza) {
    ArisesFrom(s, nCooks, 1, {first, later})
  }

  lemma Go(s: System, a: Step, nCooks: nat, first: Pizza, later: Pizza) returns (s': System)
    requires Hasty(s, nCooks, first, later) && Allowed(s, a)
    requires a.PlaceOrder? ==> |s.book.pending| <= 1 && forall p :: p in a.pizzas ==> p in {first, later}
    ensures Hasty(s', nCooks, first, later) && s' == Perform(s, a)
  {
    hide Opening, Allowed, Perform;
    s' := Perform(s, a);
    var steps :|
      Story(Opening(nCooks), steps) == Some(s) && Patient(nCooks, steps, 1) && Ordered(steps, {first, later});
    var more := steps + [a];
    assert more[..|steps|] == steps;
    assert Story(Opening(nCooks), more) == Some(s');
    forall i | 0 <= i < |more| && more[i].PlaceOrder? && more[i].pizzas != []
      ensures Story(Opening(nCooks), more[..i]).Some?
      ensures |Story(Opening(nCooks), more[..i]).value.book.pending| <= 1
    {
      if i < |steps| { assert more[..i] == steps[..i] && steps[i].PlaceOrder?; }
    }
    forall i | 0 <= i < |more| && more[i].PlaceOrder? ensures forall p :: p in more[i].pizzas ==> p in {first, later} {
      if i < |steps| { assert steps[i].PlaceOrder?; }
    }
  }

  // ------------------------------------------------------- one kitchen on its own

  /** A kitchen with one pizza in its order queue, and some of its steps behind it. */
  ghost function Newcomer(nCooks: nat, later: Pizza): Link {
    Delivered(NewLink(1, nCooks), later)
  }

  lemma TakenIn(nCooks: nat, later: Pizza) returns (l: Link)
    requires nCooks > 0
    ensures Leads(Newcomer(nCooks, later), l)
    ensures l == Newcomer(nCooks, later).(
                   orders := [],
                   k := NewKitchen(nCooks).(worker := AddCounting, pool := Pool([later], 0, true, ByWorker)))
  {
    hide Leads, Handled, NarrowStock;
    l := Newcomer(nCooks, later);
    assert Leads(l, l) by { NoSteps(l); }
    TicketIsOrdered(Pack(later));
    l := LeadsOn(Newcomer(nCooks, later), l, Poll);
    l := LeadsOn(Newcomer(nCooks, later), l, Inside(AddLock));
    l := LeadsOn(Newcomer(nCooks, later), l, Inside(AddTest));
    l := LeadsOn(Newcomer(nCooks, later), l, Inside(AddPush));
  }

  lemma LetIn(nCooks: nat, later: Pizza) returns (l: Link)
    requires nCooks > 0
    ensures Leads(Newcomer(nCooks, later), l)
    ensures l == Newcomer(nCooks, later).(
                   orders := [],
                   k := NewKitchen(nCooks).(worker := IdleCheck(false), pool := Pool([later], 1, true, Free)))
  {
    l := TakenIn(nCooks, later);
    hide Leads, Handled, NarrowStock, Polled;
    l := LeadsOn(Newcomer(nCooks, later), l, Inside(AddCount));
    l := LeadsOn(Newcomer(nCooks, later), l, Inside(AddNotify(None)));
  }

  lemma Fetched(nCooks: nat, later: Pizza) returns (l: Link)
    requires nCooks > 0
    ensures Leads(Newcomer(nCooks, later), l) && l.results == []
    ensures l.h == Newcomer(nCooks, later).h && l.log == Newcomer(nCooks, later).log
    ensures |l.k.cooks| == nCooks && l.k.cooks[0] == AtStock(later) && l.k.pantry == NewKitchen(nCooks).pantry
  {
    l := LetIn(nCooks, later);
    hide Leads, Handled, NarrowStock, Polled, AllAvailable, Needs, Without;
    l := LeadsOn(Newcomer(nCooks, later), l, Inside(CookLock(0)));
    l := LeadsOn(Newcomer(nCooks, later), l, Inside(CookCheck(0)));
    l := LeadsOn(Newcomer(nCooks, later), l, Inside(CookStart(0)));
  }

  lemma Supplied(nCooks: nat, later: Pizza) returns (l: Link)
    requires nCooks > 0
    ensures Leads(Newcomer(nCooks, later), l) && l.results == []
    ensures l.h == Newcomer(nCooks, later).h && l.log == Newcomer(nCooks, later).log
    ensures |l.k.cooks| == nCooks && l.k.cooks[0] == Tasting(later)
    ensures l.k.pantry == NewKitchen(nCooks).pantry.(lock := ByCook(0))
  {
    l := Fetched(nCooks, later);
    hide Leads, Handled, NarrowStock, Polled, AllAvailable, Needs, Without;
    l := LeadsOn(Newcomer(nCooks, later), l, Inside(StockLock(0)));
  }

  lemma FullShelfSuffices(kind: PizzaType)
    ensures AllAvailable(FULL_SHELF, Needs(kind))
  {
  }

  lemma Cooked(nCooks: nat, later: Pizza) returns (l: Link)
    requires nCooks > 0
    ensures Leads(Newcomer(nCooks, later), l) && l.results == []
    ensures l.h == Newcomer(nCooks, later).h && l.log == Newcomer(nCooks, later).log
    ensures |l.k.cooks| == nCooks && l.k.cooks[0] == Baking(later)
  {
    l := Supplied(nCooks, later);
    FullShelfSuffices(later.kind);
    hide Leads, Handled, NarrowStock, Polled, AllAvailable, Needs, Without, Newcomer;
    l := LeadsOn(Newcomer(nCooks, later), l, Inside(StockTry(0)));
  }

  /** Its Done is on the way. */
  lemma Baked(nCooks: nat, later: Pizza) returns (l: Link)
    requires nCooks > 0
    ensures Leads(Newcomer(nCooks, later), l)
    ensures l.h == Newcomer(nCooks, later).h && l.log == Newcomer(nCooks, later).log
    ensures l.results == [DonePkt(Pack(later))]
  {
    l := Cooked(nCooks, later);
    hide Leads, Handled, NarrowStock, Polled, Do, Can, Newcomer;
    l := LeadsOn(Newcomer(nCooks, later), l, Announce(0));
  }

  /** Going on with what has been ordered is never too hasty. */
  lemma {:induction false} HastyAlong(s: System, steps: seq<Step>, nCooks: nat, first: Pizza, later: Pizza)
    requires Hasty(s, nCooks, first, later) && Story(s, steps).Some?
    requires forall i :: 0 <= i < |steps| ==> GoesOn(steps[i])
    ensures Hasty(Story(s, steps).value, nCooks, first, later)
  {
    if steps != [] {
      hide Hasty, Allowed, Perform;
      var n := |steps| - 1;
      HastyAlong(s, steps[..n], nCooks, first, later);
      var t := Go(Story(s, steps[..n]).value, steps[n], nCooks, first, later);
    }
  }

  lemma HastyArises(s: System, nCooks: nat, first: Pizza, later: Pizza)
    requires Hasty(s, nCooks, first, later)
    ensures Arises(s, nCooks)
  {
    hide Story, Opening, Patient, Ordered;
  }

  lemma LetBake(s: System, i: nat, l: Link, nCooks: nat, first: Pizza, later: Pizza)
    requires Hasty(s, nCooks, first, later) && i < |s.links| && Leads(s.links[i], l)
    ensures Hasty(After(s, i, l), nCooks, first, later)
  {
    HastyArises(s, nCooks, first, later);
    hide Hasty, Story, GoesOn, Leads, Arises;
    assert Onward(s, s) by { hide Onward; StandStill(s); }
    assert Onward(s, After(s, i, l)) by { hide Onward; LetLead(s, s, i, l, nCooks); }
    var steps :| Story(s, steps) == Some(After(s, i, l)) && forall j :: 0 <= j < |steps| ==> GoesOn(steps[j]);
    HastyAlong(s, steps, nCooks, first, later);
  }

  // ------------------------------------------------------------- the two orders

  /** One kitchen, filled up to this load, and the rest of the later order to be sent. */
  ghost predicate Filling(s: System, nCooks: nat, load: nat, first: Pizza, later: Pizza) {
    && s.nCooks == nCooks && |s.links| == 1 && s.gone == [] && s.nextId == 1
    && s.links[0].h.alive && s.links[0].h.load == load && s.links[0].h.capacity == 2 * nCooks
    && s.links[0].log.done == []
    && s.book == Book([(1, 1), (2, 2 * nCooks)], 2, []) && s.placed == [first] + Rest(2 * nCooks, later)
    && s.quantities == [1, 2 * nCooks]
  }

  lemma FirstPlaced(nCooks: nat, first: Pizza, later: Pizza) returns (s: System)
    requires nCooks > 0
    ensures Hasty(s, nCooks, first, later)
    ensures s == System(nCooks, [], [], 0, Dispatching([first]), Book([(1, 1)], 1, []), [first], [1])
  {
    s := Opening(nCooks);
    assert Hasty(s, nCooks, first, later) by { assert Story(s, []) == Some(s); }
    hide Hasty;
    s := Go(s, PlaceOrder([first]), nCooks, first, later);
    s := Go(s, StartDispatch, nCooks, first, later);
  }

  lemma FirstOrder(nCooks: nat, first: Pizza, later: Pizza) returns (s: System)
    requires nCooks > 0
    ensures Hasty(s, nCooks, first, later)
    ensures s == System(nCooks, [Delivered(NewLink(0, nCooks), first)], [], 1, AtRest,
                        Book([(1, 1)], 1, []), [first], [1])
  {
    s := FirstPlaced(nCooks, first, later);
    hide Hasty, Delivered, NewLink;
    s := Go(s, DispatchOne, nCooks, first, later);
    assert s.desk.todo == [];
    s := Go(s, EndDispatch, nCooks, first, later);
  }

  lemma SecondOrder(nCooks: nat, first: Pizza, later: Pizza) returns (s: System)
    requires nCooks > 0
    ensures Hasty(s, nCooks, first, later) && Filling(s, nCooks, 1, first, later)
    ensures s.desk == Dispatching(Rest(2 * nCooks, later))
  {
    s := FirstOrder(nCooks, first, later);
    var rest := Rest(2 * nCooks, later);
    PlacingDoes(s, rest);
    OneStaysAlive(s.links);
    StartingDoes(s.(desk := Updating(rest), book := Entered(s.book, |rest|), placed := s.placed + rest,
                    quantities := s.quantities + [|rest|]));
    hide Hasty, Allowed, Perform;
    assert |s.book.pending| == 1;
    s := Go(s, PlaceOrder(rest), nCooks, first, later);
    assert s.book == Book([(1, 1), (2, 2 * nCooks)], 2, []);
    s := Go(s, StartDispatch, nCooks, first, later);
  }

  lemma PlacingDoes(s: System, pizzas: seq<Pizza>)
    requires s.desk.AtRest? && pizzas != []
    ensures Allowed(s, PlaceOrder(pizzas))
    ensures Perform(s, PlaceOrder(pizzas)) ==
            s.(desk := Updating(pizzas), book := Entered(s.book, |pizzas|), placed := s.placed + pizzas,
               quantities := s.quantities + [|pizzas|])
  {
  }

  lemma StartingDoes(s: System)
    requires s.desk.Updating? && Alive(s.links) == s.links && Dead(s.links) == []
    ensures Allowed(s, StartDispatch) && Perform(s, StartDispatch) == s.(desk := Dispatching(s.desk.todo))
  {
    assert s.gone + [] == s.gone;
  }

  lemma OneStaysAlive(links: seq<Link>)
    requires |links| == 1 && links[0].h.alive
    ensures Alive(links) == links && Dead(links) == []
  {
    assert links[..0] == [];
  }

  /** The first kitchen takes all but one of the later pizzas. */
  lemma {:induction false} FillFirst(s: System, nCooks: nat, load: nat, first: Pizza, later: Pizza) returns (s': System)
    requires Hasty(s, nCooks, first, later) && Filling(s, nCooks, 1, first, later)
    requires s.desk == Dispatching(Rest(2 * nCooks, later))
    requires 1 <= load <= 2 * nCooks
    ensures Hasty(s', nCooks, first, later) && Filling(s', nCooks, load, first, later)
    ensures s'.desk == Dispatching(Rest(2 * nCooks + 1 - load, later))
  {
    hide Hasty;
    s' := s;
    if load > 1 {
      s' := FillFirst(s, nCooks, load - 1, first, later);
      var todo := s'.desk.todo;
      OnlyOneToChoose(Handles(s'.links));
      s' := Go(s', DispatchOne, nCooks, first, later);
      assert todo[1..] == Rest(2 * nCooks + 1 - load, later);
    }
  }

  lemma OnlyOneToChoose(handles: seq<Handle>)
    requires |handles| == 1
    ensures Best(handles) == if HasRoom(handles[0]) then Some(0) else None
  {
    assert handles[..0] == [];
  }

  /** The last of them goes to a kitchen of its own. */
  lemma SpawnSecond(nCooks: nat, first: Pizza, later: Pizza) returns (s: System)
    requires nCooks > 0
    ensures Hasty(s, nCooks, first, later) && s.desk.AtRest? && |s.links| == 2 && s.gone == []
    ensures s.links[0].log.done == [] && s.links[1] == Newcomer(nCooks, later)
    ensures s.book == Book([(1, 1), (2, 2 * nCooks)], 2, []) && s.placed == [first] + Rest(2 * nCooks, later)
    ensures s.quantities == [1, 2 * nCooks]
  {
    hide Hasty, NewLink, Delivered;
    s := SecondOrder(nCooks, first, later);
    s := FillFirst(s, nCooks, 2 * nCooks, first, later);
    OnlyOneToChoose(Handles(s.links));
    s := Go(s, DispatchOne, nCooks, first, later);
    assert s.desk.todo == [];
    s := Go(s, EndDispatch, nCooks, first, later);
  }

  /**
   With any number of cooks and any two different pizzas, placing a single order too early is enough: order 1 is
   announced and none of the Dones that came in is for its pizza.
   */
  lemma HasteMisleads(nCooks: nat, first: Pizza, later: Pizza) returns (s: System)
    requires nCooks > 0 && first != later
    ensures ArisesFrom(s, nCooks, 1, {first, later}) && 1 <= |s.quantities|
    ensures 1 in s.book.announced && !Served(s, 1)
    ensures s.placed != [] && s.placed[0] == first && s.quantities[0] == 1 && Over(s, DoneOf(Just(first))) == 0
  {
    hide Leads, Newcomer;
    s := SpawnSecond(nCooks, first, later);
    var l := Baked(nCooks, later);
    LetBake(s, 1, l, nCooks, first, later);
    s := After(s, 1, l);
    assert l.h.alive && !l.log.quit && l.log.done == [] by { NewcomerLives(nCooks, later); }
    hide Hasty, Served;
    s := Go(s, Take(1), nCooks, first, later);
    assert s.links[1].log.done == [later] by { OneDone(l, later); }
    assert s.book.announced == [1];
    NotItsOwn(s, first, later);
    HastyMeans(s, nCooks, first, later);
  }

  lemma HastyMeans(s: System, nCooks: nat, first: Pizza, later: Pizza)
    ensures Hasty(s, nCooks, first, later) <==> ArisesFrom(s, nCooks, 1, {first, later})
  {
    hide ArisesFrom;
  }

  lemma NewcomerLives(nCooks: nat, later: Pizza)
    ensures var l := Newcomer(nCooks, later); l.h.alive && !l.log.quit && l.log.done == []
  {
  }

  lemma OneDone(l: Link, later: Pizza)
    requires Enabled(l, Receive) && l.results == [DonePkt(Pack(later))] && l.log.done == []
    ensures Next(l, Receive).log.done == [later]
  {
    WireRoundTrip(later, Pack(later));
  }

  lemma NotItsOwn(s: System, first: Pizza, later: Pizza)
    requires |s.links| == 2 && s.gone == [] && s.links[0].log.done == [] && s.links[1].log.done == [later]
    requires s.placed != [] && s.placed[0] == first && s.quantities != [] && s.quantities[0] == 1 && first != later
    ensures Over(s, DoneOf(Just(first))) == 0
    ensures !Served(s, 1)
  {
    assert s.links == [s.links[0]] + [s.links[1]];
    SumZero(s.links[1].log.done, Each(Just(first)));
    SumZero(s.links, DoneOf(Just(first)));
    assert Prefix(s.quantities, 1) == 1;
    SumAppend([], first, Each(Just(first)));
    assert Sum(s.placed[..1], Each(Just(first))) == 1 by { assert s.placed[..1] == [] + [first]; }
  }

  // ------------------------------------------------------------- only one kind

  lemma OrderingExtends(s: System, a: Step)
    requires Allowed(s, a)
    ensures Perform(s, a).placed == s.placed + if a.PlaceOrder? then a.pizzas else []
  {
    if a.PlaceOrder? { PlacingExtends(s, a.pizzas); } else { DonesStay(s, a, All); }
    hide Perform, Allowed;
  }

  lemma {:induction false} OnlySuchPlaced(nCooks: nat, steps: seq<Step>, kinds: set<Pizza>)
    requires Story(Opening(nCooks), steps).Some? && Ordered(steps, kinds)
    ensures forall p :: p in Story(Opening(nCooks), steps).value.placed ==> p in kinds
  {
    if steps != [] {
      hide Perform, Allowed;
      var n := |steps| - 1;
      assert Ordered(steps[..n], kinds) by {
        forall i | 0 <= i < n && steps[..n][i].PlaceOrder?
          ensures forall p :: p in steps[..n][i].pizzas ==> p in kinds
        {
          assert steps[i].PlaceOrder?;
        }
      }
      OnlySuchPlaced(nCooks, steps[..n], kinds);
      OrderingExtends(Story(Opening(nCooks), steps[..n]).value, steps[n]);
    }
  }

  lemma {:induction false} AllAlike(s: seq<Pizza>, q: Lens, p: Pizza)
    requires forall x :: x in s ==> x == p
    ensures Sum(s, Each(q)) == if Seen(q, p) == 1 then |s| else 0
  {
    if s != [] {
      var n := |s| - 1;
      forall x | x in s[..n] ensures x == p { assert x in s; }
      assert s[n] in s;
      AllAlike(s[..n], q, p);
    }
  }

  lemma {:induction false} NoOtherDone(links: seq<Link>, p: Pizza)
    requires forall q: Lens :: Seen(q, p) == 0 ==> Sum(links, DoneOf(q)) == 0
    ensures Sum(links, DoneOf(Just(p))) == Sum(links, DoneOf(All))
  {
    if links != [] {
      var n := |links| - 1;
      hide Seen;
      NoOtherDone(links[..n], p);
      forall x | x in links[n].log.done ensures x == p {
        if x != p {
          var i :| 0 <= i < |links[n].log.done| && links[n].log.done[i] == x;
          SeenOnly(p, x);
          assert Sum(links, DoneOf(Just(x))) == 0;
          SumMember(links[n].log.done, i, Each(Just(x)));
        }
      }
      AllAlike(links[n].log.done, Just(p), p);
      AllAlike(links[n].log.done, All, p);
      SeenOnly(p, p);
    }
  }

  lemma SeenOnly(p: Pizza, x: Pizza)
    ensures Seen(Just(x), x) == 1 && Seen(All, x) == 1 && (x != p ==> Seen(Just(x), p) == 0)
  {
  }

  lemma AlikeIsDone(s: System, nCooks: nat, p: Pizza)
    requires nCooks > 0 && Arises(s, nCooks) && (forall x :: x in s.placed ==> x == p)
    ensures Over(s, DoneOf(Just(p))) == Over(s, DoneOf(All))
  {
    hide Arises, DoneOf, Seen, FullOf, FlightOf;
    forall q: Lens | Seen(q, p) == 0 ensures Sum(s.links, DoneOf(q)) == 0 && Sum(s.gone, DoneOf(q)) == 0 {
      EveryPizzaAccountedFor(s, nCooks, q);
      AllAlike(s.placed, q, p);
    }
    NoOtherDone(s.links, p);
    NoOtherDone(s.gone, p);
  }

  lemma AlikeTotals(these: seq<Pizza>, all: seq<Pizza>, p: Pizza, done: Lens -> nat)
    requires these <= all && (forall x :: x in all ==> x == p)
    requires done(Just(p)) == done(All) >= |these|
    ensures forall q: Lens :: Sum(these, Each(q)) <= done(q)
  {
    forall x | x in these ensures x == p { assert x in all; }
    forall q: Lens ensures Sum(these, Each(q)) <= done(q) {
      AllAlike(these, q, p);
      if q.Just? && q.pizza == p { assert q == Just(p); }
    }
  }

  lemma AnnouncedIsPaid(s: System, nCooks: nat, k: nat)
    requires nCooks > 0 && Arises(s, nCooks) && 1 <= k <= |s.quantities| && k in s.book.announced
    ensures Prefix(s.quantities, k) <= |s.placed| && Prefix(s.quantities, k) <= Over(s, DoneOf(All))
  {
    hide Arises, LinksInv, Ascending, DeskInv, Routed, BookInv, Prefix;
    ArisesInv(s, nCooks);
    AnnouncedWhenCounted(s.book, s.quantities, Dones(s), k);
    AllDonesCounted(s);
    PrefixGrows(s.quantities, k, |s.quantities|);
  }

  /** With only one kind of pizza ordered, a Done too many for one order is right for the next. */
  lemma AlikeIsServed(s: System, nCooks: nat, p: Pizza, k: nat)
    requires nCooks > 0 && Arises(s, nCooks) && (forall x :: x in s.placed ==> x == p)
    requires 1 <= k <= |s.quantities| && k in s.book.announced
    ensures Served(s, k)
  {
    hide Arises, Prefix, Over;
    AnnouncedIsPaid(s, nCooks, k);
    AlikeIsDone(s, nCooks, p);
    AlikeTotals(s.placed[..Prefix(s.quantities, k)], s.placed, p, (q: Lens) => Over(s, DoneOf(q)));
  }

  // ------------------------------------------------------------- what customers can do

  /**
   What makes announcements right. Of all limits on the orders pending when another is placed and all sets
   of pizzas that may be ordered: every announcement of every run is right exactly if customers wait for an empty
   book, or order nothing but one pizza in one size.
   */
  lemma PatienceExactly(nCooks: nat, limit: nat, kinds: set<Pizza>)
    requires nCooks > 0
    ensures limit == 0 || |kinds| <= 1 <==>
            forall s, k :: ArisesFrom(s, nCooks, limit, kinds) && 1 <= k <= |s.quantities| && k in s.book.announced ==>
              Served(s, k)
  {
    hide Served, ArisesFrom;
    if limit == 0 || |kinds| <= 1 {
      forall s, k | ArisesFrom(s, nCooks, limit, kinds) && 1 <= k <= |s.quantities| && k in s.book.announced
        ensures Served(s, k)
      {
        AnnouncementIsRight(s, nCooks, limit, kinds, k);
      }
    } else {
      var first, later := TwoOf(kinds);
      var s := HasteMisleads(nCooks, first, later);
      MorePermissive(s, nCooks, limit, {first, later}, kinds);
    }
  }

  lemma AnnouncementIsRight(s: System, nCooks: nat, limit: nat, kinds: set<Pizza>, k: nat)
    requires nCooks > 0 && ArisesFrom(s, nCooks, limit, kinds) && (limit == 0 || |kinds| <= 1)
    requires 1 <= k <= |s.quantities| && k in s.book.announced
    ensures Served(s, k)
  {
    hide Served, Opening, Story, Patient, Ordered;
    var steps :|
      Story(Opening(nCooks), steps) == Some(s) && Patient(nCooks, steps, limit) && Ordered(steps, kinds);
    if limit == 0 {
      PatientOrdersAnnouncedWhenReady(s, nCooks, k);
    } else {
      OnlySuchPlaced(nCooks, steps, kinds);
      var p := if kinds == {} then ANY else var p :| p in kinds; p;
      OnlyOne(kinds, p);
      AlikeIsServed(s, nCooks, p, k);
    }
  }

  lemma OnlyOne(kinds: set<Pizza>, p: Pizza)
    requires |kinds| <= 1 && (kinds != {} ==> p in kinds)
    ensures forall x :: x in kinds ==> x == p
  {
    if kinds != {} {
      assert |kinds - {p}| == |kinds| - 1;
      assert kinds - {p} == {};
    }
  }

  lemma TwoOf(kinds: set<Pizza>) returns (first: Pizza, later: Pizza)
    requires |kinds| > 1
    ensures first in kinds && later in kinds && first != later
  {
    first :| first in kinds;
    assert |kinds - {first}| > 0;
    later :| later in kinds - {first};
  }

  lemma MorePermissive(s: System, nCooks: nat, limit: nat, some: set<Pizza>, kinds: set<Pizza>)
    requires ArisesFrom(s, nCooks, 1, some) && limit >= 1 && some <= kinds
    ensures ArisesFrom(s, nCooks, limit, kinds)
  {
    hide Opening, Story;
    var steps :| Story(Opening(nCooks), steps) == Some(s) && Patient(nCooks, steps, 1) && Ordered(steps, some);
    assert Patient(nCooks, steps, limit);
    assert Ordered(steps, kinds);
  }
}
