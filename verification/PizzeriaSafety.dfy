/** What every step of the whole system keeps. */
module PizzeriaSafety {
  import opened Menu
  import opened Sums
  import opened Kitchen
  import opened Protocol
  import opened LinkSafety
  import opened KitchenSafety
  import opened LinkEnds
  import opened LinkStatus
  import opened LinkTheorems
  import opened Allocation
  import opened Orders
  import opened Pizzeria

  // --------------------------------------------------------------- invariants

  ghost predicate LinksInv(s: System) {
    && s.nCooks > 0
    && (forall l :: l in s.links ==> Reachable(l, s.nCooks))
    && (forall l :: l in s.gone ==> Reachable(l, s.nCooks) && !l.h.alive && !l.log.quit)
  }

  /** Kitchens keep their opening order, and no id is used twice. */
  ghost predicate Ascending(links: seq<Link>, limit: nat) {
    && (forall i, j :: 0 <= i < j < |links| ==> links[i].h.id < links[j].h.id)
    && (forall i :: 0 <= i < |links| ==> links[i].h.id < limit)
  }

  /** What the reception's occupation says about the i-th kitchen. */
  predicate AtDesk(desk: Desk, i: nat, l: Link) {
    match desk
    case AtRest => !l.log.quit && (l.h.alive ==> !l.log.asked)
    case Updating(_) => !l.log.quit && (l.h.alive ==> !l.log.asked)
    case Dispatching(_) => !l.log.quit && l.h.alive && !l.log.asked
    case Asking(next) => !l.log.quit && (l.h.alive ==> if i < next then l.log.everAsked else !l.log.asked)
    case Surveying => !l.log.quit && (l.h.alive ==> l.log.everAsked)
    case Closing(next) => (l.h.alive ==> !l.log.asked && next <= i) && (l.log.quit ==> i <= next)
    case Closed => !l.h.alive
  }

  ghost predicate DeskInv(s: System) {
    forall i :: 0 <= i < |s.links| ==> AtDesk(s.desk, i, s.links[i])
  }

  ghost function SentOf(q: Lens): Link -> nat {
    (l: Link) => Sum(l.log.sent, Each(q))
  }

  ghost function DonesOf(l: Link): nat {
    |l.log.done|
  }

  ghost function SentTotal(q: Lens, s: System): nat {
    Sum(s.links, SentOf(q)) + Sum(s.gone, SentOf(q))
  }

  ghost function Dones(s: System): nat {
    Sum(s.links, DonesOf) + Sum(s.gone, DonesOf)
  }

  function Todo(desk: Desk): seq<Pizza> {
    match desk
    case Updating(todo) => todo
    case Dispatching(todo) => todo
    case _ => []
  }

  /** Every pizza ever ordered has been sent to some kitchen or is about to be. */
  ghost predicate Routed(q: Lens, s: System) {
    Sum(s.placed, Each(q)) == SentTotal(q, s) + Sum(Todo(s.desk), Each(q))
  }

  ghost predicate BookKept(s: System) {
    && BookInv(s.book, s.quantities, Dones(s))
    && Prefix(s.quantities, |s.quantities|) == |s.placed|
  }

  ghost predicate SystemInv(s: System) {
    && LinksInv(s) && Ascending(s.links, s.nextId) && DeskInv(s)
    && (forall q: Lens :: Routed(q, s))
    && BookKept(s)
  }

  lemma OpeningInv(nCooks: nat)
    requires nCooks > 0
    ensures SystemInv(Opening(nCooks))
  {
  }

  // ------------------------------------------------------------ one link changes

  lemma KitchenLeavesDeskAlone(l: Link, e: Event)
    requires OfKitchen(e) && Enabled(l, e)
    ensures Next(l, e).h == l.h && Next(l, e).log == l.log
  {
    hide Do, Can, Polled, NarrowStock, Handled, Noted;
  }

  /** Replacing one link by its successor keeps what is said of each link, and of their ids. */
  lemma LinkChanges(s: System, i: nat, l: Link)
    requires LinksInv(s) && Ascending(s.links, s.nextId) && i < |s.links|
    requires Reachable(l, s.nCooks) && l.h.id == s.links[i].h.id
    ensures LinksInv(After(s, i, l)) && Ascending(After(s, i, l).links, s.nextId)
  {
    hide Reachable;
    forall m | m in s.links[i := l] ensures Reachable(m, s.nCooks) {
      var j :| 0 <= j < |s.links| && s.links[i := l][j] == m;
      if j != i { assert s.links[j] in s.links; }
    }
  }

  lemma SameLogSameTotals(s: System, i: nat, l: Link, q: Lens)
    requires i < |s.links| && l.log.sent == s.links[i].log.sent
    ensures SentTotal(q, After(s, i, l)) == SentTotal(q, s)
  {
    SumUpdate(s.links, i, l, SentOf(q));
  }

  lemma SameLogSameDones(s: System, i: nat, l: Link)
    requires i < |s.links|
    ensures Dones(After(s, i, l)) + |s.links[i].log.done| == Dones(s) + |l.log.done|
  {
    SumUpdate(s.links, i, l, DonesOf);
  }

  /** A step of one link that sends no pizza and hears of no Done, at an occupation that allows it. */
  lemma QuietChange(s: System, i: nat, l: Link, desk: Desk)
    requires SystemInv(s) && i < |s.links| && Reachable(l, s.nCooks) && l.h.id == s.links[i].h.id
    requires l.log.sent == s.links[i].log.sent && l.log.done == s.links[i].log.done
    requires Todo(desk) == Todo(s.desk)
    requires AtDesk(desk, i, l) && forall j :: 0 <= j < |s.links| && j != i ==> AtDesk(desk, j, s.links[j])
    ensures SystemInv(After(s, i, l).(desk := desk))
  {
    hide Reachable, LinksInv, Ascending, AtDesk, BookInv, Prefix;
    var s' := After(s, i, l).(desk := desk);
    LinkChanges(s, i, l);
    assert LinksInv(s') && Ascending(s'.links, s'.nextId) by { SameLinks(After(s, i, l), s'); }
    forall q: Lens ensures Routed(q, s') {
      assert Routed(q, s);
      SameLogSameTotals(s, i, l, q);
    }
    SameLogSameDones(s, i, l);
  }

  lemma SameLinks(a: System, b: System)
    requires LinksInv(a) && b.nCooks == a.nCooks && b.links == a.links && b.gone == a.gone
    ensures LinksInv(b)
  {
    hide Reachable;
  }

  lemma KitchenStepKeepsInv(s: System, i: nat, e: Event)
    requires SystemInv(s) && Allowed(s, KitchenStep(i, e))
    ensures SystemInv(Perform(s, KitchenStep(i, e)))
  {
    hide Reachable, Enabled, Next, Ascending, Routed, BookKept;
    var l := s.links[i];
    KitchenLeavesDeskAlone(l, e);
    ReachNext(l, e, s.nCooks);
    QuietChange(s, i, Next(l, e), s.desk);
  }

  lemma AskNextKeepsInv(s: System)
    requires SystemInv(s) && Allowed(s, AskNext)
    ensures SystemInv(Perform(s, AskNext))
  {
    hide Reachable, Ascending, Routed, BookKept;
    var i := s.desk.next;
    var l := s.links[i];
    assert AtDesk(s.desk, i, l);
    forall j | 0 <= j < |s.links| && j != i ensures AtDesk(Asking(i + 1), j, s.links[j]) {
      assert AtDesk(s.desk, j, s.links[j]);
    }
    if l.h.alive {
      ReachNext(l, Ask, s.nCooks);
      QuietChange(s, i, Asked(l), Asking(i + 1));
    } else {
      assert After(s, i, l).links == s.links;
      QuietChange(s, i, l, Asking(i + 1));
    }
  }

  lemma CloseNextKeepsInv(s: System)
    requires SystemInv(s) && Allowed(s, CloseNext)
    ensures SystemInv(Perform(s, CloseNext))
  {
    hide Reachable, Ascending, Routed, BookKept;
    var i := s.desk.next;
    var l := s.links[i];
    assert AtDesk(s.desk, i, l);
    forall j | 0 <= j < |s.links| && j != i ensures AtDesk(s.desk, j, s.links[j]) {}
    if !l.h.alive {
      assert After(s, i, l).links == s.links;
      QuietChange(s, i, l, Closing(i + 1));
    } else if l.log.quit {
      ReachNext(l, Reap, s.nCooks);
      QuietChange(s, i, Reaped(l), s.desk);
    } else {
      ReachNext(l, Quit, s.nCooks);
      QuietChange(s, i, Dismissed(l), s.desk);
    }
  }

  // --------------------------------------------------------------- Done packets

  /** Across all kitchens, no more Dones have been heard of than pizzas sent. */
  lemma {:induction false} DonesWithinSent(links: seq<Link>, nCooks: nat)
    requires nCooks > 0
    requires forall l :: l in links ==> Reachable(l, nCooks)
    ensures Sum(links, DonesOf) <= Sum(links, SentOf(All))
  {
    hide Reachable;
    if links != [] {
      var n := |links| - 1;
      forall l | l in links[..n] ensures l in links {}
      DonesWithinSent(links[..n], nCooks);
      LinkDonesWithinSent(links[n], nCooks);
    }
  }

  lemma LinkDonesWithinSent(l: Link, nCooks: nat)
    requires nCooks > 0 && Reachable(l, nCooks)
    ensures DonesOf(l) <= SentOf(All)(l)
    ensures l.results != [] && l.results[0].DonePkt? ==> DonesOf(l) < SentOf(All)(l)
  {
    hide Reachable, KitchenInv, Conserved, OrdersEnd, ResultsEnd, StatusInv;
    ReachableInv(l, nCooks);
    EveryPizzaSeen(l.log.sent);
    assert Conserved(All, l);
    if l.results != [] && l.results[0].DonePkt? { AnswerFindsLoad(l); }
  }

  /** The book is never empty when a Done comes in. */
  lemma DoneIsAwaited(s: System, i: nat)
    requires SystemInv(s) && i < |s.links| && s.links[i].results != [] && s.links[i].results[0].DonePkt?
    ensures Dones(s) < Prefix(s.quantities, |s.quantities|)
  {
    hide Reachable, Ascending, DeskInv, BookInv, Prefix;
    var l := s.links[i];
    LinkDonesWithinSent(l, s.nCooks);
    DonesWithinSent(s.gone, s.nCooks);
    var others := s.links[..i] + s.links[i + 1..];
    forall m | m in others ensures m in s.links {}
    DonesWithinSent(others, s.nCooks);
    SumWithout(s.links, i, DonesOf);
    SumWithout(s.links, i, SentOf(All));
    assert Routed(All, s);
    EveryPizzaSeen(s.placed);
  }

  lemma TakeKeepsInv(s: System, i: nat)
    requires SystemInv(s) && Allowed(s, Take(i))
    ensures SystemInv(Perform(s, Take(i)))
  {
    var l := s.links[i];
    assert AtDesk(s.desk, i, l);
    ReceiveEffect(l);
    ReachNext(l, Receive, s.nCooks);
    hide Reachable, Ascending, AtDesk, Next, Enabled;
    assert AtDesk(s.desk, i, Next(l, Receive)) by { ReceiveStaysAtDesk(s.desk, i, l); }
    if l.results[0].DonePkt? {
      DoneChange(s, i, Next(l, Receive));
    } else {
      hide Routed, BookKept;
      QuietChange(s, i, Next(l, Receive), s.desk);
    }
  }

  lemma ReceiveEffect(l: Link)
    requires Enabled(l, Receive)
    ensures Next(l, Receive).h.id == l.h.id && Next(l, Receive).log.sent == l.log.sent
    ensures |Next(l, Receive).log.done| == |l.log.done| + if l.results[0].DonePkt? then 1 else 0
    ensures !l.results[0].DonePkt? ==> Next(l, Receive).log.done == l.log.done
  {
  }

  lemma ReceiveStaysAtDesk(desk: Desk, i: nat, l: Link)
    requires Enabled(l, Receive) && AtDesk(desk, i, l) && (desk.AtRest? || desk.Updating? || desk.Surveying?)
    ensures AtDesk(desk, i, Next(l, Receive))
  {
    hide Do, Can, Polled, NarrowStock;
  }

  lemma DoneChange(s: System, i: nat, l: Link)
    requires SystemInv(s) && i < |s.links| && Reachable(l, s.nCooks) && l.h.id == s.links[i].h.id
    requires s.links[i].results != [] && s.links[i].results[0].DonePkt?
    requires l.log.sent == s.links[i].log.sent && |l.log.done| == |s.links[i].log.done| + 1
    requires AtDesk(s.desk, i, l)
    ensures SystemInv(After(s, i, l).(book := Ticked(s.book)))
  {
    hide Reachable, LinksInv, Ascending, AtDesk, BookInv, Prefix;
    var s' := After(s, i, l).(book := Ticked(s.book));
    LinkChanges(s, i, l);
    assert LinksInv(s') && Ascending(s'.links, s'.nextId) by { SameLinks(After(s, i, l), s'); }
    forall q: Lens ensures Routed(q, s') {
      assert Routed(q, s);
      SameLogSameTotals(s, i, l, q);
    }
    SameLogSameDones(s, i, l);
    DoneIsAwaited(s, i);
    TickKeepsBook(s.book, s.quantities, Dones(s));
  }

  // ----------------------------------------------------------------- sweeping

  lemma {:induction false} SweepSplits(links: seq<Link>, w: Link -> nat)
    ensures Sum(Alive(links), w) + Sum(Dead(links), w) == Sum(links, w)
  {
    if links != [] {
      var n := |links| - 1;
      SweepSplits(links[..n], w);
      SumAppend(Alive(links[..n]), links[n], w);
      SumAppend(Dead(links[..n]), links[n], w);
      assert Alive(links[..n]) + [] == Alive(links[..n]) && Dead(links[..n]) + [] == Dead(links[..n]);
    }
  }

  lemma {:induction false} SweepSorts(links: seq<Link>)
    ensures forall l :: l in Alive(links) ==> l in links && l.h.alive
    ensures forall l :: l in Dead(links) ==> l in links && !l.h.alive
  {
    if links != [] {
      var n := |links| - 1;
      SweepSorts(links[..n]);
      forall l | l in links[..n] ensures l in links {}
    }
  }

  lemma {:induction false} SweepKeepsOrder(links: seq<Link>, limit: nat)
    requires Ascending(links, limit)
    ensures Ascending(Alive(links), limit)
  {
    if links != [] {
      var n := |links| - 1;
      SweepKeepsOrder(links[..n], limit);
      SweepSorts(links[..n]);
      var alive := Alive(links[..n]);
      assert Alive(links) == alive + if links[n].h.alive then [links[n]] else [];
      hide Alive, Dead;
      forall i | 0 <= i < |alive| ensures alive[i].h.id < links[n].h.id {
        assert alive[i] in alive;
        var j :| 0 <= j < n && links[j] == alive[i];
      }
    }
  }

  lemma SweepKeepsTotals(s: System, q: Lens)
    ensures SentTotal(q, Swept(s)) == SentTotal(q, s)
    ensures Dones(Swept(s)) == Dones(s)
  {
    SweepSplits(s.links, SentOf(q));
    SumConcat(s.gone, Dead(s.links), SentOf(q));
    SweepSplits(s.links, DonesOf);
    SumConcat(s.gone, Dead(s.links), DonesOf);
  }

  lemma SweepKeepsDesk(s: System, desk: Desk)
    requires DeskInv(s)
    requires (s.desk.AtRest? && desk == s.desk) || (s.desk.Updating? && desk == Dispatching(s.desk.todo))
    ensures DeskInv(Swept(s).(desk := desk))
  {
    SweepSorts(s.links);
    var alive := Alive(s.links);
    hide Alive, Dead;
    forall i | 0 <= i < |alive| ensures AtDesk(desk, i, alive[i]) {
      assert alive[i] in alive;
      var j :| 0 <= j < |s.links| && s.links[j] == alive[i];
      assert AtDesk(s.desk, j, s.links[j]);
    }
  }

  lemma SweepKeepsLinks(s: System)
    requires LinksInv(s) && Ascending(s.links, s.nextId) && DeskInv(s) && (s.desk.AtRest? || s.desk.Updating?)
    ensures LinksInv(Swept(s)) && Ascending(Swept(s).links, s.nextId)
  {
    hide Reachable, Ascending;
    SweepSorts(s.links);
    SweepKeepsOrder(s.links, s.nextId);
    hide Alive, Dead;
    forall l | l in Dead(s.links) ensures Reachable(l, s.nCooks) && !l.h.alive && !l.log.quit {
      var j :| 0 <= j < |s.links| && s.links[j] == l;
      assert AtDesk(s.desk, j, s.links[j]);
    }
  }

  lemma SweepKeepsInv(s: System, desk: Desk)
    requires SystemInv(s)
    requires (s.desk.AtRest? && desk == s.desk) || (s.desk.Updating? && desk == Dispatching(s.desk.todo))
    ensures SystemInv(Swept(s).(desk := desk))
  {
    hide DeskInv, Reachable, Ascending, BookInv, Prefix, Alive, Dead;
    var s' := Swept(s).(desk := desk);
    SweepKeepsDesk(s, desk);
    SweepKeepsLinks(s);
    forall q: Lens ensures Routed(q, s') {
      assert Routed(q, s);
      SweepKeepsTotals(s, q);
    }
    SweepKeepsTotals(s, All);
  }

  // ------------------------------------------------------------------ dispatch

  lemma PlaceOrderKeepsInv(s: System, pizzas: seq<Pizza>)
    requires SystemInv(s) && Allowed(s, PlaceOrder(pizzas))
    ensures SystemInv(Perform(s, PlaceOrder(pizzas)))
  {
    hide Reachable, Ascending, BookInv, Entered;
    var s' := Perform(s, PlaceOrder(pizzas));
    forall q: Lens ensures Routed(q, s') {
      assert Routed(q, s);
      SumConcat(s.placed, pizzas, Each(q));
    }
    forall i | 0 <= i < |s'.links| ensures AtDesk(s'.desk, i, s'.links[i]) {
      assert AtDesk(s.desk, i, s.links[i]);
    }
    assert Dones(s') == Dones(s);
    if |pizzas| > 0 {
      EnteringKeepsBook(s.book, s.quantities, Dones(s), |pizzas|);
      PrefixExtended(s.quantities, |pizzas|, |s.quantities|);
    } else {
      NothingEntered(s.book);
    }
  }

  lemma NothingEntered(b: Book)
    ensures Entered(b, 0) == b
  {
  }

  /** The kitchen the allocation loop picks can be sent a pizza. */
  lemma BestIsReady(s: System, pizza: Pizza)
    requires SystemInv(s) && s.desk.Dispatching? && Best(Handles(s.links)).Some?
    ensures Best(Handles(s.links)).value < |s.links|
    ensures Enabled(s.links[Best(Handles(s.links)).value], Deliver(pizza))
  {
    hide Reachable, Ascending, Routed, BookKept, Best;
    BestIsBest(Handles(s.links));
    var b := Best(Handles(s.links)).value;
    assert AtDesk(s.desk, b, s.links[b]) && HasRoom(s.links[b].h);
  }

  lemma DeliveryCounts(s: System, s': System, pizza: Pizza)
    requires s.desk.Dispatching? && s.desk.todo != [] && s.desk.todo[0] == pizza
    requires (forall q: Lens :: Routed(q, s)) && BookKept(s)
    requires s'.placed == s.placed && s'.book == s.book && s'.quantities == s.quantities
    requires s'.desk == Dispatching(s.desk.todo[1..])
    requires Dones(s') == Dones(s)
    requires forall q: Lens :: SentTotal(q, s') == SentTotal(q, s) + Seen(q, pizza)
    ensures (forall q: Lens :: Routed(q, s')) && BookKept(s')
  {
    forall q: Lens ensures Routed(q, s') {
      assert Routed(q, s) && SentTotal(q, s') == SentTotal(q, s) + Seen(q, pizza);
      SumTail(s.desk.todo, Each(q));
    }
  }

  /** What the reception sees of a delivery. */
  lemma DeliveryEffect(l: Link, pizza: Pizza, nCooks: nat)
    requires Reachable(l, nCooks) && Enabled(l, Deliver(pizza))
    ensures Reachable(Delivered(l, pizza), nCooks)
    ensures Delivered(l, pizza).log == l.log.(sent := l.log.sent + [pizza])
    ensures Delivered(l, pizza).h == l.h.(load := l.h.load + 1)
  {
    hide Reachable;
    ReachNext(l, Deliver(pizza), nCooks);
  }

  lemma SendCounts(s: System, b: nat, l: Link, pizza: Pizza, q: Lens)
    requires b < |s.links| && l.log.sent == s.links[b].log.sent + [pizza]
    ensures SentTotal(q, After(s, b, l)) == SentTotal(q, s) + Seen(q, pizza)
  {
    SumAppend(s.links[b].log.sent, pizza, Each(q));
    SumUpdate(s.links, b, l, SentOf(q));
  }

  lemma SendKeepsInv(s: System, b: nat)
    requires SystemInv(s) && s.desk.Dispatching? && s.desk.todo != []
    requires b < |s.links| && Enabled(s.links[b], Deliver(s.desk.todo[0]))
    ensures SystemInv(After(s, b, Delivered(s.links[b], s.desk.todo[0])).(desk := Dispatching(s.desk.todo[1..])))
  {
    hide Reachable, Ascending, BookKept, Routed, Enabled, Delivered, SentTotal, Dones;
    var pizza := s.desk.todo[0];
    var l := Delivered(s.links[b], pizza);
    var s1 := After(s, b, l);
    var s' := s1.(desk := Dispatching(s.desk.todo[1..]));
    DeliveryEffect(s.links[b], pizza, s.nCooks);
    LinkChanges(s, b, l);
    forall i | 0 <= i < |s'.links| ensures AtDesk(s'.desk, i, s'.links[i]) {
      assert AtDesk(s.desk, i, s.links[i]);
    }
    forall q: Lens ensures SentTotal(q, s') == SentTotal(q, s) + Seen(q, pizza) {
      SendCounts(s, b, l, pizza, q);
      DeskIsNoTotal(s1, s'.desk, q);
    }
    SameLogSameDones(s, b, l);
    DeskIsNoTotal(s1, s'.desk, All);
    DeliveryCounts(s, s', pizza);
  }

  lemma DeskIsNoTotal(s: System, desk: Desk, q: Lens)
    ensures SentTotal(q, s.(desk := desk)) == SentTotal(q, s) && Dones(s.(desk := desk)) == Dones(s)
  {
  }

  lemma SpawnCounts(s: System, l: Link, s': System, pizza: Pizza, q: Lens)
    requires l.log.sent == [pizza] && l.log.done == [] && s'.links == s.links + [l] && s'.gone == s.gone
    ensures SentTotal(q, s') == SentTotal(q, s) + Seen(q, pizza)
    ensures Dones(s') == Dones(s)
  {
    SumAppend(s.links, l, SentOf(q));
    SumAppend(s.links, l, DonesOf);
    SumAppend([], pizza, Each(q));
  }

  lemma NewcomerInv(id: nat, nCooks: nat, pizza: Pizza)
    requires nCooks > 0
    ensures var l := Delivered(NewLink(id, nCooks), pizza);
      Reachable(l, nCooks) && l.h.id == id && l.h.alive && l.log == Log([pizza], [], [], false, false, false)
  {
    hide Reachable, NewKitchen;
    NewLinkReachable(id, nCooks);
    assert [] + [pizza] == [pizza];
    DeliveryEffect(NewLink(id, nCooks), pizza, nCooks);
  }

  lemma SpawnKeepsInv(s: System)
    requires SystemInv(s) && s.desk.Dispatching? && s.desk.todo != []
    ensures SystemInv(s.(links := s.links + [Delivered(NewLink(s.nextId, s.nCooks), s.desk.todo[0])],
                         nextId := s.nextId + 1, desk := Dispatching(s.desk.todo[1..])))
  {
    hide Reachable, BookKept, Routed, Delivered, SentTotal, Dones, NewLink;
    var pizza := s.desk.todo[0];
    var l := Delivered(NewLink(s.nextId, s.nCooks), pizza);
    var s' := s.(links := s.links + [l], nextId := s.nextId + 1, desk := Dispatching(s.desk.todo[1..]));
    NewcomerInv(s.nextId, s.nCooks, pizza);
    forall i | 0 <= i < |s'.links| ensures AtDesk(s'.desk, i, s'.links[i]) {
      if i < |s.links| { assert AtDesk(s.desk, i, s.links[i]); }
    }
    forall q: Lens ensures SentTotal(q, s') == SentTotal(q, s) + Seen(q, pizza) {
      SpawnCounts(s, l, s', pizza, q);
    }
    SpawnCounts(s, l, s', pizza, All);
    DeliveryCounts(s, s', pizza);
  }

  lemma DispatchOneKeepsInv(s: System)
    requires SystemInv(s) && Allowed(s, DispatchOne)
    ensures SystemInv(Perform(s, DispatchOne))
  {
    hide SystemInv, Best;
    BestIsBest(Handles(s.links));
    var best := Best(Handles(s.links));
    if best.Some? {
      BestIsReady(s, s.desk.todo[0]);
      SendKeepsInv(s, best.value);
    } else {
      SpawnKeepsInv(s);
    }
  }

  /** The steps that only change what the reception is doing. */
  lemma DeskChangeKeepsDesk(s: System, a: Step)
    requires DeskInv(s) && Allowed(s, a)
    requires a.EndDispatch? || a.StartSurvey? || a.EndSurvey? || a.StartClosing? || a.EndClosing?
    ensures DeskInv(Perform(s, a))
  {
    var s' := Perform(s, a);
    forall i | 0 <= i < |s'.links| ensures AtDesk(s'.desk, i, s'.links[i]) {
      assert AtDesk(s.desk, i, s.links[i]);
    }
  }

  lemma OnlyDeskChanges(s: System, desk: Desk)
    requires SystemInv(s) && Todo(desk) == Todo(s.desk) && DeskInv(s.(desk := desk))
    ensures SystemInv(s.(desk := desk))
  {
    hide Reachable, Ascending, DeskInv, BookInv, Prefix, Todo;
    forall q: Lens ensures Routed(q, s.(desk := desk)) {
      assert Routed(q, s);
    }
  }

  lemma DeskChangeKeepsInv(s: System, a: Step)
    requires SystemInv(s) && Allowed(s, a)
    requires a.EndDispatch? || a.StartSurvey? || a.EndSurvey? || a.StartClosing? || a.EndClosing?
    ensures SystemInv(Perform(s, a))
  {
    assert DeskInv(s);
    hide SystemInv, DeskInv, Perform, Allowed;
    DeskChangeKeepsDesk(s, a);
    DeskChangeIsAll(s, a);
    OnlyDeskChanges(s, Perform(s, a).desk);
  }

  lemma DeskChangeIsAll(s: System, a: Step)
    requires Allowed(s, a)
    requires a.EndDispatch? || a.StartSurvey? || a.EndSurvey? || a.StartClosing? || a.EndClosing?
    ensures Perform(s, a) == s.(desk := Perform(s, a).desk) && Todo(Perform(s, a).desk) == Todo(s.desk)
  {
  }

  /** Every step of the system keeps the invariant. */
  lemma StepKeepsInv(s: System, a: Step)
    requires SystemInv(s) && Allowed(s, a)
    ensures SystemInv(Perform(s, a))
  {
    hide SystemInv, AtDesk, Alive, Dead, Sent;
    match a
    case KitchenStep(i, e) => KitchenStepKeepsInv(s, i, e);
    case PlaceOrder(pizzas) => PlaceOrderKeepsInv(s, pizzas);
    case Take(i) => TakeKeepsInv(s, i);
    case Sweep => SweepKeepsInv(s, s.desk);
    case StartDispatch => SweepKeepsInv(s, Dispatching(s.desk.todo));
    case DispatchOne => DispatchOneKeepsInv(s);
    case AskNext => AskNextKeepsInv(s);
    case CloseNext => CloseNextKeepsInv(s);
    case _ => DeskChangeKeepsInv(s, a);
  }
}
