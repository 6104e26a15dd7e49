/**
 Refusals: exactly when addPizza refuses, and how low a reception has to keep its own
 load so that it never does.
 */
module Refusals {
  import opened Menu
  import opened Sums
  import opened Kitchen
  import opened KitchenSafety
  import opened Protocol
  import opened LinkSafety
  import opened LinkTheorems

  /** The cooks whose Done is out while their pizza still counts in the pool's load. */
  ghost function Lagging(c: Cook): nat {
    if c.Announced? || c.Cleared? then 1 else 0
  }

  lemma {:induction false} HeldSplits(cooks: seq<Cook>)
    ensures Sum(cooks, Held) == Sum(cooks, Undone(All)) + Sum(cooks, Lagging)
  {
    if cooks != [] {
      HeldSplits(cooks[..|cooks| - 1]);
    }
  }

  lemma {:induction false} LaggingAtMostAll(cooks: seq<Cook>)
    ensures Sum(cooks, Lagging) <= |cooks|
  {
    if cooks != [] {
      LaggingAtMostAll(cooks[..|cooks| - 1]);
    }
  }

  /**
   addPizza refuses exactly if the cooks that have sent Done and not yet executed --load are one
   more than the free slots the reception sees and the packets in the two queues that it
   counts. So there is such a cook, and the reception's load is above the number of cooks.
   */
  lemma RefusalExactly(l: Link, nCooks: nat)
    requires nCooks > 0 && Reachable(l, nCooks) && Enabled(l, Inside(AddTest))
    ensures Next(l, Inside(AddTest)).k.worker.Refusing? <==>
            Sum(l.k.cooks, Lagging) == 1 + (2 * nCooks - l.h.load)
              + Sum(l.orders, PizzaIn(All)) + Sum(l.results, DoneIn(All)) + Sum(l.results, FullIn(All))
    ensures Next(l, Inside(AddTest)).k.worker.Refusing? ==> l.h.load > nCooks
    ensures Next(l, Inside(AddTest)).k.worker.Refusing? ==>
            exists i :: 0 <= i < |l.k.cooks| && (l.k.cooks[i].Announced? || l.k.cooks[i].Cleared?)
  {
    hide Reachable, Held, Each;
    ReceptionLoadAccounted(l, nCooks);
    PoolLoadAccounted(l, nCooks);
    HeldSplits(l.k.cooks);
    EveryPizzaSeen(l.k.pool.queue);
    LaggingAtMostAll(l.k.cooks);
    if Sum(l.k.cooks, Lagging) > 0 {
      var i := SumWitness(l.k.cooks, Lagging);
    }
  }

  // ------------------------------------------------------- a careful reception

  /** In this run the reception sends a pizza only while its own load is below a limit. */
  ghost predicate SentBelow(l: Link, events: seq<Event>, limit: nat) {
    forall i :: 0 <= i < |events| && events[i].Deliver? ==>
      Run(l, events[..i]).Some? && Run(l, events[..i]).value.h.load < limit
  }

  ghost predicate ReachableBelow(l: Link, nCooks: nat, limit: nat) {
    exists id, events :: Run(NewLink(id, nCooks), events) == Some(l) && SentBelow(NewLink(id, nCooks), events, limit)
  }

  /** No refusal under way, and none ever sent. */
  ghost predicate Unrefused(l: Link, limit: nat) {
    && !l.k.worker.Refusing? && Sum(l.results, FullIn(All)) == 0 && l.log.full == [] && l.h.load <= limit
  }

  lemma MoveKeepsUnrefused(l: Link, m: Move, nCooks: nat, limit: nat)
    requires nCooks > 0 && Reachable(l, nCooks) && Enabled(l, Inside(m)) && Unrefused(l, limit) && limit <= nCooks
    ensures Unrefused(Next(l, Inside(m)), limit)
  {
    hide Reachable, Can, Do, Sum;
    if m == AddTest { RefusalExactly(l, nCooks); } else { OnlyTestRefuses(l.k, m); }
  }

  lemma SpeakingKeepsUnrefused(l: Link, w: Worker, cooks: seq<Cook>, p: Packet, limit: nat)
    requires Unrefused(l, limit) && !w.Refusing? && !p.FullPkt?
    ensures Unrefused(l.(k := l.k.(worker := w, cooks := cooks), results := l.results + [p]), limit)
  {
    SumAppend(l.results, p, FullIn(All));
  }

  lemma EventKeepsUnrefused(l: Link, e: Event, nCooks: nat, limit: nat)
    requires nCooks > 0 && Reachable(l, nCooks) && Enabled(l, e) && Unrefused(l, limit) && limit <= nCooks
    requires e.Deliver? ==> l.h.load < limit
    ensures Unrefused(Next(l, e), limit)
  {
    match e
    case Inside(m) => hide Reachable, Next, Enabled, Unrefused; MoveKeepsUnrefused(l, m, nCooks, limit);
    case SendCook =>
      SpeakingKeepsUnrefused(l, Next(l, e).k.worker, l.k.cooks, CookPkt(l.k.worker.todo[0]), limit);
      hide Reachable, Unrefused;
    case SendReply =>
      hide NarrowStock;
      SpeakingKeepsUnrefused(l, IdleCheck(false), l.k.cooks, Next(l, e).results[|l.results|], limit);
      hide Reachable, Unrefused;
    case Announce(i) =>
      SpeakingKeepsUnrefused(l, l.k.worker, Next(l, e).k.cooks, DonePkt(Pack(l.k.cooks[i].pizza)), limit);
      hide Reachable, Unrefused;
    case Goodbye =>
      SpeakingKeepsUnrefused(l, Finished, l.k.cooks, ShutdownPkt, limit);
      hide Reachable, Unrefused;
    case Receive => hide Reachable; ReceiveKeepsUnrefused(l, limit);
    case Poll => hide Reachable, Ticket;
    case _ => hide Reachable;
  }

  lemma ReceiveKeepsUnrefused(l: Link, limit: nat)
    requires Unrefused(l, limit) && Enabled(l, Receive)
    ensures Unrefused(Next(l, Receive), limit)
  {
    SumTail(l.results, FullIn(All));
  }

  lemma OnlyTestRefuses(k: Kitchen, m: Move)
    requires Can(k, m) && m != AddTest
    ensures Do(k, m).worker.Refusing? ==> k.worker.Refusing?
  {
    hide AllAvailable, Needs, Without, Slumber;
  }

  lemma {:induction false} StaysUnrefused(id: nat, nCooks: nat, events: seq<Event>, limit: nat)
    requires nCooks > 0 && limit <= nCooks
    requires Run(NewLink(id, nCooks), events).Some? && SentBelow(NewLink(id, nCooks), events, limit)
    ensures Unrefused(Run(NewLink(id, nCooks), events).value, limit)
  {
    if events != [] {
      hide Unrefused, Next, Enabled, NewLink, Reachable;
      var n := |events| - 1;
      var front := events[..n];
      forall i | 0 <= i < n && front[i].Deliver?
        ensures Run(NewLink(id, nCooks), front[..i]).Some? && Run(NewLink(id, nCooks), front[..i]).value.h.load < limit
      {
        assert events[i].Deliver? && front[..i] == events[..i];
      }
      StaysUnrefused(id, nCooks, front, limit);
      var l := Run(NewLink(id, nCooks), front).value;
      assert Reachable(l, nCooks) by { RunReaches(id, nCooks, front); }
      EventKeepsUnrefused(l, events[n], nCooks, limit);
    }
  }

  lemma RunReaches(id: nat, nCooks: nat, events: seq<Event>)
    requires Run(NewLink(id, nCooks), events).Some?
    ensures Reachable(Run(NewLink(id, nCooks), events).value, nCooks)
  {
  }

  /**
   How careful the reception has to be. If it sends pizzas only while its load is below a limit,
   then the limit being at most the number of cooks is exactly what rules out every refusal.
   With its actual limit, twice that number, refusals do happen.
   */
  lemma SafeLimitExactly(nCooks: nat, limit: nat)
    requires nCooks > 0
    ensures limit <= nCooks <==>
            forall l :: ReachableBelow(l, nCooks, limit) ==>
              l.log.full == [] && !(Enabled(l, Inside(AddTest)) && Next(l, Inside(AddTest)).k.worker.Refusing?)
  {
    hide Next, Enabled, NewLink;
    if limit <= nCooks {
      forall l | ReachableBelow(l, nCooks, limit)
        ensures l.log.full == [] && !(Enabled(l, Inside(AddTest)) && Next(l, Inside(AddTest)).k.worker.Refusing?)
      {
        NeverRefused(l, nCooks, limit);
      }
    } else {
      var l := RefusalHappens(nCooks);
      PoliteIsBelow(l, nCooks, limit);
    }
  }

  lemma NeverRefused(l: Link, nCooks: nat, limit: nat)
    requires nCooks > 0 && limit <= nCooks && ReachableBelow(l, nCooks, limit)
    ensures l.log.full == [] && !(Enabled(l, Inside(AddTest)) && Next(l, Inside(AddTest)).k.worker.Refusing?)
  {
    hide Next, Enabled, NewLink, Run, SentBelow;
    var id, events :| Run(NewLink(id, nCooks), events) == Some(l) && SentBelow(NewLink(id, nCooks), events, limit);
    StaysUnrefused(id, nCooks, events, limit);
    RunReaches(id, nCooks, events);
    if Enabled(l, Inside(AddTest)) { RefusalExactly(l, nCooks); }
  }

  // ------------------------------------------------- a refusal as low as possible

  /** Reached with every pizza sent at a load of nCooks at most. */
  ghost predicate Polite(l: Link, nCooks: nat) {
    ReachableBelow(l, nCooks, nCooks + 1)
  }

  lemma PoliteIsBelow(l: Link, nCooks: nat, limit: nat)
    requires Polite(l, nCooks) && limit > nCooks
    ensures ReachableBelow(l, nCooks, limit)
  {
    hide Run, NewLink;
    var id, events :|
      Run(NewLink(id, nCooks), events) == Some(l) && SentBelow(NewLink(id, nCooks), events, nCooks + 1);
    assert SentBelow(NewLink(id, nCooks), events, limit);
  }

  /** One more event of a run. */
  lemma FollowBelow(l: Link, e: Event, nCooks: nat) returns (l': Link)
    requires Polite(l, nCooks) && Enabled(l, e) && (e.Deliver? ==> l.h.load <= nCooks)
    ensures Polite(l', nCooks) && l' == Next(l, e)
  {
    hide Next, Enabled, NewLink;
    l' := Next(l, e);
    var id, events :|
      Run(NewLink(id, nCooks), events) == Some(l) && SentBelow(NewLink(id, nCooks), events, nCooks + 1);
    var more := events + [e];
    assert more[..|events|] == events;
    assert Run(NewLink(id, nCooks), more) == Some(l');
    forall i | 0 <= i < |more| && more[i].Deliver?
      ensures Run(NewLink(id, nCooks), more[..i]).Some? && Run(NewLink(id, nCooks), more[..i]).value.h.load < nCooks + 1
    {
      if i < |events| { assert more[..i] == events[..i] && events[i].Deliver?; }
    }
  }

  /** At least so many units of everything, and nobody at the stock. */
  ghost predicate Stocked(p: Pantry, units: int) {
    p.open && p.lock.Free? && forall x :: x in ALL_INGREDIENTS ==> p.stock[x] >= units
  }

  /** Between two packets, with nothing on its way in either direction. */
  ghost predicate Calm(l: Link, nCooks: nat) {
    && l.h.alive && !l.log.quit && l.h.capacity == 2 * nCooks == 2 * |l.k.cooks|
    && l.orders == [] && l.results == [] && l.k.worker == Polling && l.k.exit.StillOpen?
    && l.k.pool.running && l.k.pool.lock.Free?
  }

  /**
   The first cooks have sent Done, which the reception has read, and not lowered the load; so many
   pizzas are queued.
   */
  ghost predicate Stage(l: Link, nCooks: nat, cooks: nat, pizzas: nat) {
    && Calm(l, nCooks) && l.h.load == |l.k.pool.queue| == pizzas && l.k.pool.load == pizzas + cooks
    && forall j :: 0 <= j < nCooks ==> if j < cooks then l.k.cooks[j].Announced? else l.k.cooks[j] == Ready
  }

  lemma Start(nCooks: nat) returns (l: Link)
    ensures Polite(l, nCooks) && l == NewLink(0, nCooks) && Stage(l, nCooks, 0, 0) && Stocked(l.k.pantry, 5)
  {
    l := NewLink(0, nCooks);
    assert Run(l, []) == Some(l);
  }

  /** Regenerations while every cook is at the queue. */
  lemma {:induction false} StockUp(l: Link, nCooks: nat, units: int, more: nat) returns (l': Link)
    requires Polite(l, nCooks) && Stage(l, nCooks, 0, 0) && Stocked(l.k.pantry, units)
    ensures Polite(l', nCooks) && Stage(l', nCooks, 0, 0) && Stocked(l'.k.pantry, units + more)
  {
    hide Polite;
    l' := l;
    if more > 0 {
      l' := StockUp(l, nCooks, units, more - 1);
      l' := TickOnce(l', nCooks, units + more - 1);
    }
  }

  lemma TickOnce(l: Link, nCooks: nat, units: int) returns (l': Link)
    requires Polite(l, nCooks) && Stage(l, nCooks, 0, 0) && Stocked(l.k.pantry, units)
    ensures Polite(l', nCooks) && Stage(l', nCooks, 0, 0) && Stocked(l'.k.pantry, units + 1)
  {
    hide Polite, Handled, Polled, AllAvailable, Needs, Without;
    l' := FollowBelow(l, Inside(TickLock), nCooks);
    l' := FollowBelow(l', Inside(Tick), nCooks);
  }

  /** The reception sends a pizza, and the main thread finds room for it. */
  lemma FindRoom(l: Link, nCooks: nat) returns (l': Link)
    requires Polite(l, nCooks) && Calm(l, nCooks) && 0 < nCooks && l.h.load <= nCooks && l.k.pool.load < 2 * nCooks
    ensures Polite(l', nCooks)
    ensures l' == l.(h := l.h.(load := l.h.load + 1), log := l'.log,
                     k := l.k.(worker := AddPushing(ANY), pool := l.k.pool.(lock := ByWorker)))
    ensures !l'.log.quit
  {
    l' := ReachTest(l, nCooks);
    hide Polite, Handled, Polled, AllAvailable, Needs, Without;
    l' := FollowBelow(l', Inside(AddTest), nCooks);
  }

  /** Up to the test, whatever it will find. */
  lemma ReachTest(l: Link, nCooks: nat) returns (l': Link)
    requires Polite(l, nCooks) && Calm(l, nCooks) && 0 < nCooks && l.h.load <= nCooks
    ensures Polite(l', nCooks)
    ensures l' == l.(h := l.h.(load := l.h.load + 1), log := l'.log,
                     k := l.k.(worker := AddTesting(ANY), pool := l.k.pool.(lock := ByWorker)))
    ensures !l'.log.quit
  {
    hide Polite, Handled, AllAvailable, Needs, Without;
    TicketIsOrdered(Pack(ANY));
    l' := FollowBelow(l, Deliver(ANY), nCooks);
    l' := FollowBelow(l', Poll, nCooks);
    l' := FollowBelow(l', Inside(AddLock), nCooks);
  }

  lemma TakeOneIn(l: Link, nCooks: nat, cooks: nat, pizzas: nat) returns (l': Link)
    requires Polite(l, nCooks) && Stage(l, nCooks, cooks, pizzas) && cooks <= nCooks && pizzas < nCooks
    ensures Polite(l', nCooks) && Stage(l', nCooks, cooks, pizzas + 1) && l'.k.pantry == l.k.pantry
  {
    hide Polite;
    l' := FindRoom(l, nCooks);
    l' := PutIn(l', nCooks);
  }

  /** The rest of addPizza, with nobody asleep, and the idle check. */
  lemma PutIn(l: Link, nCooks: nat) returns (l': Link)
    requires Polite(l, nCooks) && l.k.worker == AddPushing(ANY) && !Slumber(l.k.cooks)
    ensures Polite(l', nCooks)
    ensures l' == l.(k := l.k.(worker := Polling,
                               pool := Pool(l.k.pool.queue + [ANY], l.k.pool.load + 1, l.k.pool.running, Free)))
  {
    hide Polite, Handled, Polled, AllAvailable, Needs, Without;
    l' := FollowBelow(l, Inside(AddPush), nCooks);
    l' := FollowBelow(l', Inside(AddCount), nCooks);
    l' := NotifyNobody(l', nCooks);
  }

  lemma NotifyNobody(l: Link, nCooks: nat) returns (l': Link)
    requires Polite(l, nCooks) && l.k.worker.AddNotifying? && !Slumber(l.k.cooks)
    ensures Polite(l', nCooks) && l' == l.(k := l.k.(worker := Polling, pool := l.k.pool.(lock := Free)))
  {
    hide Polite, Handled, Polled, AllAvailable, Needs, Without;
    l' := FollowBelow(l, Inside(AddNotify(None)), nCooks);
    l' := FollowBelow(l', Inside(Doze), nCooks);
  }

  lemma {:induction false} FillUp(l: Link, nCooks: nat, cooks: nat, pizzas: nat) returns (l': Link)
    requires Polite(l, nCooks) && Stage(l, nCooks, cooks, 0) && cooks <= nCooks && pizzas <= nCooks
    ensures Polite(l', nCooks) && Stage(l', nCooks, cooks, pizzas) && l'.k.pantry == l.k.pantry
  {
    hide Polite, Stage;
    l' := l;
    if pizzas > 0 {
      l' := FillUp(l, nCooks, cooks, pizzas - 1);
      l' := TakeOneIn(l', nCooks, cooks, pizzas - 1);
    }
  }

  /** The next cook fetches a pizza and gets as far as the stock. */
  lemma Fetch(l: Link, nCooks: nat, i: nat) returns (l': Link, pizza: Pizza)
    requires Polite(l, nCooks) && Calm(l, nCooks) && i < nCooks && l.k.cooks[i] == Ready
    requires l.k.pool.queue != [] && l.k.pantry.lock.Free?
    ensures Polite(l', nCooks)
    ensures l' == l.(k := l.k.(cooks := l.k.cooks[i := Tasting(pizza)],
                               pool := l.k.pool.(queue := l.k.pool.queue[1..]),
                               pantry := l.k.pantry.(lock := ByCook(i))))
  {
    hide Polite, Handled, Polled, AllAvailable, Needs, Without;
    l' := FollowBelow(l, Inside(CookLock(i)), nCooks);
    l' := FollowBelow(l', Inside(CookCheck(i)), nCooks);
    pizza := l'.k.cooks[i].pizza;
    l' := FollowBelow(l', Inside(CookStart(i)), nCooks);
    l' := FollowBelow(l', Inside(StockLock(i)), nCooks);
  }

  /** Its Done is out and read; --load is still to come. */
  lemma Bake(l: Link, nCooks: nat, i: nat, pizzas: nat, units: int) returns (l': Link)
    requires Polite(l, nCooks) && Stage(l, nCooks, i, pizzas) && i < nCooks && pizzas > 0
    requires Stocked(l.k.pantry, units) && units > 0
    ensures Polite(l', nCooks) && Stage(l', nCooks, i + 1, pizzas - 1) && Stocked(l'.k.pantry, units - 1)
  {
    hide Polite;
    var pizza;
    l', pizza := Fetch(l, nCooks, i);
    EverythingIsThere(l.k.pantry.stock, units, pizza.kind);
    hide AllAvailable, Needs, Without, Handled, Polled;
    l' := FollowBelow(l', Inside(StockTry(i)), nCooks);
    assert Stocked(l'.k.pantry, units - 1);
    l' := Hear(l', nCooks, i);
  }

  lemma EverythingIsThere(stock: Stock, units: int, kind: PizzaType)
    requires units > 0 && forall x :: x in ALL_INGREDIENTS ==> stock[x] >= units
    ensures AllAvailable(stock, Needs(kind))
    ensures forall x :: x in ALL_INGREDIENTS ==> Without(stock, Needs(kind))[x] >= units - 1
  {
  }

  lemma Hear(l: Link, nCooks: nat, i: nat) returns (l': Link)
    requires Polite(l, nCooks) && i < |l.k.cooks| && l.k.cooks[i].Baking?
    requires l.results == [] && l.h.alive && !l.log.quit && l.h.load > 0
    ensures Polite(l', nCooks) && !l'.log.quit
    ensures l' == l.(h := l.h.(load := l.h.load - 1), log := l'.log,
                     k := l.k.(cooks := l.k.cooks[i := Announced(l.k.cooks[i].pizza)]))
  {
    hide Polite;
    l' := FollowBelow(l, Announce(i), nCooks);
    l' := FollowBelow(l', Receive, nCooks);
  }

  lemma {:induction false} BakeAll(l: Link, nCooks: nat, cooks: nat, units: int) returns (l': Link)
    requires Polite(l, nCooks) && Stage(l, nCooks, 0, nCooks) && Stocked(l.k.pantry, units) && cooks <= nCooks <= units
    ensures Polite(l', nCooks) && Stage(l', nCooks, cooks, nCooks - cooks) && Stocked(l'.k.pantry, units - cooks)
  {
    hide Polite, Stocked;
    l' := l;
    if cooks > 0 {
      hide Stage;
      l' := BakeAll(l, nCooks, cooks - 1, units);
      l' := Bake(l', nCooks, cooks - 1, nCooks - (cooks - 1), units - (cooks - 1));
    }
  }

  /**
   A refusal at load nCooks + 1, for any number of cooks, although no pizza was sent at a load above
   nCooks. Every cook bakes one pizza and sends its Done, the reception sends as many again and
   then one more, and the kitchen reads that before any cook has lowered the pool's load.
   */
  lemma RefusalHappens(nCooks: nat) returns (l: Link)
    requires nCooks > 0
    ensures Polite(l, nCooks) && l.h.load == nCooks + 1
    ensures Enabled(l, Inside(AddTest)) && Next(l, Inside(AddTest)).k.worker.Refusing?
  {
    hide Polite, Stocked;
    l := Start(nCooks);
    l := StockUp(l, nCooks, 5, nCooks);
    l := FillUp(l, nCooks, 0, nCooks);
    l := BakeAll(l, nCooks, nCooks, 5 + nCooks);
    l := FillUp(l, nCooks, nCooks, nCooks);
    l := ReachTest(l, nCooks);
  }
}
