/** How the life of a kitchen closes, and what a survey of it shows. */
module Endings {
  import opened Menu
  import opened Sums
  import opened Kitchen
  import opened KitchenSafety
  import opened Protocol
  import opened LinkSafety
  import opened LinkEnds
  import opened LinkStatus
  import opened LinkTheorems

  // ---------------------------------------------------------------- last words

  /** Once every cook has been joined nothing is left inside: no queued pizza, no load, nobody holding one. */
  lemma JoinedKitchenIsEmpty(l: Link, nCooks: nat, q: Lens)
    requires nCooks > 0 && Reachable(l, nCooks) && (l.k.worker.Farewell? || l.k.worker.Finished?)
    ensures l.k.pool.queue == [] && l.k.pool.load == 0
    ensures InKitchen(q, l.k) == 0
  {
    hide Reachable, Conserved, Counted, OrdersEnd, ResultsEnd, StatusInv, LocksInv, WakeInv, StockInv;
    ReachableInv(l, nCooks);
    assert l.k.cooks[0].Exited?;
    SumZero(l.k.cooks, Held);
    SumZero(l.k.cooks, Undone(q));
  }

  /** The kitchen's Shutdown is the last packet it ever sends. */
  lemma ShutdownIsLastWord(l: Link, e: Event, nCooks: nat)
    requires nCooks > 0 && Reachable(l, nCooks) && l.k.worker.Finished? && Enabled(l, e)
    ensures Next(l, e).k.worker.Finished?
    ensures Next(l, e).results == if e.Receive? then l.results[1..] else l.results
    ensures l.h.alive ==> l.results != [] && l.results[|l.results| - 1].ShutdownPkt?
    ensures forall i :: 0 <= i < |l.results| && l.results[i].ShutdownPkt? ==> i == |l.results| - 1
  {
    hide Reachable, Conserved, Counted, OrdersEnd, StatusInv, KitchenInv;
    ReachableInv(l, nCooks);
    if e.Inside? { MovesStayInside(l.k, e.m); }
    if e.Announce? { FinishedCooksAreGone(l.k, e.i); }
    hide Do, Can, Polled, NarrowStock, Handled;
  }

  // ---------------------------------------------------------------- stranding

  /**
   When a kitchen has closed, the pizzas it never answered for are exactly those
   still in its order queue; they are as many as the reception's count once it has
   heard everything.
   */
  lemma StrandedAreUnread(l: Link, nCooks: nat, q: Lens)
    requires nCooks > 0 && Reachable(l, nCooks) && l.k.worker.Finished?
    ensures Sum(l.log.sent, Each(q)) == Sum(l.orders, PizzaIn(q))
              + Sum(l.results, DoneIn(q)) + Sum(l.results, FullIn(q))
              + Sum(l.log.done, Each(q)) + Sum(l.log.full, Each(q))
    ensures l.results == [] ==> l.h.load == Sum(l.orders, PizzaIn(All))
  {
    hide Reachable, InKitchen, Each;
    PizzasConserved(l, nCooks, q);
    JoinedKitchenIsEmpty(l, nCooks, q);
    ReceptionLoadAccounted(l, nCooks);
    JoinedKitchenIsEmpty(l, nCooks, All);
  }

  /**
   A kitchen that leaves its loop because it read Shutdown strands nothing: every pizza it was sent got its
   answer. One that is told to shut down may time out before it reads that.
   */
  lemma ShutdownStrandsNothing(l: Link, nCooks: nat, q: Lens)
    requires nCooks > 0 && Reachable(l, nCooks) && l.k.worker.Finished? && l.k.exit.ByShutdown?
    ensures l.orders == [] && l.log.quit
    ensures Sum(l.log.sent, Each(q)) ==
            Sum(l.results, DoneIn(q)) + Sum(l.results, FullIn(q)) + Sum(l.log.done, Each(q)) + Sum(l.log.full, Each(q))
  {
    hide Reachable, Conserved, Counted, ResultsEnd, StatusInv, KitchenInv;
    StrandedAreUnread(l, nCooks, q);
    ReachableInv(l, nCooks);
  }

  /** The pizzas nobody will ever cook: what is in the order queue of a kitchen that has timed out. */
  ghost function Stranded(q: Lens, l: Link): nat {
    if l.k.exit.ByTimeout? then Sum(l.orders, PizzaIn(q)) else 0
  }

  /** What an event adds to them. */
  ghost function NewlyStranded(q: Lens, l: Link, e: Event): nat {
    if e == Inside(Expire) then Sum(l.orders, PizzaIn(q))
    else if e.Deliver? && l.k.exit.ByTimeout? then Seen(q, e.pizza)
    else 0
  }

  /** A kitchen that has left its loop takes nothing more from its order queue, and how it left is settled. */
  lemma MovesSettleExit(k: Kitchen, m: Move)
    requires LifeInv(k) && Can(k, m)
    ensures if k.exit.StillOpen? then Do(k, m).exit.ByTimeout? <==> m == Expire else Do(k, m).exit == k.exit
  {
    if m.OfCook() {
      hide LifeInv, AllAvailable, Needs, Without;
    } else {
      OnlyInLoop(k, m);
      hide LifeInv, Slumber, WakeAll, FeedAll, Regenerated, IsFull;
    }
  }

  lemma OnlyInLoop(k: Kitchen, m: Move)
    requires LifeInv(k) && !m.OfCook() && CanWork(k, m)
    ensures m == Doze || m == Expire ==> k.exit.StillOpen?
  {
    hide Slumber;
  }

  lemma EventSettlesExit(l: Link, e: Event)
    requires LifeInv(l.k) && Enabled(l, e)
    ensures if l.k.exit.StillOpen? then Next(l, e).k.exit.ByTimeout? <==> e == Inside(Expire)
            else Next(l, e).k.exit == l.k.exit
  {
    if e.Inside? {
      MovesSettleExit(l.k, e.m);
      hide Do, Can, LifeInv;
    } else {
      OutsideEffect(l, e);
      hide Next, LifeInv;
    }
  }

  /**
   Pizzas are stranded by two events and no other: the idle timeout strands those that are unread
   then, and each delivery to a kitchen that has timed out already strands one more. Nothing ever
   brings one back.
   */
  lemma StrandedExactly(l: Link, e: Event, nCooks: nat, q: Lens)
    requires nCooks > 0 && Reachable(l, nCooks) && Enabled(l, e)
    ensures Stranded(q, Next(l, e)) == Stranded(q, l) + NewlyStranded(q, l, e)
    ensures Stranded(All, Next(l, e)) > Stranded(All, l) <==>
      (e == Inside(Expire) && Sum(l.orders, PizzaIn(All)) > 0) || (e.Deliver? && l.k.exit.ByTimeout?)
  {
    hide Reachable, Conserved, Counted, OrdersEnd, ResultsEnd, StatusInv, LocksInv, LoadInv, WakeInv, StockInv;
    ReachableInv(l, nCooks);
    StrandedByOne(l, e, q);
    StrandedByOne(l, e, All);
  }

  lemma StrandedByOne(l: Link, e: Event, q: Lens)
    requires LifeInv(l.k) && Enabled(l, e)
    ensures Stranded(q, Next(l, e)) == Stranded(q, l) + NewlyStranded(q, l, e)
  {
    hide LifeInv, Next, Enabled, Sum;
    EventSettlesExit(l, e);
    if e.Poll? || e == Inside(Expire) { OnlyInsideLoop(l, e); }
    if !e.Poll? { OrdersGrowBy(l, e, q); }
  }

  lemma OnlyInsideLoop(l: Link, e: Event)
    requires LifeInv(l.k) && Enabled(l, e) && (e.Poll? || e == Inside(Expire))
    ensures l.k.exit.StillOpen?
  {
  }

  /** Only a poll takes pizzas from the order queue, and only a delivery adds one. */
  lemma OrdersGrowBy(l: Link, e: Event, q: Lens)
    requires Enabled(l, e) && !e.Poll?
    ensures Sum(Next(l, e).orders, PizzaIn(q)) == Sum(l.orders, PizzaIn(q)) + if e.Deliver? then Seen(q, e.pizza) else 0
  {
    if e.Deliver? { SumAppend(l.orders, PizzaPkt(Pack(e.pizza)), PizzaIn(q)); }
    if e.Ask? { SumAppend(l.orders, StatusRequestPkt, PizzaIn(q)); }
    if e.Quit? { SumAppend(l.orders, ShutdownPkt, PizzaIn(q)); }
    hide Do, Can, NarrowStock, Handled, Polled, Sum, PizzaIn;
  }

  /** In a closed kitchen they are all that was sent and never answered. */
  lemma StrandedIsTheRest(l: Link, nCooks: nat, q: Lens)
    requires nCooks > 0 && Reachable(l, nCooks) && l.k.worker.Finished?
    ensures Sum(l.log.sent, Each(q)) == Stranded(q, l)
              + Sum(l.results, DoneIn(q)) + Sum(l.results, FullIn(q))
              + Sum(l.log.done, Each(q)) + Sum(l.log.full, Each(q))
  {
    hide Reachable, Conserved, Counted, OrdersEnd, ResultsEnd, StatusInv, LocksInv, LoadInv, WakeInv, StockInv;
    ReachableInv(l, nCooks);
    StrandedAreUnread(l, nCooks, q);
    if l.k.exit.ByShutdown? { ShutdownStrandsNothing(l, nCooks, q); }
  }

  /** So only a kitchen that timed out can have a pizza unread when it has closed. */
  lemma StrandingNeedsTimeout(l: Link, nCooks: nat)
    requires nCooks > 0 && Reachable(l, nCooks) && l.k.worker.Finished? && Sum(l.orders, PizzaIn(All)) > 0
    ensures l.k.exit.ByTimeout?
  {
    hide Reachable, Conserved, Counted, OrdersEnd, ResultsEnd, StatusInv, LocksInv, LoadInv, WakeInv, StockInv;
    ReachableInv(l, nCooks);
    if l.k.exit.ByShutdown? { ShutdownStrandsNothing(l, nCooks, All); }
  }

  // ------------------------------------------------------------- queue lengths

  function QuitIn(p: Packet): nat {
    if p.ShutdownPkt? then 1 else 0
  }

  lemma {:induction false} OrdersCounted(s: seq<Packet>)
    requires forall i :: 0 <= i < |s| ==> FromReception(s[i])
    ensures |s| == Sum(s, PizzaIn(All)) + Sum(s, RequestIn) + Sum(s, QuitIn)
  {
    if s != [] { OrdersCounted(s[..|s| - 1]); }
  }

  lemma {:induction false} ResultsCounted(s: seq<Packet>)
    requires forall i :: 0 <= i < |s| ==> FromKitchen(s[i])
    ensures |s| == Sum(s, DoneIn(All)) + Sum(s, FullIn(All)) + |ReportIds(s)| + Sum(s, ReplyIn) + Sum(s, QuitIn)
  {
    if s != [] { ResultsCounted(s[..|s| - 1]); }
  }

  /** A Shutdown that can only come last comes at most once. */
  lemma OneGoodbye(s: seq<Packet>)
    requires forall i :: 0 <= i < |s| && s[i].ShutdownPkt? ==> i == |s| - 1
    ensures Sum(s, QuitIn) <= 1
    ensures (forall i :: 0 <= i < |s| ==> !s[i].ShutdownPkt?) ==> Sum(s, QuitIn) == 0
  {
    if s != [] {
      SumZero(s[..|s| - 1], QuitIn);
    }
  }

  /** Queues of 2n + 1 and 3n + 2 packets never make a sender wait. */
  lemma QueuesBounded(l: Link, nCooks: nat)
    requires nCooks > 0 && Reachable(l, nCooks)
    ensures |l.orders| <= l.h.load + 1 <= 2 * nCooks + 1
    ensures |l.results| <= l.h.load + nCooks + 2 <= 3 * nCooks + 2
  {
    hide Reachable, Conserved, Counted, KitchenInv, Each, InKitchen;
    ReachableInv(l, nCooks);
    ReceptionLoadAccounted(l, nCooks);
    OrdersCounted(l.orders);
    ResultsCounted(l.results);
    OneGoodbye(l.orders);
    OneGoodbye(l.results);
  }

  // -------------------------------------------------------------------- status

  /** Outside a survey no status packet is on its way. */
  lemma NoStrayStatus(l: Link, nCooks: nat)
    requires nCooks > 0 && Reachable(l, nCooks) && !l.log.asked
    ensures forall i :: 0 <= i < |l.orders| ==> !l.orders[i].StatusRequestPkt?
    ensures forall i :: 0 <= i < |l.results| ==> !l.results[i].CookPkt? && !l.results[i].StatusReplyPkt?
    ensures l.h.pendingCooks == []
  {
    hide Reachable, Conserved, Counted, OrdersEnd, ResultsEnd, KitchenInv, SampleInv, SnapshotInv;
    ReachableInv(l, nCooks);
    forall i | 0 <= i < |l.orders| ensures !l.orders[i].StatusRequestPkt? {
      SumMember(l.orders, i, RequestIn);
    }
    forall i | 0 <= i < |l.results| ensures !l.results[i].CookPkt? && !l.results[i].StatusReplyPkt? {
      SumMember(l.results, i, ReplyIn);
      ReportMember(l.results, i);
    }
    assert |Ids(l.h.pendingCooks)| == 0;
  }

  lemma {:induction false} ReportMember(s: seq<Packet>, i: nat)
    requires i < |s|
    ensures s[i].CookPkt? ==> ReportIds(s) != []
  {
    if i < |s| - 1 { ReportMember(s[..|s| - 1], i); }
  }

  /**
   A survey that has been answered shows every cook once, in order, whatever Done
   packets came in between. Ids, capacity and load are the true ones as long as they
   fit the byte they travel in; the capacity is so exactly for 127 cooks or fewer.
   */
  lemma SurveyShowsEveryCook(l: Link, nCooks: nat)
    requires nCooks > 0 && Reachable(l, nCooks) && l.log.everAsked && !l.log.asked
    ensures |l.h.status.cooks| == nCooks && l.h.status.stock.Some?
    ensures forall i :: 0 <= i < nCooks ==> l.h.status.cooks[i].id as nat == i % 256
    ensures l.h.status.capacity == 2 * nCooks <==> nCooks <= 127
    ensures nCooks <= 127 ==> l.h.status.load <= l.h.status.capacity
  {
    hide Reachable, Conserved, Counted, OrdersEnd, ResultsEnd, KitchenInv, SampleInv, SurveyInv, ReportInv;
    ReachableInv(l, nCooks);
    assert |Ids(l.h.status.cooks)| == |Roster(nCooks)|;
    forall i | 0 <= i < nCooks ensures l.h.status.cooks[i].id as nat == i % 256 {
      assert Ids(l.h.status.cooks)[i] == Roster(nCooks)[i];
    }
  }
}
