/**
 That a drain ends. Cooks work, and the stock regenerates when they can do nothing without it:
 every such run is bounded, and where it cannot go on the main thread can join the cooks.
 */
module Drain {
  import opened Menu
  import opened Sums
  import opened Kitchen
  import opened KitchenSafety
  import opened Protocol
  import opened LinkSafety
  import opened LinkTheorems
  import opened Progress
  import opened LinkEnds

  /** The events of a drain: what cooks get on with, and regeneration. */
  predicate Drains(e: Event) {
    Productive(e) || e == Inside(Tick) || e == Inside(TickLock)
  }

  /** A drain's next event, with regeneration begun only when nothing else can help. */
  ghost predicate MayDrain(l: Link, e: Event) {
    Drains(e) && Enabled(l, e) && (e == Inside(TickLock) ==> Craving(l))
  }

  ghost predicate Drained(l: Link) {
    forall e :: !MayDrain(l, e)
  }

  /** How many regenerations are still to come. */
  ghost function Deficit(k: Kitchen): nat {
    if Uneaten(k) > k.pantry.stock[Dough] then Uneaten(k) - k.pantry.stock[Dough] else 0
  }

  /** What the regenerations still to come may cost, with the steps of the cooks they wake. */
  ghost function Toll(nCooks: nat, deficit: nat, underWay: bool): nat {
    if !underWay then (2 * nCooks + 2) * deficit
    else if deficit > 0 then (2 * nCooks + 2) * (deficit - 1) + 2 * nCooks + 1
    else 2 * nCooks + 1
  }

  /** No drain from here takes more events than this. */
  ghost function Bound(k: Kitchen): nat {
    Effort(k) + Toll(|k.cooks|, Deficit(k), k.pantry.lock.ByTick?)
  }

  // ------------------------------------------------------------ every event counts

  /** The deficit is what is wanted beyond all there ever was. */
  lemma DeficitIs(l: Link, nCooks: nat)
    requires nCooks > 0 && Reachable(l, nCooks)
    ensures Deficit(l.k) == Max(0, Wanted(l) - 5 - l.k.pantry.ticks)
  {
    hide Reachable, Uneaten;
    DoughLeft(l, nCooks);
  }

  lemma {:induction false} FeedingCosts(cooks: seq<Cook>)
    ensures Sum(FeedAll(cooks), Rank) <= Sum(cooks, Rank) + 2 * |cooks|
  {
    if cooks != [] {
      var n := |cooks| - 1;
      FeedingCosts(cooks[..n]);
      assert FeedAll(cooks)[..n] == FeedAll(cooks[..n]);
    }
  }

  lemma TickCosts(k: Kitchen)
    requires Can(k, Tick)
    ensures Effort(Do(k, Tick)) <= Effort(k) + 2 * |k.cooks|
    ensures |Do(k, Tick).cooks| == |k.cooks|
  {
    FeedingCosts(k.cooks);
  }

  lemma TollStep(nCooks: nat, deficit: nat)
    ensures deficit > 0 ==> Toll(nCooks, deficit, true) == Toll(nCooks, deficit, false) - 1
    ensures deficit > 0 ==> Toll(nCooks, deficit - 1, false) + 2 * nCooks < Toll(nCooks, deficit, true)
    ensures Toll(nCooks, 0, false) + 2 * nCooks < Toll(nCooks, 0, true)
  {
  }

  /** A closed stock is one that nobody wants anything from. */
  lemma ClosedIsUnwanted(l: Link, nCooks: nat)
    requires nCooks > 0 && Reachable(l, nCooks) && !l.k.pantry.open
    ensures Uneaten(l.k) == 0 && forall i :: 0 <= i < |l.k.cooks| ==> l.k.cooks[i].Exited?
  {
    hide Reachable, Conserved, Counted, OrdersEnd, ResultsEnd, LinkStatus.StatusInv;
    hide LocksInv, LoadInv, WakeInv, StockInv;
    ReachableInv(l, nCooks);
    SumZero(l.k.cooks, Hungry);
  }

  lemma SameDeficit(l: Link, e: Event, nCooks: nat)
    requires nCooks > 0 && Reachable(l, nCooks) && Enabled(l, e) && Drains(e)
    ensures var l' := Next(l, e);
      && (e != Inside(Tick) ==> Deficit(l'.k) == Deficit(l.k))
      && (e == Inside(Tick) ==> Deficit(l'.k) == Max(0, Deficit(l.k) - 1))
      && (e == Inside(Tick) ==> l.k.pantry.lock.ByTick? && !l'.k.pantry.lock.ByTick?)
      && (e == Inside(TickLock) ==> !l.k.pantry.lock.ByTick? && l'.k.pantry.lock.ByTick?)
      && (Productive(e) ==> l'.k.pantry.lock.ByTick? == l.k.pantry.lock.ByTick?)
  {
    hide Reachable, Next, KitchenInv, Conserved, Counted, OrdersEnd, ResultsEnd, LinkStatus.StatusInv, Uneaten, Wanted;
    ReachableInv(l, nCooks);
    InvHasLocks(l.k);
    ReachNext(l, e, nCooks);
    DeficitIs(l, nCooks);
    DeficitIs(Next(l, e), nCooks);
    hide Enabled, Deficit;
    EventKeepsWanted(l, e);
    EventMovesStock(l, e);
    if e == Inside(TickLock) { TickLockTakes(l); }
    if !l.k.pantry.open {
      ClosedIsUnwanted(l, nCooks);
      assert Deficit(l.k) == 0 by { NothingUnwanted(l.k); }
    }
  }

  lemma NothingUnwanted(k: Kitchen)
    requires Uneaten(k) == 0
    ensures Deficit(k) == 0
  {
  }

  lemma TickLockTakes(l: Link)
    requires Enabled(l, Inside(TickLock))
    ensures !l.k.pantry.lock.ByTick? && Next(l, Inside(TickLock)).k.pantry.lock.ByTick?
    ensures Effort(Next(l, Inside(TickLock)).k) == Effort(l.k)
    ensures |Next(l, Inside(TickLock)).k.cooks| == |l.k.cooks|
  {
  }

  lemma CravingIsDeficit(l: Link, nCooks: nat)
    requires nCooks > 0 && Reachable(l, nCooks) && Craving(l)
    ensures Deficit(l.k) > 0
  {
    hide Reachable, Stuck, Uneaten;
    StuckOnlyForDough(l, nCooks);
  }

  lemma EventKeepsCooks(l: Link, e: Event)
    requires Enabled(l, e)
    ensures |Next(l, e).k.cooks| == |l.k.cooks|
  {
    EventKeepsId(l, e);
  }

  /** Every event of a drain lowers the bound. */
  lemma DrainingLowersBound(l: Link, e: Event, nCooks: nat)
    requires nCooks > 0 && Reachable(l, nCooks) && MayDrain(l, e)
    ensures Bound(Next(l, e).k) < Bound(l.k)
  {
    hide Reachable, Effort, Deficit, Toll, Productive, Next, Enabled, Craving;
    SameDeficit(l, e, nCooks);
    EventKeepsCooks(l, e);
    TollStep(|l.k.cooks|, Deficit(l.k));
    if Productive(e) {
      ProductiveLowersEffort(l, e);
    } else if e == Inside(Tick) {
      TickNext(l);
    } else {
      TickLockTakes(l);
      CravingIsDeficit(l, nCooks);
    }
  }

  lemma TickNext(l: Link)
    requires Enabled(l, Inside(Tick))
    ensures Effort(Next(l, Inside(Tick)).k) <= Effort(l.k) + 2 * |l.k.cooks|
  {
    hide Effort;
    TickCosts(l.k);
  }

  // --------------------------------------------------------------------- whole runs

  /** A run of a drain. */
  ghost predicate DrainRun(a: Link, events: seq<Event>) {
    && Run(a, events).Some? && Eager(a, events)
    && forall i :: 0 <= i < |events| ==> Drains(events[i])
  }

  lemma {:induction false} DrainIsBounded(a: Link, events: seq<Event>, nCooks: nat)
    requires nCooks > 0 && Reachable(a, nCooks) && DrainRun(a, events)
    ensures |events| + Bound(Run(a, events).value.k) <= Bound(a.k)
  {
    hide Reachable, Bound, Next, Enabled, Craving;
    if events != [] {
      var n := |events| - 1;
      DrainIsBounded(a, events[..n], nCooks);
      RunStaysReachable(a, events[..n], nCooks);
      DrainingLowersBound(Run(a, events[..n]).value, events[n], nCooks);
    }
  }

  lemma DrainedIsStuck(l: Link)
    requires Drained(l)
    ensures Stuck(l) && !l.k.pantry.lock.ByTick?
    ensures Enabled(l, Inside(TickLock)) ==> !Craving(l)
  {
    hide Productive, CanCook, Stuck, Uneaten;
    assert Stuck(l) by { DrainedStops(l); }
    assert !MayDrain(l, Inside(Tick));
    assert !MayDrain(l, Inside(TickLock));
  }

  lemma DrainedStops(l: Link)
    requires Drained(l)
    ensures Stuck(l)
  {
    hide Enabled, Craving;
    forall e | Productive(e) ensures !Enabled(l, e) {
      assert !MayDrain(l, e);
    }
  }

  /** While the main thread is joining its cooks, a drain goes on until it can. */
  lemma DrainedCanJoin(l: Link, nCooks: nat)
    requires nCooks > 0 && Reachable(l, nCooks) && l.k.worker.Joining? && Drained(l)
    ensures Enabled(l, Inside(Join)) && Uneaten(l.k) == 0 && !l.k.pantry.lock.ByTick?
  {
    hide Reachable, Next, Stuck, Drained, Uneaten, Enabled;
    DrainedIsStuck(l);
    DrainNeverStalls(l, nCooks);
  }

  lemma DrainKeepsJoining(l: Link, e: Event)
    requires l.k.worker.Joining? && Enabled(l, e) && Drains(e)
    ensures Next(l, e).k.worker.Joining?
    ensures e != Inside(AddPush)
  {
    hide AllAvailable, Needs, Without, Slumber;
  }

  lemma {:induction false} DrainRunKeepsJoining(a: Link, events: seq<Event>)
    requires a.k.worker.Joining? && DrainRun(a, events)
    ensures Run(a, events).value.k.worker.Joining? && Inside(AddPush) !in events
  {
    hide Next, Enabled, Drains, Craving;
    if events != [] {
      var n := |events| - 1;
      DrainRunKeepsJoining(a, events[..n]);
      DrainKeepsJoining(Run(a, events[..n]).value, events[n]);
      assert events == events[..n] + [events[n]];
    }
  }

  /** Any run of a drain can be carried on to one that has come to its end. */
  lemma {:induction false} CarryOn(a: Link, events: seq<Event>, nCooks: nat) returns (all: seq<Event>)
    requires nCooks > 0 && Reachable(a, nCooks) && DrainRun(a, events)
    ensures events <= all && DrainRun(a, all) && Drained(Run(a, all).value)
    decreases Bound(Run(a, events).value.k)
  {
    var b := Run(a, events).value;
    if Drained(b) {
      all := events;
    } else {
      var e :| MayDrain(b, e);
      var more := events + [e];
      assert more[..|events|] == events;
      hide Reachable, Bound, Next, Craving, Enabled;
      RunStaysReachable(a, events, nCooks);
      DrainingLowersBound(b, e, nCooks);
      all := CarryOn(a, more, nCooks);
    }
  }

  /**
   The drain after stop. From the broadcast on, every run of cooks and needed regenerations is
   bounded; wherever it can go no further, the main thread can join its cooks, every pizza has
   been served, and it took exactly max(0, waiting - dough) regenerations, one under way
   at the start being counted in any case. And every run can be carried on until there.
   */
  lemma DrainEnds(a: Link, events: seq<Event>, nCooks: nat) returns (all: seq<Event>)
    requires nCooks > 0 && Reachable(a, nCooks) && a.k.worker.Joining? && DrainRun(a, events)
    ensures |events| <= Bound(a.k)
    ensures var b := Run(a, events).value;
      Drained(b) ==>
        && Enabled(b, Inside(Join))
        && |b.k.pantry.eaten| == |a.k.pantry.eaten| + Uneaten(a.k)
        && b.k.pantry.ticks - a.k.pantry.ticks == Max(UnderWay(a), Uneaten(a.k) - a.k.pantry.stock[Dough])
    ensures events <= all && DrainRun(a, all) && Drained(Run(a, all).value)
  {
    hide Reachable, Bound, Next, Drained, Drains, Uneaten, Craving;
    DrainIsBounded(a, events, nCooks);
    var b := Run(a, events).value;
    if Drained(b) {
      RunStaysReachable(a, events, nCooks);
      DrainRunKeepsJoining(a, events);
      DrainedCanJoin(b, nCooks);
      ServedWereWaiting(a, events, nCooks);
      RegenerationsExact(a, events, nCooks);
    }
    all := CarryOn(a, events, nCooks);
  }
}
