/** That kitchens get on: what can stop a cook, how long cooks can go on, and how many regenerations a drain takes. */
module Progress {
  import opened Menu
  import opened Sums
  import opened Kitchen
  import opened KitchenSafety
  import opened Protocol
  import opened LinkSafety
  import opened LinkEnds
  import opened LinkTheorems

  // -------------------------------------------------------------------- stock

  /**
   Units are conserved, dough and tomato are the scarcest of all, and they alone
   decide whether a recipe can be made. A cook waits for ingredients exactly when
   everything there ever was has been used.
   */
  lemma StockAccounted(l: Link, nCooks: nat)
    requires nCooks > 0 && Reachable(l, nCooks)
    ensures forall x :: x in ALL_INGREDIENTS ==>
      l.k.pantry.stock[x] + Uses(l.k.pantry.eaten, x) == 5 + l.k.pantry.ticks
    ensures l.k.pantry.stock[Dough] + |l.k.pantry.eaten| == 5 + l.k.pantry.ticks
    ensures forall x :: x in ALL_INGREDIENTS ==>
      l.k.pantry.stock[Tomato] == l.k.pantry.stock[Dough] <= l.k.pantry.stock[x]
    ensures forall kind :: AllAvailable(l.k.pantry.stock, Needs(kind)) <==> l.k.pantry.stock[Dough] > 0
    ensures forall i :: 0 <= i < |l.k.cooks| && l.k.cooks[i].Starved? ==> |l.k.pantry.eaten| == 5 + l.k.pantry.ticks
  {
    hide Reachable, Conserved, Counted, OrdersEnd, ResultsEnd, LinkStatus.StatusInv;
    hide LocksInv, LoadInv, LifeInv, WakeInv, Uses, AllAvailable, Needs;
    ReachableInv(l, nCooks);
    forall kind ensures AllAvailable(l.k.pantry.stock, Needs(kind)) <==> l.k.pantry.stock[Dough] > 0 {
      DoughDecides(l.k.pantry.stock, l.k.pantry.eaten, l.k.pantry.ticks, kind);
    }
    DoughDecides(l.k.pantry.stock, l.k.pantry.eaten, l.k.pantry.ticks, Regina);
  }

  // ----------------------------------------------------------- work conservation

  /** The moves with which a cook gets on; spurious wakeups are not among them. */
  predicate Productive(e: Event) {
    e.Announce? || (e.Inside? && e.m.OfCook() && !e.m.CookWake? && !e.m.StockWake?)
  }

  ghost predicate Stuck(l: Link) {
    forall e :: Productive(e) ==> !Enabled(l, e)
  }

  /** A pizza that still has to get its ingredients. */
  ghost function Hungry(c: Cook): nat {
    if c.Fetched? || c.AtStock? || c.Tasting? || c.Starved? || c.Fed? then 1 else 0
  }

  ghost function Uneaten(k: Kitchen): nat {
    |k.pool.queue| + Sum(k.cooks, Hungry)
  }

  /** Neither the main thread nor the regeneration thread is about to let a cook on. */
  predicate Unattended(k: Kitchen) {
    !k.worker.HoldsLock() && !k.worker.Broadcasting? && !k.pantry.lock.ByTick?
  }

  /** If cook i cannot move, then because it waits or has left. */
  lemma StuckCookWaits(l: Link, i: nat)
    requires LocksInv(l.k) && Unattended(l.k) && Stuck(l) && i < |l.k.cooks|
    ensures l.k.cooks[i].Asleep? || l.k.cooks[i].Starved? || l.k.cooks[i].Exited?
  {
    var atQueue := if l.k.pool.lock.ByCook? then l.k.pool.lock.cook else i;
    var atStock := if l.k.pantry.lock.ByCook? then l.k.pantry.lock.cook else i;
    assert !Enabled(l, Inside(CookCheck(atQueue)));
    assert !Enabled(l, Inside(StockTry(atStock)));
    assert !Enabled(l, Inside(CookLock(i)));
    assert !Enabled(l, Inside(CookStart(i)));
    assert !Enabled(l, Inside(StockLock(i)));
    assert !Enabled(l, Inside(Clear(i)));
    assert !Enabled(l, Inside(Settle(i)));
    assert !Enabled(l, Announce(i));
    assert !Enabled(l, Inside(CookCheck(i)));
    assert !Enabled(l, Inside(StockTry(i)));
  }

  /**
   Cooks stop only for want of dough. If no cook can move, each of them sleeps, starves or
   has left; and if any pizza still needs ingredients, then some cook starves, no dough is left,
   and everything there ever was has been used.
   */
  lemma StuckOnlyForDough(l: Link, nCooks: nat)
    requires nCooks > 0 && Reachable(l, nCooks) && Unattended(l.k) && Stuck(l)
    ensures forall i :: 0 <= i < |l.k.cooks| ==> l.k.cooks[i].Asleep? || l.k.cooks[i].Starved? || l.k.cooks[i].Exited?
    ensures Uneaten(l.k) > 0 <==> exists i :: 0 <= i < |l.k.cooks| && l.k.cooks[i].Starved?
    ensures Uneaten(l.k) > 0 ==> l.k.pantry.stock[Dough] == 0 && |l.k.pantry.eaten| == 5 + l.k.pantry.ticks
  {
    hide Reachable, Conserved, Counted, OrdersEnd, ResultsEnd, LinkStatus.StatusInv, LoadInv, Stuck, Balanced;
    ReachableInv(l, nCooks);
    forall i | 0 <= i < |l.k.cooks| ensures l.k.cooks[i].Asleep? || l.k.cooks[i].Starved? || l.k.cooks[i].Exited? {
      StuckCookWaits(l, i);
    }
    SumZero(l.k.cooks, Heading);
    if Uneaten(l.k) > 0 {
      if l.k.pool.queue == [] {
        var i := SumWitness(l.k.cooks, Hungry);
        assert l.k.cooks[i].Starved?;
      } else {
        assert l.k.cooks[0].Starved?;
      }
      StockAccounted(l, nCooks);
    } else if i :| 0 <= i < |l.k.cooks| && l.k.cooks[i].Starved? {
      SumMember(l.k.cooks, i, Hungry);
    }
  }

  // -------------------------------------------------------------- termination

  /** How many productive events a cook has left until it waits, leaves, or fetches again. */
  ghost function Rank(c: Cook): nat {
    match c
    case Asleep => 0
    case Exited => 0
    case Checking => 1
    case Ready => 2
    case Woken => 2
    case Cleared(_) => 3
    case Announced(_) => 4
    case Baking(_) => 5
    case Starved(_) => 5
    case Tasting(_) => 6
    case AtStock(_) => 7
    case Fed(_) => 7
    case Fetched(_) => 8
  }

  ghost function Effort(k: Kitchen): nat {
    9 * |k.pool.queue| + Sum(k.cooks, Rank)
  }

  lemma CookLowersEffort(k: Kitchen, m: Move)
    requires m.OfCook() && !m.CookWake? && !m.StockWake? && CanCook(k, m)
    ensures Effort(DoCook(k, m)) < Effort(k)
  {
    hide AllAvailable, Needs, Without;
    SumUpdate(k.cooks, m.i, DoCook(k, m).cooks[m.i], Rank);
  }

  /** Each productive event brings the cooks closer to rest. */
  lemma ProductiveLowersEffort(l: Link, e: Event)
    requires Productive(e) && Enabled(l, e)
    ensures Effort(Next(l, e).k) < Effort(l.k)
  {
    if e.Announce? {
      SumUpdate(l.k.cooks, e.i, Announced(l.k.cooks[e.i].pizza), Rank);
    } else {
      hide Effort, CanCook, DoCook;
      CookLowersEffort(l.k, e.m);
    }
  }

  /** Cooks left to themselves come to rest: so many events in a row, and no more. */
  lemma {:induction false} CooksComeToRest(l: Link, events: seq<Event>)
    requires Run(l, events).Some? && forall i :: 0 <= i < |events| ==> Productive(events[i])
    ensures |events| + Effort(Run(l, events).value.k) <= Effort(l.k)
  {
    hide Effort, Productive, Next, Enabled;
    if events != [] {
      var n := |events| - 1;
      CooksComeToRest(l, events[..n]);
      ProductiveLowersEffort(Run(l, events[..n]).value, events[n]);
    }
  }

  // ------------------------------------------------------------ regenerations

  /** Pizzas that have had their ingredients, or still want them. */
  ghost function Wanted(l: Link): nat {
    |l.k.pantry.eaten| + Uneaten(l.k)
  }

  lemma CookKeepsWanted(k: Kitchen, m: Move)
    requires (k.pantry.open || !m.StockTry?) && m.OfCook() && CanCook(k, m)
    ensures |DoCook(k, m).pantry.eaten| + Uneaten(DoCook(k, m)) == |k.pantry.eaten| + Uneaten(k)
  {
    SumUpdate(k.cooks, m.i, DoCook(k, m).cooks[m.i], Hungry);
  }

  lemma WorkKeepsWanted(k: Kitchen, m: Move)
    requires !m.OfCook() && CanWork(k, m)
    ensures Work(k, m).pantry.eaten == k.pantry.eaten
    ensures Uneaten(Work(k, m)) == Uneaten(k) + if m.AddPush? then 1 else 0
  {
    if m.AddNotify? && m.woken.Some? {
      SumUpdate(k.cooks, m.woken.value, Woken, Hungry);
    } else {
      SumSame(k.cooks, Work(k, m).cooks, Hungry);
    }
  }

  lemma MoveKeepsWanted(k: Kitchen, m: Move)
    requires KitchenInv(k) && Can(k, m)
    ensures |Do(k, m).pantry.eaten| + Uneaten(Do(k, m)) == |k.pantry.eaten| + Uneaten(k) + if m == AddPush then 1 else 0
  {
    if m.StockTry? { StockOutlivesCooks(k, m.i); }
    hide KitchenInv, Uneaten, CanCook, CanWork, Work, DoCook;
    if m.OfCook() { CookKeepsWanted(k, m); } else { WorkKeepsWanted(k, m); }
  }

  lemma EventKeepsWanted(l: Link, e: Event)
    requires KitchenInv(l.k) && Enabled(l, e)
    ensures Wanted(Next(l, e)) == Wanted(l) + if e == Inside(AddPush) then 1 else 0
  {
    if e.Inside? {
      hide KitchenInv, Uneaten, Can, Do;
      MoveKeepsWanted(l.k, e.m);
    } else {
      OutsideKeepsWanted(l, e);
    }
  }

  lemma OutsideKeepsWanted(l: Link, e: Event)
    requires Enabled(l, e) && !e.Inside?
    ensures Wanted(Next(l, e)) == Wanted(l)
  {
    if e.Announce? { AnnouncingCook(l, e.i); }
    hide Uneaten, Next, Enabled;
    OutsideEffect(l, e);
    if e.Announce? {
      BakingIsNotHungry(l.k, e.i);
    } else {
      SameCooksSameWants(l.k, Next(l, e).k);
    }
  }

  lemma AnnouncingCook(l: Link, i: nat)
    requires Enabled(l, Announce(i))
    ensures i < |l.k.cooks| && l.k.cooks[i].Baking?
  {
  }

  lemma BakingIsNotHungry(k: Kitchen, i: nat)
    requires i < |k.cooks| && k.cooks[i].Baking?
    ensures Uneaten(k.(cooks := k.cooks[i := Announced(k.cooks[i].pizza)])) == Uneaten(k)
  {
    SumUpdate(k.cooks, i, Announced(k.cooks[i].pizza), Hungry);
  }

  lemma SameCooksSameWants(k: Kitchen, k': Kitchen)
    requires k'.cooks == k.cooks && k'.pool.queue == k.pool.queue
    ensures Uneaten(k') == Uneaten(k)
  {
  }

  /** A state in which only the stock can help: no cook can move and some pizza wants ingredients. */
  ghost predicate Craving(l: Link) {
    Unattended(l.k) && Stuck(l) && Uneaten(l.k) > 0
  }

  /** A run in which regeneration only ever comes when the cooks can do nothing without it. */
  ghost predicate Eager(l: Link, events: seq<Event>)
    requires Run(l, events).Some?
  {
    events == [] ||
    (var n := |events| - 1;
     Eager(l, events[..n]) && (events[n] == Inside(TickLock) ==> Craving(Run(l, events[..n]).value)))
  }

  /** What may happen to the stock at a step; while it is regenerating it cannot be used. */
  ghost predicate StockMoves(before: Pantry, after: Pantry, tick: bool, tickLock: bool) {
    && after.ticks == before.ticks + (if tick && before.open then 1 else 0)
    && (tick ==> before.lock.ByTick? && !after.lock.ByTick?)
    && (before.lock.ByTick? ==> after.eaten == before.eaten && after.open == before.open)
    && (after.lock.ByTick? && !before.lock.ByTick? ==> tickLock && after.eaten == before.eaten)
    && (before.lock.ByTick? && !tick ==> after.lock.ByTick?)
    && (after.open ==> before.open)
  }

  lemma CookMovesStock(k: Kitchen, m: Move)
    requires LocksInv(k) && m.OfCook() && CanCook(k, m)
    ensures StockMoves(k.pantry, DoCook(k, m).pantry, false, false)
  {
    hide AllAvailable, Needs, Without;
  }

  lemma WorkMovesStock(k: Kitchen, m: Move)
    requires !m.OfCook() && CanWork(k, m)
    ensures StockMoves(k.pantry, Work(k, m).pantry, m == Tick, m == TickLock)
  {
    hide Regenerated, Slumber, WakeAll, FeedAll, IsFull;
  }

  lemma EventMovesStock(l: Link, e: Event)
    requires LocksInv(l.k) && Enabled(l, e)
    ensures StockMoves(l.k.pantry, Next(l, e).k.pantry, e == Inside(Tick), e == Inside(TickLock))
  {
    if e.Inside? {
      hide StockMoves, CanWork, CanCook, Work, DoCook;
      if e.m.OfCook() { CookMovesStock(l.k, e.m); } else { WorkMovesStock(l.k, e.m); }
    } else {
      OutsideEffect(l, e);
      hide Next;
    }
  }

  lemma RunStaysReachable(a: Link, events: seq<Event>, nCooks: nat)
    requires Reachable(a, nCooks) && Run(a, events).Some?
    ensures Reachable(Run(a, events).value, nCooks)
  {
    hide Reachable, Next, Enabled;
    if events != [] {
      var n := |events| - 1;
      RunStaysReachable(a, events[..n], nCooks);
      ReachNext(Run(a, events[..n]).value, events[n], nCooks);
    }
  }

  /** A regeneration that is already under way. */
  ghost function UnderWay(l: Link): nat {
    if l.k.pantry.lock.ByTick? && l.k.pantry.open then 1 else 0
  }

  /** What an eager run never exceeds. */
  ghost predicate Thrifty(a: Link, b: Link) {
    && a.k.pantry.ticks <= b.k.pantry.ticks
    && (b.k.pantry.ticks <= a.k.pantry.ticks + UnderWay(a) || b.k.pantry.ticks + 5 <= Wanted(b))
    && (b.k.pantry.lock.ByTick? && b.k.pantry.open ==>
          || (|b.k.pantry.eaten| == 5 + b.k.pantry.ticks && Uneaten(b.k) > 0)
          || (UnderWay(a) == 1 && b.k.pantry.ticks == a.k.pantry.ticks))
    && (b.k.pantry.ticks >= a.k.pantry.ticks + UnderWay(a) || (b.k.pantry.lock.ByTick? && b.k.pantry.open))
    && (b.k.pantry.open ==> a.k.pantry.open)
  }

  lemma ThriftyStep(a: Link, b: Link, e: Event, nCooks: nat)
    requires nCooks > 0 && Reachable(b, nCooks) && Enabled(b, e) && Thrifty(a, b)
    requires e == Inside(TickLock) ==> Craving(b)
    ensures Thrifty(a, Next(b, e))
  {
    hide Reachable, Next, Enabled, KitchenInv, Uneaten, Stuck;
    hide Conserved, Counted, OrdersEnd, ResultsEnd, LinkStatus.StatusInv;
    ReachableInv(b, nCooks);
    EventKeepsWanted(b, e);
    assert LocksInv(b.k) by { InvHasLocks(b.k); }
    EventMovesStock(b, e);
    if e == Inside(TickLock) { StuckOnlyForDough(b, nCooks); }
  }

  lemma InvHasLocks(k: Kitchen)
    requires KitchenInv(k)
    ensures LocksInv(k)
  {
  }

  lemma {:induction false} EagerIsThrifty(a: Link, events: seq<Event>, nCooks: nat)
    requires nCooks > 0 && Reachable(a, nCooks) && Run(a, events).Some? && Eager(a, events)
    ensures Thrifty(a, Run(a, events).value)
  {
    hide Reachable, Next, Enabled, Craving;
    if events != [] {
      hide Thrifty;
      var n := |events| - 1;
      EagerIsThrifty(a, events[..n], nCooks);
      RunStaysReachable(a, events[..n], nCooks);
      ThriftyStep(a, Run(a, events[..n]).value, events[n], nCooks);
    }
  }

  /**
   Regenerations, counted. Serving R pizzas takes at least R - dough regenerations
   under any schedule, and exactly max(0, R - dough) when regeneration comes only
   while nothing else can help and the run ends with every pizza served. One that is under
   way at the start has to be counted, needed or not.
   */
  lemma RegenerationsExact(a: Link, events: seq<Event>, nCooks: nat)
    requires nCooks > 0 && Reachable(a, nCooks) && Run(a, events).Some?
    ensures var b := Run(a, events).value;
      var served := |b.k.pantry.eaten| - |a.k.pantry.eaten|;
      && b.k.pantry.ticks - a.k.pantry.ticks >= served - a.k.pantry.stock[Dough]
      && (Eager(a, events) && Uneaten(b.k) == 0 && !b.k.pantry.lock.ByTick? ==>
            b.k.pantry.ticks - a.k.pantry.ticks == Max(UnderWay(a), served - a.k.pantry.stock[Dough]))
  {
    hide Reachable, Run, Eager, Uneaten;
    var b := Run(a, events).value;
    RunStaysReachable(a, events, nCooks);
    DoughLeft(a, nCooks);
    DoughLeft(b, nCooks);
    if Eager(a, events) && Uneaten(b.k) == 0 && !b.k.pantry.lock.ByTick? {
      EagerIsThrifty(a, events, nCooks);
    }
  }

  lemma DoughLeft(l: Link, nCooks: nat)
    requires nCooks > 0 && Reachable(l, nCooks)
    ensures l.k.pantry.stock[Dough] + |l.k.pantry.eaten| == 5 + l.k.pantry.ticks
  {
    hide Reachable;
    StockAccounted(l, nCooks);
  }

  function Max(a: int, b: int): int {
    if a < b then b else a
  }

  /** Without new arrivals, the pizzas served are the ones that were waiting. */
  lemma {:induction false} ServedWereWaiting(a: Link, events: seq<Event>, nCooks: nat)
    requires nCooks > 0 && Reachable(a, nCooks) && Run(a, events).Some?
    requires Inside(AddPush) !in events
    ensures Wanted(Run(a, events).value) == Wanted(a)
  {
    hide Reachable, Next, Enabled, Wanted, KitchenInv;
    if events != [] {
      var n := |events| - 1;
      ServedWereWaiting(a, events[..n], nCooks);
      RunStaysReachable(a, events[..n], nCooks);
      ReachableInv(Run(a, events[..n]).value, nCooks);
      EventKeepsWanted(Run(a, events[..n]).value, events[n]);
    }
  }

  // --------------------------------------------------------------------- drain

  /**
   After stop's broadcast no cook ever sleeps on the queue again, and the drain cannot
   stall: when no cook can move, the main thread can join them all, or some pizza waits
   for a regeneration and for nothing else.
   */
  lemma DrainNeverStalls(l: Link, nCooks: nat)
    requires nCooks > 0 && Reachable(l, nCooks) && l.k.worker.Joining?
    ensures forall e :: Enabled(l, e) ==> !Slumber(Next(l, e).k.cooks)
    ensures Stuck(l) && !l.k.pantry.lock.ByTick? ==> (Enabled(l, Inside(Join)) <==> Uneaten(l.k) == 0)
    ensures Stuck(l) && !l.k.pantry.lock.ByTick? && Uneaten(l.k) > 0 ==>
      Enabled(l, Inside(TickLock)) && l.k.pantry.stock[Dough] == 0
  {
    hide Reachable, Stuck, Conserved, Counted, OrdersEnd, ResultsEnd, LinkStatus.StatusInv;
    hide LocksInv, LoadInv, WakeInv, StockInv;
    ReachableInv(l, nCooks);
    forall e | Enabled(l, e) ensures !Slumber(Next(l, e).k.cooks) {
      AwakeStaysAwake(l, e);
    }
    if Stuck(l) && !l.k.pantry.lock.ByTick? {
      StuckOnlyForDough(l, nCooks);
      StockFreeWhenStuck(l, nCooks);
    }
  }

  lemma AwakeStaysAwake(l: Link, e: Event)
    requires !l.k.pool.running && !Slumber(l.k.cooks) && Enabled(l, e)
    ensures !Slumber(Next(l, e).k.cooks)
  {
    hide Polled, NarrowStock, Handled, Needs;
  }

  lemma StockFreeWhenStuck(l: Link, nCooks: nat)
    requires nCooks > 0 && Reachable(l, nCooks) && Stuck(l) && !l.k.pantry.lock.ByTick?
    ensures l.k.pantry.lock.Free?
  {
    hide Reachable, Conserved, Counted, OrdersEnd, ResultsEnd, LinkStatus.StatusInv, LoadInv, LifeInv, WakeInv, StockInv;
    ReachableInv(l, nCooks);
    var i := if l.k.pantry.lock.ByCook? then l.k.pantry.lock.cook else 0;
    assert !Enabled(l, Inside(StockTry(i)));
  }
}
