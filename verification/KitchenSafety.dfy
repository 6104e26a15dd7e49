/** What every step of a kitchen keeps, whatever the interleaving. */
module KitchenSafety {
  import opened Menu
  import opened Sums
  import opened Kitchen

  // ------------------------------------------------------------------- counts

  /** A popped pizza that still counts in the pool's load. */
  ghost function Held(c: Cook): nat {
    if c.Ready? || c.Checking? || c.Asleep? || c.Woken? || c.Exited? then 0 else 1
  }

  /** One for each cook who will test the queue before anything else. */
  ghost function Heading(c: Cook): nat {
    if c.Ready? || c.Checking? || c.Woken? then 1 else 0
  }

  // --------------------------------------------------------------- invariants

  ghost predicate LocksInv(k: Kitchen) {
    && (k.pool.lock.ByWorker? <==> k.worker.HoldsLock())
    && !k.pool.lock.ByTick? && !k.pantry.lock.ByWorker?
    && (k.pool.lock.ByCook? ==> k.pool.lock.cook < |k.cooks|)
    && (k.pantry.lock.ByCook? ==> k.pantry.lock.cook < |k.cooks|)
    && (forall i :: 0 <= i < |k.cooks| ==> (k.cooks[i].Checking? <==> k.pool.lock == ByCook(i)))
    && (forall i :: 0 <= i < |k.cooks| ==> (k.cooks[i].Tasting? <==> k.pantry.lock == ByCook(i)))
  }

  /** The pizza pushed but not yet counted, between the two statements of addPizza. */
  ghost function Gap(w: Worker): nat {
    if w.AddCounting? then 1 else 0
  }

  ghost predicate LoadInv(k: Kitchen) {
    && k.pool.load + Gap(k.worker) == |k.pool.queue| + Sum(k.cooks, Held)
    && k.pool.load + (if k.worker.AddPushing? || k.worker.AddCounting? then 1 else 0) <= Capacity(k)
    && (k.worker.AddCounting? ==> k.pool.queue != [])
  }

  ghost predicate LifeInv(k: Kitchen) {
    && (k.pool.running <==> !k.worker.Broadcasting? && !k.worker.Joining? && !k.worker.Farewell? && !k.worker.Finished?)
    && (k.exit.StillOpen? <==> k.worker.InLoop())
    && (k.worker.Joining? || k.worker.Farewell? || k.worker.Finished? ==> !Slumber(k.cooks))
    && (k.worker.Farewell? || k.worker.Finished? ==> forall i :: 0 <= i < |k.cooks| ==> k.cooks[i].Exited?)
    && (forall i :: 0 <= i < |k.cooks| && k.cooks[i].Exited? ==> !k.pool.running && k.pool.queue == [])
    && (!k.pantry.open ==> k.worker.Finished?)
    && |k.cooks| > 0
  }

  /** No lost wakeup: a cook sleeps only while every queued pizza has a cook on its way to the queue. */
  ghost predicate WakeInv(k: Kitchen) {
    k.pool.running && Slumber(k.cooks) ==>
      |k.pool.queue| <= Sum(k.cooks, Heading) + (if k.worker.AddCounting? || k.worker.AddNotifying? then 1 else 0)
  }

  /** How many of the pizzas served use an ingredient. */
  ghost function Uses(eaten: multiset<PizzaType>, x: Ingredient): nat {
    (if x in Needs(Regina) then eaten[Regina] else 0)
    + (if x in Needs(Margarita) then eaten[Margarita] else 0)
    + (if x in Needs(Americana) then eaten[Americana] else 0)
    + (if x in Needs(Fantasia) then eaten[Fantasia] else 0)
  }

  /** Every unit that was ever on the shelf is still there or went into a pizza. */
  ghost predicate Balanced(stock: Stock, eaten: multiset<PizzaType>, ticks: nat) {
    forall x :: x in ALL_INGREDIENTS ==> stock[x] + Uses(eaten, x) == 5 + ticks
  }

  ghost predicate StockInv(k: Kitchen) {
    && Balanced(k.pantry.stock, k.pantry.eaten, k.pantry.ticks)
    && (forall i :: 0 <= i < |k.cooks| && k.cooks[i].Starved? ==> k.pantry.stock[Dough] == 0)
  }

  ghost predicate KitchenInv(k: Kitchen) {
    LocksInv(k) && LoadInv(k) && LifeInv(k) && WakeInv(k) && StockInv(k)
  }

  // -------------------------------------------------------------- preservation

  lemma NewKitchenInv(nCooks: nat)
    requires nCooks > 0
    ensures KitchenInv(NewKitchen(nCooks))
  {
    var k := NewKitchen(nCooks);
    SumZero(k.cooks, Held);
  }

  /** The moves after which some cooks have been woken. */
  predicate Wakes(m: Move) {
    m.AddNotify? || m.Broadcast? || m.Tick? || m.CloseStock?
  }

  /** A cook's moves at the queue. */
  predicate AtQueue(m: Move) {
    m.CookLock? || m.CookCheck? || m.CookWake? || m.Settle?
  }

  /** Neither a mutex nor a cook is touched. */
  lemma SameLocks(k: Kitchen, k': Kitchen)
    requires LocksInv(k) && k'.cooks == k.cooks && k'.pantry.lock == k.pantry.lock && k'.pool.lock == k.pool.lock
    requires k'.worker.HoldsLock() <==> k.worker.HoldsLock()
    ensures LocksInv(k')
  {
  }

  /** The main thread's moves under the queue mutex, and the regeneration thread's. */
  predicate Locks(m: Move) {
    m.AddLock? || m.AddTest? || m.TickLock?
  }

  lemma LockingKeepsLocks(k: Kitchen, m: Move)
    requires LocksInv(k) && Locks(m) && CanWork(k, m)
    ensures LocksInv(Work(k, m))
  {
  }

  lemma QuietKeepsLocks(k: Kitchen, m: Move)
    requires LocksInv(k) && !m.OfCook() && !Wakes(m) && CanWork(k, m)
    ensures LocksInv(Work(k, m))
  {
    if Locks(m) {
      LockingKeepsLocks(k, m);
    } else {
      SameLocks(k, Work(k, m));
    }
    hide LocksInv;
  }

  lemma WakingKeepsLocks(k: Kitchen, m: Move)
    requires LocksInv(k) && Wakes(m) && CanWork(k, m)
    ensures LocksInv(Work(k, m))
  {
  }

  lemma QueueKeepsLocks(k: Kitchen, m: Move)
    requires LocksInv(k) && AtQueue(m) && CanCook(k, m)
    ensures LocksInv(DoCook(k, m))
  {
  }

  lemma BakingKeepsLocks(k: Kitchen, m: Move)
    requires LocksInv(k) && m.OfCook() && !AtQueue(m) && CanCook(k, m)
    ensures LocksInv(DoCook(k, m))
  {
    hide AllAvailable, Needs, Without;
  }

  lemma WorkKeepsLoad(k: Kitchen, m: Move)
    requires LoadInv(k) && !m.OfCook() && CanWork(k, m)
    ensures LoadInv(Work(k, m))
  {
    var k' := Work(k, m);
    if m.AddNotify? && m.woken.Some? {
      SumUpdate(k.cooks, m.woken.value, Woken, Held);
    } else {
      SumSame(k.cooks, k'.cooks, Held);
    }
  }

  /** A cook pops a pizza, settles one, or neither. */
  lemma OneCookKeepsLoad(k: Kitchen, k': Kitchen, i: nat)
    requires LoadInv(k) && i < |k.cooks| == |k'.cooks| && k'.cooks == k.cooks[i := k'.cooks[i]] && k'.worker == k.worker
    requires k'.pool.load <= k.pool.load
    requires k'.pool.load - |k'.pool.queue| - Held(k'.cooks[i]) == k.pool.load - |k.pool.queue| - Held(k.cooks[i])
    requires k.worker.AddCounting? ==> k'.pool.queue == k.pool.queue
    ensures LoadInv(k')
  {
    hide Held;
    SumUpdate(k.cooks, i, k'.cooks[i], Held);
  }

  lemma CookKeepsLoad(k: Kitchen, m: Move)
    requires LoadInv(k) && LocksInv(k) && m.OfCook() && CanCook(k, m)
    ensures LoadInv(DoCook(k, m))
  {
    SumMember(k.cooks, m.i, Held);
    hide AllAvailable, Needs, Without, Sum;
    assert k.worker.AddCounting? ==> !k.cooks[m.i].Checking?;
    assert k.pool.load + Gap(k.worker) >= Held(k.cooks[m.i]) + |k.pool.queue|;
    hide LocksInv, LoadInv;
    OneCookKeepsLoad(k, DoCook(k, m), m.i);
  }

  lemma WorkKeepsLife(k: Kitchen, m: Move)
    requires LifeInv(k) && LocksInv(k) && !m.OfCook() && CanWork(k, m)
    ensures LifeInv(Work(k, m))
  {
    if Wakes(m) {
      hide Slumber, IsFull, Capacity;
      WakingKeepsLife(k, m);
    } else {
      hide WakeAll, FeedAll, Regenerated, IsFull, Slumber;
    }
  }

  lemma WakingKeepsLife(k: Kitchen, m: Move)
    requires LifeInv(k) && LocksInv(k) && Wakes(m) && CanWork(k, m)
    ensures LifeInv(Work(k, m))
  {
    hide LocksInv, Regenerated;
  }

  /** One cook's state changes: it falls asleep only while the pool runs, and leaves only when it is drained. */
  lemma OneCookKeepsLife(k: Kitchen, k': Kitchen, i: nat)
    requires LifeInv(k) && i < |k.cooks| == |k'.cooks| && k'.cooks == k.cooks[i := k'.cooks[i]]
    requires k'.worker == k.worker && k'.exit == k.exit && k'.pool.running == k.pool.running && k'.pantry.open == k.pantry.open
    requires k.pool.queue == [] ==> k'.pool.queue == []
    requires !k.cooks[i].Exited? && (k'.cooks[i].Asleep? ==> k.pool.running)
    requires k'.cooks[i].Exited? ==> !k.pool.running && k'.pool.queue == []
    ensures LifeInv(k')
  {
  }

  lemma CookKeepsLife(k: Kitchen, m: Move)
    requires LifeInv(k) && LocksInv(k) && m.OfCook() && CanCook(k, m)
    ensures LifeInv(DoCook(k, m))
  {
    hide AllAvailable, Needs, Without, LifeInv, LocksInv;
    OneCookKeepsLife(k, DoCook(k, m), m.i);
  }

  /** Neither the pool nor a cook is touched, and no fewer signals are due. */
  lemma SameWake(k: Kitchen, k': Kitchen)
    requires WakeInv(k) && k'.cooks == k.cooks && k'.pool.queue == k.pool.queue && (k'.pool.running ==> k.pool.running)
    requires k.worker.AddCounting? || k.worker.AddNotifying? ==> k'.worker.AddCounting? || k'.worker.AddNotifying?
    ensures WakeInv(k')
  {
  }

  lemma PushKeepsWake(k: Kitchen)
    requires WakeInv(k) && CanWork(k, AddPush)
    ensures WakeInv(Work(k, AddPush))
  {
  }

  /** The signal goes to a cook that sleeps, if any does. */
  lemma NotifyKeepsWake(k: Kitchen, woken: Option<nat>)
    requires WakeInv(k) && CanWork(k, AddNotify(woken))
    ensures WakeInv(Work(k, AddNotify(woken)))
  {
    if woken.Some? { SumUpdate(k.cooks, woken.value, Woken, Heading); }
  }

  lemma FeedingKeepsWake(k: Kitchen, m: Move)
    requires WakeInv(k) && (m.Tick? || m.CloseStock?) && CanWork(k, m)
    ensures WakeInv(Work(k, m))
  {
    SumSame(k.cooks, FeedAll(k.cooks), Heading);
    assert Slumber(FeedAll(k.cooks)) ==> Slumber(k.cooks) by { FeedingWakesNobody(k.cooks); }
    hide Regenerated, FeedAll, Slumber;
  }

  lemma FeedingWakesNobody(cooks: seq<Cook>)
    ensures Slumber(FeedAll(cooks)) ==> Slumber(cooks)
  {
    if i :| 0 <= i < |FeedAll(cooks)| && FeedAll(cooks)[i].Asleep? {
      assert cooks[i].Asleep?;
    }
  }

  lemma WorkKeepsWake(k: Kitchen, m: Move)
    requires WakeInv(k) && LifeInv(k) && !m.OfCook() && CanWork(k, m)
    ensures WakeInv(Work(k, m))
  {
    hide Slumber, Regenerated, FeedAll, WakeAll, IsFull;
    if m.AddPush? {
      PushKeepsWake(k);
    } else if m.AddNotify? {
      NotifyKeepsWake(k, m.woken);
    } else if m.Tick? || m.CloseStock? {
      FeedingKeepsWake(k, m);
    } else if m.Broadcast? {
      assert !Work(k, m).pool.running;
    } else {
      hide WakeInv;
      SameWake(k, Work(k, m));
    }
  }

  lemma CookKeepsWake(k: Kitchen, m: Move)
    requires WakeInv(k) && LocksInv(k) && m.OfCook() && CanCook(k, m)
    ensures WakeInv(DoCook(k, m))
  {
    SumUpdate(k.cooks, m.i, DoCook(k, m).cooks[m.i], Heading);
  }

  /** Dough and tomato run out first, and together: what is left of them decides for every recipe. */
  lemma DoughDecides(stock: Stock, eaten: multiset<PizzaType>, ticks: nat, kind: PizzaType)
    requires Balanced(stock, eaten, ticks)
    ensures stock[Dough] + |eaten| == 5 + ticks
    ensures stock[Tomato] == stock[Dough]
    ensures forall x :: x in ALL_INGREDIENTS ==> stock[Dough] <= stock[x]
    ensures AllAvailable(stock, Needs(kind)) <==> stock[Dough] > 0
  {
    hide Uses, AllAvailable, Needs;
    EatenByKind(eaten);
    UsesAtMostAll(eaten, Dough);
    UsesAtMostAll(eaten, Tomato);
    assert stock[Dough] + Uses(eaten, Dough) == 5 + ticks == stock[Tomato] + Uses(eaten, Tomato);
    forall x | x in ALL_INGREDIENTS ensures stock[Dough] <= stock[x] {
      UsesAtMostAll(eaten, x);
      assert stock[x] + Uses(eaten, x) == 5 + ticks;
    }
    hide Balanced;
    AvailableIfDough(stock, kind);
  }

  lemma AvailableIfDough(stock: Stock, kind: PizzaType)
    requires forall x :: x in ALL_INGREDIENTS ==> stock[Dough] <= stock[x]
    ensures AllAvailable(stock, Needs(kind)) <==> stock[Dough] > 0
  {
    BuiltinRecipesResolve(kind);
    hide Needs;
    if stock[Dough] > 0 {
      forall x | x in Needs(kind) ensures x in stock && stock[x] > 0 {
        match x case Dough => case Tomato => case Gruyere => case Ham => case Mushrooms => case Steak =>
          case Eggplant => case GoatCheese => case ChiefLove =>
      }
    }
  }

  lemma EatenByKind(eaten: multiset<PizzaType>)
    ensures |eaten| == eaten[Regina] + eaten[Margarita] + eaten[Americana] + eaten[Fantasia]
  {
    assert eaten == eaten[Regina := 0][Margarita := 0][Americana := 0][Fantasia := 0]
      [Regina := eaten[Regina]][Margarita := eaten[Margarita]][Americana := eaten[Americana]][Fantasia := eaten[Fantasia]];
    var none := eaten[Regina := 0][Margarita := 0][Americana := 0][Fantasia := 0];
    if kind :| kind in none {
      match kind case Regina => case Margarita => case Americana => case Fantasia =>
    }
    assert none == multiset{};
  }

  lemma UsesAtMostAll(eaten: multiset<PizzaType>, x: Ingredient)
    ensures Uses(eaten, x) <= eaten[Regina] + eaten[Margarita] + eaten[Americana] + eaten[Fantasia]
    ensures x == Dough || x == Tomato ==>
      Uses(eaten, x) == eaten[Regina] + eaten[Margarita] + eaten[Americana] + eaten[Fantasia]
  {
    BuiltinRecipesResolve(Regina);
    BuiltinRecipesResolve(Margarita);
    BuiltinRecipesResolve(Americana);
    BuiltinRecipesResolve(Fantasia);
  }

  lemma UsesOneMore(eaten: multiset<PizzaType>, kind: PizzaType, x: Ingredient)
    ensures Uses(eaten + multiset{kind}, x) == Uses(eaten, x) + if x in Needs(kind) then 1 else 0
  {
    match kind case Regina => case Margarita => case Americana => case Fantasia =>
  }

  lemma ServingKeepsBalance(stock: Stock, eaten: multiset<PizzaType>, ticks: nat, kind: PizzaType)
    requires Balanced(stock, eaten, ticks) && AllAvailable(stock, Needs(kind))
    ensures Balanced(Without(stock, Needs(kind)), eaten + multiset{kind}, ticks)
  {
    forall x | x in ALL_INGREDIENTS
      ensures Without(stock, Needs(kind))[x] + Uses(eaten + multiset{kind}, x) == 5 + ticks
    {
      UsesOneMore(eaten, kind, x);
    }
  }

  /** Nothing served or regenerated, and nobody newly starved. */
  lemma SameStock(k: Kitchen, k': Kitchen)
    requires StockInv(k) && |k'.cooks| == |k.cooks|
    requires k'.pantry.stock == k.pantry.stock && k'.pantry.eaten == k.pantry.eaten && k'.pantry.ticks == k.pantry.ticks
    requires forall i :: 0 <= i < |k.cooks| && k'.cooks[i].Starved? ==> k.cooks[i].Starved?
    ensures StockInv(k')
  {
    hide Balanced;
  }

  lemma TickKeepsStock(k: Kitchen)
    requires StockInv(k) && CanWork(k, Tick)
    ensures StockInv(Work(k, Tick))
  {
    hide Balanced, Regenerated;
    if k.pantry.open {
      TickKeepsBalance(k.pantry.stock, k.pantry.eaten, k.pantry.ticks);
      assert forall i :: 0 <= i < |k.cooks| ==> !FeedAll(k.cooks)[i].Starved?;
    }
  }

  lemma WorkKeepsStock(k: Kitchen, m: Move)
    requires StockInv(k) && LifeInv(k) && !m.OfCook() && CanWork(k, m)
    ensures StockInv(Work(k, m))
  {
    hide StockInv, LifeInv;
    if m == Tick {
      TickKeepsStock(k);
    } else if Wakes(m) {
      SameStock(k, Work(k, m));
    } else {
      hide WakeAll, FeedAll, Slumber;
      SameStock(k, Work(k, m));
    }
  }

  lemma TickKeepsBalance(stock: Stock, eaten: multiset<PizzaType>, ticks: nat)
    requires Balanced(stock, eaten, ticks)
    ensures Balanced(Regenerated(stock), eaten, ticks + 1)
  {
  }

  lemma CookKeepsStock(k: Kitchen, m: Move)
    requires StockInv(k) && m.OfCook() && CanCook(k, m)
    ensures StockInv(DoCook(k, m))
  {
    hide Balanced, AllAvailable, Needs;
    if m.StockTry? {
      TryingKeepsStock(k, m.i);
    } else {
      assert DoCook(k, m).pantry.stock == k.pantry.stock && DoCook(k, m).pantry.eaten == k.pantry.eaten;
    }
  }

  lemma TryingKeepsStock(k: Kitchen, i: nat)
    requires StockInv(k) && CanCook(k, StockTry(i))
    ensures StockInv(DoCook(k, StockTry(i)))
  {
    hide Balanced, AllAvailable, Needs;
    var kind := k.cooks[i].pizza.kind;
    DoughDecides(k.pantry.stock, k.pantry.eaten, k.pantry.ticks, kind);
    if AllAvailable(k.pantry.stock, Needs(kind)) {
      ServingKeepsBalance(k.pantry.stock, k.pantry.eaten, k.pantry.ticks, kind);
    }
  }

  /** Every step of a kitchen, of whichever thread, keeps the whole invariant. */
  lemma MoveKeepsInv(k: Kitchen, m: Move)
    requires KitchenInv(k) && Can(k, m)
    ensures KitchenInv(Do(k, m))
  {
    if m.OfCook() {
      if AtQueue(m) { QueueKeepsLocks(k, m); } else { BakingKeepsLocks(k, m); }
      CookKeepsLoad(k, m);
      CookKeepsLife(k, m);
      CookKeepsWake(k, m);
      CookKeepsStock(k, m);
    } else {
      if Wakes(m) { WakingKeepsLocks(k, m); } else { QuietKeepsLocks(k, m); }
      WorkKeepsLoad(k, m);
      WorkKeepsLife(k, m);
      WorkKeepsWake(k, m);
      WorkKeepsStock(k, m);
    }
  }

  lemma LoadFits(k: Kitchen)
    requires KitchenInv(k)
    ensures k.pool.load <= Capacity(k) && k.cooks != []
  {
  }
}
