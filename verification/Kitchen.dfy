/**
 One kitchen process as a transition system: the main thread (poll loop, addPizza,
 status report, stop and join), the cook threads, and the stock with its
 regeneration thread. The two mutexes and the two condition variables are explicit:
 a cook that waits is Asleep or Starved until it is signalled, broadcast to, or woken
 spuriously, and must lock the mutex again before it looks at the shared state.

 Accesses to data that only one mutex protects are one step; `load` is an atomic
 counter that cooks decrement outside the mutex, so the accesses to it are separate.
 */
module Kitchen {
  import opened Menu

  // -------------------------------------------------------------------- state

  datatype Cook =
    | Ready                    // about to lock the queue mutex
    | Checking                 // holds the queue mutex, about to test the queue
    | Asleep                   // waits on the queue's condition variable
    | Woken                    // out of the wait, about to lock the mutex again
    | Fetched(pizza: Pizza)    // popped a pizza, mutex released
    | AtStock(pizza: Pizza)    // marked COOKING, about to lock the stock mutex
    | Tasting(pizza: Pizza)    // holds the stock mutex, about to test the stock
    | Starved(pizza: Pizza)    // waits on the stock's condition variable
    | Fed(pizza: Pizza)        // out of that wait, about to lock the stock mutex again
    | Baking(pizza: Pizza)     // ingredients taken, Done not yet sent
    | Announced(pizza: Pizza)  // Done sent, still marked COOKING
    | Cleared(pizza: Pizza)    // marked IDLE, --load pending
    | Exited
  {
    /** What the cook's state field says to a status report. */
    predicate Busy() {
      AtStock? || Tasting? || Starved? || Fed? || Baking? || Announced?
    }
  }

  datatype CookReport = CookReport(id: byte, busy: bool)

  type Stock = m: map<Ingredient, nat> | m.Keys == ALL_INGREDIENTS witness FULL_SHELF

  const FULL_SHELF: map<Ingredient, nat> := map x | x in ALL_INGREDIENTS :: 5

  datatype Worker =
    | Polling
    | Adding(pizza: Pizza)      // addPizza called, about to lock
    | AddTesting(pizza: Pizza)  // holds the queue mutex, about to test isFull
    | AddPushing(pizza: Pizza)  // found room, about to push
    | AddCounting               // pushed, ++load pending
    | AddNotifying              // counted, notifyOne and unlock pending
    | Refusing(pizza: Pizza)    // addPizza said no, Full not yet sent
    | Replying                  // took a status request, about to read the load
    | Sampling(load: nat, shelf: Option<Stock>, seen: seq<CookReport>)
    | Sending(load: nat, stock: Stock, todo: seq<CookReport>)
    | IdleCheck(leaving: bool)  // the packet is dealt with; leaving after Shutdown
    | Stopping                  // left the loop, about to clear running
    | Broadcasting              // running cleared, notifyAll pending
    | Joining
    | Farewell                  // all cooks joined, Shutdown packet pending
    | Finished
  {
    predicate HoldsLock() { AddTesting? || AddPushing? || AddCounting? || AddNotifying? }
    predicate InLoop() { !Stopping? && !Broadcasting? && !Joining? && !Farewell? && !Finished? }
  }

  datatype Owner = Free | ByWorker | ByCook(cook: nat) | ByTick

  datatype Exit = StillOpen | ByShutdown | ByTimeout

  datatype Pool = Pool(queue: seq<Pizza>, load: nat, running: bool, lock: Owner)

  /** `ticks` and `eaten` are history: regenerations so far and kinds of the pizzas served. */
  datatype Pantry = Pantry(stock: Stock, lock: Owner, open: bool, ticks: nat, eaten: multiset<PizzaType>)

  datatype Kitchen = Kitchen(worker: Worker, exit: Exit, cooks: seq<Cook>, pool: Pool, pantry: Pantry)

  function Capacity(k: Kitchen): nat {
    2 * |k.cooks|
  }

  predicate IsFull(k: Kitchen) {
    k.pool.load >= Capacity(k)
  }

  function NewKitchen(nCooks: nat): Kitchen {
    Kitchen(Polling, StillOpen, seq(nCooks, _ => Ready), Pool([], 0, true, Free),
            Pantry(FULL_SHELF, Free, true, 0, multiset{}))
  }

  // -------------------------------------------------------------------- stock

  predicate AllAvailable(stock: Stock, needed: seq<Ingredient>) {
    forall x :: x in needed ==> x in stock && stock[x] > 0
  }

  /** One unit less of each needed ingredient. */
  function Without(stock: Stock, needed: seq<Ingredient>): Stock
    requires AllAvailable(stock, needed)
  {
    map x | x in stock :: if x in needed then stock[x] - 1 else stock[x]
  }

  /** One unit more of every ingredient. */
  function Regenerated(stock: Stock): Stock {
    map x | x in stock :: stock[x] + 1
  }

  // -------------------------------------------------------------------- moves

  /** The moves that touch neither message queue. */
  datatype Move =
    | AddLock | AddTest | AddPush | AddCount | AddNotify(woken: Option<nat>)
    | SampleLoad | SampleStock | SampleCook
    | Doze | Expire | Stop | Broadcast | Join
    | CookLock(i: nat) | CookCheck(i: nat) | CookWake(i: nat) | CookStart(i: nat)
    | StockLock(i: nat) | StockTry(i: nat) | StockWake(i: nat)
    | Clear(i: nat) | Settle(i: nat)
    | TickLock | Tick | CloseStock
  {
    predicate OfCook() {
      CookLock? || CookCheck? || CookWake? || CookStart? || StockLock? || StockTry? || StockWake? || Clear? || Settle?
    }
  }

  predicate CanWork(k: Kitchen, m: Move)
    requires !m.OfCook()
  {
    match m
    case AddLock => k.worker.Adding? && k.pool.lock.Free?
    case AddTest => k.worker.AddTesting?
    case AddPush => k.worker.AddPushing?
    case AddCount => k.worker.AddCounting?
    case AddNotify(woken) =>
      && k.worker.AddNotifying?
      && (match woken
          case Some(i) => i < |k.cooks| && k.cooks[i].Asleep?
          case None => !Slumber(k.cooks))
    case SampleLoad => k.worker.Replying?
    case SampleStock => k.worker.Sampling? && k.worker.shelf.None? && k.pantry.lock.Free?
    case SampleCook => k.worker.Sampling? && k.worker.shelf.Some? && |k.worker.seen| < |k.cooks|
    case Doze => k.worker.IdleCheck?
    case Expire => k.worker.IdleCheck? && !k.worker.leaving && k.pool.load == 0
    case Stop => k.worker.Stopping? && k.pool.lock.Free?
    case Broadcast => k.worker.Broadcasting?
    case Join => k.worker.Joining? && forall i :: 0 <= i < |k.cooks| ==> k.cooks[i].Exited?
    case TickLock => k.pantry.lock.Free?
    case Tick => k.pantry.lock.ByTick?
    case CloseStock => k.worker.Finished? && k.pantry.lock.Free? && k.pantry.open
  }

  predicate Slumber(cooks: seq<Cook>) {
    exists i :: 0 <= i < |cooks| && cooks[i].Asleep?
  }

  function Work(k: Kitchen, m: Move): Kitchen
    requires !m.OfCook() && CanWork(k, m)
  {
    match m
    case AddLock => k.(worker := AddTesting(k.worker.pizza), pool := k.pool.(lock := ByWorker))
    case AddTest =>
      if IsFull(k) then k.(worker := Refusing(k.worker.pizza), pool := k.pool.(lock := Free))
      else k.(worker := AddPushing(k.worker.pizza))
    case AddPush => k.(worker := AddCounting, pool := k.pool.(queue := k.pool.queue + [k.worker.pizza]))
    case AddCount => k.(worker := AddNotifying, pool := k.pool.(load := k.pool.load + 1))
    case AddNotify(woken) =>
      k.(worker := IdleCheck(false), pool := k.pool.(lock := Free),
         cooks := if woken.Some? then k.cooks[woken.value := Woken] else k.cooks)
    case SampleLoad => k.(worker := Sampling(k.pool.load, None, []))
    case SampleStock => k.(worker := k.worker.(shelf := Some(k.pantry.stock)))
    case SampleCook =>
      var i := |k.worker.seen|;
      var seen := k.worker.seen + [CookReport((i % 256) as byte, k.cooks[i].Busy())];
      k.(worker := if |seen| == |k.cooks| then Sending(k.worker.load, k.worker.shelf.value, seen)
                   else k.worker.(seen := seen))
    case Doze =>
      if k.worker.leaving then k.(worker := Stopping, exit := ByShutdown) else k.(worker := Polling)
    case Expire => k.(worker := Stopping, exit := ByTimeout)
    case Stop => k.(worker := Broadcasting, pool := k.pool.(running := false))
    case Broadcast => k.(worker := Joining, cooks := WakeAll(k.cooks))
    case Join => k.(worker := Farewell)
    case TickLock => k.(pantry := k.pantry.(lock := ByTick))
    case Tick =>
      if k.pantry.open then
        k.(cooks := FeedAll(k.cooks),
           pantry := k.pantry.(lock := Free, stock := Regenerated(k.pantry.stock), ticks := k.pantry.ticks + 1))
      else
        k.(pantry := k.pantry.(lock := Free))
    case CloseStock => k.(cooks := FeedAll(k.cooks), pantry := k.pantry.(open := false))
  }

  /** notifyAll on the queue's condition variable. */
  function WakeAll(cooks: seq<Cook>): seq<Cook> {
    seq(|cooks|, i requires 0 <= i < |cooks| => if cooks[i].Asleep? then Woken else cooks[i])
  }

  /** notifyAll on the stock's condition variable. */
  function FeedAll(cooks: seq<Cook>): seq<Cook> {
    seq(|cooks|, i requires 0 <= i < |cooks| => if cooks[i].Starved? then Fed(cooks[i].pizza) else cooks[i])
  }

  const SIZE_MAX: nat := 0xFFFF_FFFF_FFFF_FFFF

  /** `--` on a std::size_t. */
  function Decremented(count: nat): nat {
    if count > 0 then count - 1 else SIZE_MAX
  }

  predicate CanCook(k: Kitchen, m: Move)
    requires m.OfCook()
  {
    && m.i < |k.cooks|
    && var c := k.cooks[m.i];
       match m
       case CookLock(_) => (c.Ready? || c.Woken?) && k.pool.lock.Free?
       case CookCheck(_) => c.Checking?
       case CookWake(_) => c.Asleep?
       case CookStart(_) => c.Fetched?
       case StockLock(_) => (c.AtStock? || c.Fed?) && k.pantry.lock.Free?
       case StockTry(_) => c.Tasting?
       case StockWake(_) => c.Starved?
       case Clear(_) => c.Announced?
       case Settle(_) => c.Cleared?
  }

  function DoCook(k: Kitchen, m: Move): Kitchen
    requires m.OfCook() && CanCook(k, m)
  {
    var i := m.i;
    var c := k.cooks[i];
    match m
    case CookLock(_) => k.(cooks := k.cooks[i := Checking], pool := k.pool.(lock := ByCook(i)))
    case CookCheck(_) =>
      var unlocked := k.pool.(lock := Free);
      if k.pool.queue == [] then
        k.(cooks := k.cooks[i := if k.pool.running then Asleep else Exited], pool := unlocked)
      else
        k.(cooks := k.cooks[i := Fetched(k.pool.queue[0])], pool := unlocked.(queue := k.pool.queue[1..]))
    case CookWake(_) => k.(cooks := k.cooks[i := Woken])
    case CookStart(_) => k.(cooks := k.cooks[i := AtStock(c.pizza)])
    case StockLock(_) => k.(cooks := k.cooks[i := Tasting(c.pizza)], pantry := k.pantry.(lock := ByCook(i)))
    case StockTry(_) =>
      var unlocked := k.pantry.(lock := Free);
      if !k.pantry.open then
        k.(cooks := k.cooks[i := Cleared(c.pizza)], pantry := unlocked)
      else if !AllAvailable(k.pantry.stock, Needs(c.pizza.kind)) then
        k.(cooks := k.cooks[i := Starved(c.pizza)], pantry := unlocked)
      else
        k.(cooks := k.cooks[i := Baking(c.pizza)],
           pantry := unlocked.(stock := Without(k.pantry.stock, Needs(c.pizza.kind)),
                               eaten := k.pantry.eaten + multiset{c.pizza.kind}))
    case StockWake(_) => k.(cooks := k.cooks[i := Fed(c.pizza)])
    case Clear(_) => k.(cooks := k.cooks[i := Cleared(c.pizza)])
    case Settle(_) => k.(cooks := k.cooks[i := Ready], pool := k.pool.(load := Decremented(k.pool.load)))
  }

  predicate Can(k: Kitchen, m: Move) {
    if m.OfCook() then CanCook(k, m) else CanWork(k, m)
  }

  function Do(k: Kitchen, m: Move): Kitchen
    requires Can(k, m)
  {
    if m.OfCook() then DoCook(k, m) else Work(k, m)
  }
}
