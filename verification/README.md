# Plazza, verified

A Dafny model of plazza, a pizzeria made of processes and threads. One reception process takes
orders, opens kitchens (child processes) as it needs them, and talks to each kitchen over two
FIFO message queues: orders one way, results the other. In a kitchen a main thread polls its order
queue, a pool of cooks shares a mutex and a condition variable, and a stock of ingredients
regenerates under a second pair.

The project models this as a transition system in which every thread and process moves one step
at a time, in any interleaving, with explicit mutexes, sleep sets and spurious wakeups, and
proves what holds in every state that any run reaches. The sequential parts - the load balancer's
loops, the pool's and the stock's critical sections, the kitchen's main loop, the order book and
the order parser - are also there in their own imperative form, proved against the
functions that the transition system uses.

## How it is laid out

| file | what it holds |
|---|---|
| `Sums.dfy` | totals over sequences |
| `Menu.dfy` | pizzas, their wire form, ingredients, recipes, the recipe registry |
| `Kitchen.dfy`, `KitchenSafety.dfy` | a kitchen's threads as moves, and what every move keeps |
| `Protocol.dfy` | one reception handle and one kitchen joined by two queues; events and runs |
| `LinkSafety.dfy`, `LinkEnds.dfy`, `LinkStatus.dfy` | what every event keeps: pizzas, last packets, status reports |
| `LinkTheorems.dfy` | theorems about every run of a link |
| `Refusals.dfy` | when a kitchen refuses, and how low a load rules that out |
| `Progress.dfy`, `Drain.dfy` | that cooks come to rest, and that the drain after stop ends |
| `Endings.dfy`, `Witnesses.dfy` | how a kitchen closes, what it strands, and runs in which it does |
| `Snapshots.dfy`, `Reports.dfy` | what a status report is worth, and what getStatus returns |
| `Clock.dfy`, `MainThread.dfy` | runs by the clock: the idle timeout, and the main thread against its class |
| `Punctual.dfy` | how early a pizza has to be sent not to be stranded |
| `Turns.dfy` | that a kitchen always gets on: through its orders, or to its end |
| `Allocation.dfy` | the greedy allocation loop of a dispatch |
| `Orders.dfy` | the order book, and the callbacks that keep it |
| `Pizzeria.dfy`, `PizzeriaSafety.dfy`, `PizzeriaTheorems.dfy` | the whole system: any number of kitchens, the reception's occupations, the book |
| `Ledger.dfy` | where every ordered pizza is, with the stranded ones apart |
| `Announcements.dfy`, `Haste.dfy` | when an announced order is ready, and a run in which it is not |
| `Reception.dfy`, `Refinement.dfy` | the load balancer as a class, and its dispatch, drain and sweep against the steps of the system |
| `Surveys.dfy`, `SurveyLoops.dfy` | whole surveys and shutdowns of the system: what they tell, and the loops that make them |
| `Completion.dfy` | that dispatch, survey and shutdown can always be finished |
| `CookPool.dfy`, `Shelf.dfy`, `Cooking.dfy`, `KitchenLoop.dfy` | the kitchen's classes |
| `Parser.dfy`, `Complaints.dfy` | the order parser, and what it says of lines it refuses |

`dafny verify dfyconfig.toml` checks everything.

### The transition system and the source

- `Kitchen.Move` is one step of one thread. `AddLock` to `AddNotify` are the statements of
  `addPizza` (src/kitchen/threadPool/ThreadPool.cpp:22-31), with `load` apart from the mutex
  because cooks lower it outside. `CookLock`, `CookCheck` and `CookWake` are a cook's loop around the
  queue (:66-81); `CookStart`, `StockLock`, `StockTry`, `StockWake`, `Clear` are `cookPizza` and
  `waitAndConsumeIngredients` (src/kitchen/cook/Cook.cpp:71-102,
  src/kitchen/IngredientStock/IngredientStock.cpp:41-56); `Settle` is `--_load` (ThreadPool.cpp:85).
  `TickLock`, `Tick` and `CloseStock` are the regeneration thread and the stock's destructor
  (IngredientStock.cpp:33-39, 71-82). `Doze`, `Expire`, `Stop`, `Broadcast`, `Join` end the main loop
  (src/kitchen/KitchenWorker.cpp:50-61). Any sleeping cook may wake without a signal.
- `SampleLoad`, `SampleStock` and `SampleCook` are the reads of `sendStatusResponse`, each on its own
  (KitchenWorker.cpp:90-101); cooks may move between any two of them.
- `Protocol.Event` adds the steps that touch a queue: the main thread's `Poll`, `Refuse`, `SendCook`,
  `SendReply`, `Goodbye` (KitchenWorker.cpp:40-111), a cook's `Announce` (Cook.cpp:89-92), and the
  reception's `Deliver`, `Ask`, `Quit`, `Receive`, `Reap` (src/reception/loadBalancer/LoadBalancer.cpp).
- `Pizzeria.Step` lets the reception do one thing at a time - dispatch, survey, poll, shut down -
  while every kitchen moves freely in between.
- `Reachable` (a link) and `Arises` (a system) mean: some finite sequence of enabled steps leads
  there from the initial state. Theorems are about all such states, for any number of cooks from one
  up (src/main.cpp:67) and any number of kitchens, orders and steps.

History variables (`sent`, `done`, `full`, `everAsked`, `ticks`, `eaten`, `gone`, `placed`, `quantities`)
record what happened and never influence a step. `asked` and `quit` say how far the reception is with a
kitchen: still in the list of pending ids of getStatus, already told to shut down. Amounts of pizzas are
stated through a `Lens`: all pizzas, or those of one type and size; a statement for every lens is a
statement about multisets. Steps may come at any time; in `Clock`, `MainThread` and `Punctual` each event of a
run carries the time at which it happens.

### Where code and requirements differ

The model follows the code.

- The requirements (doc/subject.md:86) want the user told when an order is ready. The code counts: order k
  is announced by Done number q1 + ... + qk, whoever's pizzas those were
  (`PizzeriaTheorems.OrdersAnnouncedByCount`). With any number of cooks and any two different pizzas a run
  exists that announces order 1 when none of its pizzas is done (`Haste.HasteMisleads`). If every order is placed
  on an empty book, each is announced exactly when it is ready
  (`Announcements.PatientOrdersAnnouncedWhenReady`). Of all limits on the number of pending orders and all choices
  of pizzas that may be ordered, only an empty book or a single pizza in a single size makes all announcements
  right (`Haste.PatienceExactly`).
- A kitchen must refuse more than 2N pizzas (doc/subject.md:114). It does, and it also refuses one that
  would fit, when a cook has sent Done and not yet lowered the counter (`Refusals.RefusalExactly`). No kitchen
  refuses as long as the reception sends to it only while its own count is below N; with any higher limit,
  and so with the 2N of the code, refusals happen (`Refusals.SafeLimitExactly`). The
  refused pizza is not dispatched again, so the book waits for one pizza more than can ever come
  (`PizzeriaTheorems.BookWaitsForLoads`).
- A kitchen that closes after five idle seconds strands the pizzas that are unread then, and every pizza sent
  to it afterwards, until its Shutdown is read; nobody cooks those. These are the only two ways
  (`Endings.StrandedExactly`, `Ledger.StrandedGrowsExactly`), and both happen
  (`Witnesses.StrandingHappens`). A pizza is safe if it is sent a period of the main loop for each packet ahead
  of it, and one for itself, before the timeout can expire (`Punctual.SentInTimeIsRead`); later it may not be
  (`Punctual.OnTheDotIsTooLate`). A kitchen that leaves its loop because it read Shutdown strands nothing
  (`Endings.ShutdownStrandsNothing`), but one that is told to shut down may time out before it reads that
  (`Witnesses.StrandingDespiteShutdown`).
- The grammar of orders (doc/subject.md:63-67) has no blanks; the code allows them around and between the parts,
  and limits the quantity to 64 bits.
- A status report squeezes counts into bytes, so the capacity it shows is right exactly for 127 cooks or
  fewer (`Endings.SurveyShowsEveryCook`).
- Quantities are cast to int one by one and added up as ints, so the book waits for as many pizzas as
  are dispatched exactly if the whole order has fewer than 2^31 (`Orders.OrderDesk.PlaceOrder`,
  `Orders.CastIsExactBelowLimit`). Where the sum leaves the range of int the standard leaves the outcome open;
  the model wraps around.

## Model

| member | source | states |
|---|---|---|
| PizzeriaTheorems.EveryPizzaAccountedFor | src/reception/loadBalancer/LoadBalancer.cpp:156-179 | End to end, for every run and every type and size: pizzas ordered = Done received + Full received + in flight (at open and at erased kitchens) + not yet sent |
| Ledger.FivePlaces | src/reception/loadBalancer/LoadBalancer.cpp:156-179 | The same with a place for stranded pizzas: every ordered pizza is done, refused, stranded, on its way at an open kitchen, or still to be sent |
| Ledger.StrandedGrowsExactly | src/kitchen/KitchenWorker.cpp:42-54 | For every step of the system, how many pizzas it strands: those unread when a kitchen times out, and one that the dispatch sends to a kitchen that has timed out; no other step changes the number |
| Ledger.FinalAccount | src/reception/loadBalancer/LoadBalancer.cpp:252-262 | After shutdown ordered = done + refused + stranded + answers that the reception no longer reads |
| PizzeriaTheorems.GoneKitchensTimedOut | src/reception/loadBalancer/LoadBalancer.cpp:235-250 | An erased kitchen had timed out and its results are all read; what it never answered for is exactly what it left unread, and as much as its handle's load |
| PizzeriaTheorems.OrdersAnnouncedByCount | src/main.cpp:21-33 | Order k has been announced exactly when q1+...+qk Dones have come in, and is announced by that very Done; no Done ever finds the book empty |
| PizzeriaTheorems.BookWaitsForLoads | src/main.cpp:38-47 | At all times the pizzas the book still waits for = loads of all kitchens ever opened + Fulls received + pizzas not yet sent |
| PizzeriaTheorems.StatusStaysInSurvey | src/reception/loadBalancer/LoadBalancer.cpp:181-210 | Outside getStatus no status packet of a living kitchen is in either queue |
| PizzeriaTheorems.SurveyIsComplete | src/reception/loadBalancer/LoadBalancer.cpp:101-129 | When getStatus returns, each reported kitchen shows every cook once, ids in order, one stock, and its own id; the capacity is true iff nCooks <= 127, and the load within it then; ids of kitchens are unique |
| Surveys.SurveyIsTrue | src/reception/loadBalancer/LoadBalancer.cpp:181-210 | When getStatus returns, each reported kitchen was asked in this survey and has answered it, and each busy flag, the load and the whole stock reported was true at some step between that request and the receipt of that answer |
| Reports.ReportsAreTrue | src/reception/loadBalancer/LoadBalancer.cpp:203-209 | What getStatus returns: one report for each living kitchen, in their order, under the kitchen's id, with every cook once; each cook's entry says whether it had a pizza in hand, the load is the pool's modulo 2^8 and the quantities the shelf's modulo 2^32, each at some step between this survey's request and its answer |
| Reports.BusyExactly | src/kitchen/cook/Cook.cpp:71-102 | In every run a cook is shown at work exactly from cookPizza's first statement to its last |
| Reports.StatusMeans | src/kitchen/KitchenWorker.cpp:87-111 | A status true of a path of states says, entry by entry, what runs to those states did |
| LinkTheorems.StatusNamesItsKitchen | src/reception/loadBalancer/LoadBalancer.cpp:22-50 | The status kept of a kitchen always carries that kitchen's id |
| SurveyLoops.SurveyIsGetStatus | src/reception/loadBalancer/LoadBalancer.cpp:55-85 | However kitchens move during a survey, it leaves each handle as getStatus does: entries dropped, then every packet its queue yielded taken in turn up to its answer or goodbye; the Dones among them called out |
| SurveyLoops.ClosingIsShutdown | src/reception/loadBalancer/LoadBalancer.cpp:252-262 | However kitchens move during a shutdown, it leaves the handles as the loop of shutdown does; exactly the kitchens alive were told, and all of them have finished |
| Completion.ReceptionIsNeverStuck | src/reception/loadBalancer/LoadBalancer.cpp:156-262 | From every state that arises, some run of kitchens and reception finishes what the reception is doing: dispatch and survey end at rest, shutdown ends closed |
| Completion.EveryoneCanAnswer | src/reception/loadBalancer/LoadBalancer.cpp:181-201 | From the start of every survey some run gets each living kitchen's answer or goodbye, so that the survey can end |
| Announcements.BookEmptyWhenAllDone | src/main.cpp:24-32 | The book is empty iff as many Dones came in as pizzas were ordered, of every type and size; then nothing is refused or in flight |
| Announcements.LastAnnouncementIsRight | src/main.cpp:28-31 | The newest order has been announced exactly when the Dones cover all pizzas ordered so far, of each type and size |
| Announcements.ServedIsAnnounced | src/main.cpp:24-32 | An order whose pizzas, with those of the earlier ones, are covered by Dones has been announced |
| Announcements.PatientOrdersAnnouncedWhenReady | src/main.cpp:21-47 | If nobody orders before the book is empty, order k is announced iff its pizzas and the earlier ones are done |
| Haste.HasteMisleads | src/main.cpp:24-32 | For every number of cooks and any two different pizzas, a run of two orders in which order 1 is announced and no Done for its one pizza has come in |
| Haste.PatienceExactly | src/main.cpp:21-47 | For every limit on the orders pending when another is placed, and every set of pizzas that may be ordered: all announcements of all runs are right iff the limit is 0 or the set has at most one pizza |
| PizzeriaTheorems.DispatchIsAllocation | src/reception/loadBalancer/LoadBalancer.cpp:158-177 | In every reachable state one step of a dispatch is one step of the allocation loop on orderly handles, all of them alive |
| PizzeriaTheorems.DispatchIsOrderly | src/reception/loadBalancer/LoadBalancer.cpp:156-179 | All through a dispatch every handle is alive and within its capacity, ids distinct and below the counter |
| PizzeriaTheorems.ClosedLeavesNobodyRunning | src/reception/loadBalancer/LoadBalancer.cpp:252-262 | After shutdown every kitchen has finished, and only one that timed out by itself has pizzas unread |
| PizzeriaSafety.StepKeepsInv | src/reception/loadBalancer/LoadBalancer.cpp:156-262 | Every step of the system keeps its invariant: links reachable, ids ascending, desk and links agree, pizzas routed, book kept |
| Refinement.DispatchIsFill | src/reception/loadBalancer/LoadBalancer.cpp:156-179 | From every reachable state the allocation can take all its pizzas one by one, whatever came before, and ends with the handles and ids that the loop's function Fill computes |
| Refinement.DrainIsReceived | src/reception/loadBalancer/LoadBalancer.cpp:78-83 | Draining a result queue packet by packet is always possible to its end and leaves handle and history as the drain loop does |
| Refinement.SweepIsErase | src/reception/loadBalancer/LoadBalancer.cpp:245-249 | Erasing dead kitchens from the system is erasing their handles from the vector |
| LinkTheorems.ReceptionLoadAccounted | src/reception/loadBalancer/LoadBalancer.cpp:87-92 | The reception's load = pizzas in the order queue, in the main thread's hand, queued, popped and not announced, and Dones and Fulls unread; it fits the capacity; the load > 0 guards never suppress a decrement |
| LinkTheorems.PoolLoadAccounted | src/kitchen/threadPool/ThreadPool.cpp:22-33 | The pool's load = queued + held by cooks, less the one pushed and not yet counted; at most 2 nCooks; no --_load finds it at zero |
| LinkTheorems.OnlyAcceptanceRaisesLoad | src/kitchen/threadPool/ThreadPool.cpp:22-31 | The pool's load rises at a step exactly if that step is addPizza's count |
| Refusals.RefusalExactly | src/kitchen/KitchenWorker.cpp:74-78 | addPizza refuses iff the cooks between Done and --_load number exactly one more than the free slots the reception sees plus pizzas and answers in the queues; then the reception's load is above nCooks |
| Refusals.SafeLimitExactly | src/reception/loadBalancer/LoadBalancer.cpp:160-176 | No run in which the reception sends only below a limit has a refusal iff the limit is at most nCooks |
| Refusals.RefusalHappens | src/kitchen/threadPool/ThreadPool.cpp:22-31 | For every nCooks, a run in which the kitchen refuses at load nCooks + 1 and nothing was sent at a load above nCooks |
| LinkTheorems.PizzasConserved | src/kitchen/KitchenWorker.cpp:68-85 | For every type and size, pizzas sent to a kitchen = in flight + reported Done + refused |
| LinkTheorems.NoLostWakeup | src/kitchen/threadPool/ThreadPool.cpp:66-81 | While the pool runs and the mutex is free: if any cook sleeps, each queued pizza has a cook on its way to the queue, spurious wakeups included |
| Turns.WorkOff | src/kitchen/KitchenWorker.cpp:40-66 | From every reachable state a kitchen can, by steps of its own, read all its orders or close |
| Turns.ObeyShutdown | src/kitchen/KitchenWorker.cpp:42-66 | A kitchen that was told to shut down can, by steps of its own, send its last packet |
| Turns.EveryStepCounts | src/kitchen/KitchenWorker.cpp:40-111 | In any interleaving, every step of a main thread that has orders to read or a turn to finish lowers a distance, and no step of another thread changes it |
| Turns.CatchesUpInTime | src/kitchen/KitchenWorker.cpp:40-111 | So in any run of a kitchen its main thread has read the orders that were there, or left its loop, within that many steps of its own |
| LinkTheorems.EventKeepsInv | src/kitchen/KitchenWorker.cpp:35-66 | Every event of kitchen or reception keeps the link's whole invariant |
| LinkTheorems.RunKeepsInv | src/kitchen/KitchenWorker.cpp:35-66 | The invariant holds after every run of a fresh kitchen |
| Protocol.TicketIsOrdered | src/kitchen/KitchenWorker.cpp:71-74 | unpack, create and withSize on the way to the pool leave type and size as ordered |
| LinkSafety.EventKeepsFlow | src/kitchen/KitchenWorker.cpp:40-81 | Every event conserves the pizzas of every type and size |
| LinkSafety.StockOutlivesCooks | src/kitchen/cook/Cook.cpp:81-86 | A cook that looks at the stock never finds it closed, so the return without Done is unreachable |
| LinkStatus.EventKeepsStatus | src/kitchen/KitchenWorker.cpp:87-111 | Every event keeps the state of a survey: one request in one place, the report complete and closed by its reply, the snapshot whole |
| Endings.JoinedKitchenIsEmpty | src/kitchen/threadPool/ThreadPool.cpp:58-77 | After the join the queue is empty, the load is zero and no cook holds a pizza |
| Endings.ShutdownIsLastWord | src/kitchen/KitchenWorker.cpp:60-65 | After the kitchen's Shutdown nothing else is ever put on the result queue, and it is the last packet there until read |
| Endings.StrandedAreUnread | src/kitchen/KitchenWorker.cpp:60-65 | When a kitchen has closed, pizzas sent = unread ones + Dones + Fulls; once all is read the reception's load is the unread ones |
| Endings.ShutdownStrandsNothing | src/kitchen/KitchenWorker.cpp:42-48 | A kitchen that leaves its loop because it read Shutdown has an empty order queue, and each pizza sent to it has one Done or one Full |
| Endings.StrandedExactly | src/kitchen/KitchenWorker.cpp:42-54 | For every event and lens, how many pizzas it strands: those unread at the idle timeout, and one for each delivery after it; the number rises at exactly these events and never falls |
| Endings.StrandedIsTheRest | src/kitchen/KitchenWorker.cpp:60-65 | When a kitchen has closed, pizzas sent = stranded + Dones + Fulls, for each type and size |
| Endings.StrandingNeedsTimeout | src/kitchen/KitchenWorker.cpp:50-54 | A closed kitchen with a pizza unread has timed out |
| Endings.QueuesBounded | src/ipc/MessageQueue.cpp:108-114 | An order queue never holds more than 2 nCooks + 1 packets, a result queue never more than 3 nCooks + 2 |
| Snapshots.EventKeepsTrace | src/kitchen/KitchenWorker.cpp:87-111 | From the request on, every event keeps this: each entry gathered, on its way or collected was true at some moment since - each cook's state in the order of the cooks, the load, the whole stock at one moment |
| Snapshots.ReplyIsTrue | src/reception/loadBalancer/LoadBalancer.cpp:119-129 | So the status that the reply completes at the reception is made of such entries |
| Endings.NoStrayStatus | src/kitchen/KitchenWorker.cpp:87-111 | With no survey open there is no status packet in the queues and no entry collected |
| Endings.SurveyShowsEveryCook | src/reception/loadBalancer/LoadBalancer.cpp:101-129 | An answered survey shows every cook once in id order; the capacity is true iff nCooks <= 127, and the load within it then |
| Witnesses.StrandingHappens | src/kitchen/KitchenWorker.cpp:42-54 | Two runs that strand a pizza: one sent between the poll and the timeout, and one sent after a timeout on an empty queue |
| Witnesses.StrandingDespiteShutdown | src/reception/loadBalancer/LoadBalancer.cpp:252-260 | A run in which a kitchen is told to shut down, times out before it reads that, and strands a pizza |
| KitchenSafety.MoveKeepsInv | src/kitchen/threadPool/ThreadPool.cpp:66-87 | Every step of every thread keeps mutexes, load, life cycle, wakeups and stock in order |
| KitchenSafety.DoughDecides | src/kitchen/IngredientStock/IngredientStock.cpp:63-69 | Dough = tomato <= every other ingredient, and any recipe is available exactly if dough is left |
| KitchenSafety.ServingKeepsBalance | src/kitchen/IngredientStock/IngredientStock.cpp:51-53 | Taking one recipe's ingredients keeps stock[i] + pizzas served that use i = 5 + regenerations |
| Progress.StockAccounted | src/kitchen/IngredientStock/IngredientStock.cpp:41-82 | In every reachable state stock[i] = 5 + T - pizzas served that use i, for each i; a cook starves un-notified only if exactly 5 + T pizzas were served |
| Progress.StuckOnlyForDough | src/kitchen/threadPool/ThreadPool.cpp:66-87 | If no cook can move, each sleeps, starves or has left; some pizza is unserved iff some cook starves, and then no dough is left and 5 + T pizzas were served |
| Progress.ProductiveLowersEffort | src/kitchen/threadPool/ThreadPool.cpp:66-87 | Every step of a cook other than a spurious wakeup lowers a measure |
| Progress.CooksComeToRest | src/kitchen/threadPool/ThreadPool.cpp:66-87 | So runs of cooks alone end, within a bound given by the state they start from; for runs with regenerations see Drain |
| Progress.RegenerationsExact | src/kitchen/IngredientStock/IngredientStock.cpp:71-82 | Serving R pizzas takes at least R - dough regenerations in any run, and exactly that or the one already under way, whichever is more, when regeneration starts only while cooks can do nothing and all are served |
| Progress.ServedWereWaiting | src/kitchen/threadPool/ThreadPool.cpp:78-83 | Without new arrivals, pizzas served plus pizzas waiting is constant over a run |
| Progress.DrainNeverStalls | src/kitchen/threadPool/ThreadPool.cpp:58-77 | After stop's broadcast no cook ever sleeps on the queue again; when none can move, either the join can happen or the stock, out of dough, can regenerate |
| Drain.DrainingLowersBound | src/kitchen/threadPool/ThreadPool.cpp:58-87 | Every step of a cook, and every regeneration begun only when cooks can do nothing without it, lowers a measure |
| Drain.DrainIsBounded | src/kitchen/threadPool/ThreadPool.cpp:58-87 | So every run of such steps has no more of them than the measure at its start, whatever pizzas wait and whatever is in stock |
| Drain.DrainedCanJoin | src/kitchen/threadPool/ThreadPool.cpp:58-64 | After stop, where no such step is possible, the join is, and every pizza has been served |
| Drain.DrainEnds | src/kitchen/threadPool/ThreadPool.cpp:58-87 | The drain after stop: runs are bounded, each can be carried on to its end, and there all are served, the join is possible, and there were exactly max(0, R - dough) regenerations, or the one under way at the start |
| Allocation.BestIsBest | src/reception/loadBalancer/LoadBalancer.cpp:160-167 | The loop finds the first of the least loaded living kitchens with room, or there is none |
| Allocation.FillKeepsOrder | src/reception/loadBalancer/LoadBalancer.cpp:156-179 | Loads stay within capacity, ids distinct and below the counter |
| Allocation.FillSendsWhatItCounts | src/reception/loadBalancer/LoadBalancer.cpp:172-176 | q pizzas make q packets, in the order given; each kitchen's load grows by the packets sent to it, the total by q |
| Allocation.SpawnsExactly | src/reception/loadBalancer/LoadBalancer.cpp:168-171 | Kitchens opened = ceil(max(0, q - free) / capacity); if any, all living ones but the newest are full and the newest has 1 to capacity |
| Allocation.FillStaysLevel | src/reception/loadBalancer/LoadBalancer.cpp:158-177 | Without a spawn, a kitchen that got a pizza ends at most one above any living kitchen |
| Allocation.GreedyIsOptimal | src/reception/loadBalancer/LoadBalancer.cpp:158-177 | Without a spawn, the loads cost no more than any other way of adding q pizzas to the same kitchens, for every convex cost |
| Allocation.GreedyEvensOut | src/reception/loadBalancer/LoadBalancer.cpp:158-177 | In particular the sum of squares and the maximum are least |
| Allocation.NobodyGetsTwo | doc/subject.md:135-137 | No more pizzas than equally loaded kitchens with room: none gets two, none is opened |
| Reception.ReceivedMeans | src/reception/loadBalancer/LoadBalancer.cpp:212-233 | After a batch of packets the load is lower by its Dones and Fulls, not below zero; alive iff no Shutdown among them; id and capacity unchanged |
| Reception.LivingExactly | src/reception/loadBalancer/LoadBalancer.cpp:245-249 | Erasing keeps exactly the living handles |
| Reception.ExpandedCounts | src/reception/loadBalancer/LoadBalancer.cpp:158-159 | The order list read pizza by pizza has as many as its quantities add up to |
| Reception.ExpandedAt | src/reception/loadBalancer/LoadBalancer.cpp:158-174 | After the pizzas of the orders before it come as many as an order asks for, each of its type and size |
| Reception.LoadBalancer.HandlePacket | src/reception/loadBalancer/LoadBalancer.cpp:212-233 | One handle changes as the protocol says, the others do not; a Done is passed to the callback |
| Reception.LoadBalancer.Drain | src/reception/loadBalancer/LoadBalancer.cpp:76-83 | Everything the queue yields is handled in order; callback calls are the Dones; says whether a reply was among it |
| Reception.LoadBalancer.UpdateKitchens | src/reception/loadBalancer/LoadBalancer.cpp:235-250 | Living kitchens are drained, the dead erased in order, each kitchen's Dones called out and no others |
| Reception.LoadBalancer.EraseDead | src/reception/loadBalancer/LoadBalancer.cpp:245-249 | The vector keeps its living handles, in order |
| Reception.LoadBalancer.SelectKitchen | src/reception/loadBalancer/LoadBalancer.cpp:160-167 | The first least loaded living kitchen with room, and none only if there is none |
| Reception.LoadBalancer.SpawnKitchen | src/reception/loadBalancer/LoadBalancer.cpp:22-50 | A new last handle with the next id, which its status carries too, no load and capacity 2 nCooks |
| Reception.LoadBalancer.Allocate | src/reception/loadBalancer/LoadBalancer.cpp:160-176 | One pizza placed: handles, id counter and packets sent as the allocation function says |
| Reception.LoadBalancer.Dispatch | src/reception/loadBalancer/LoadBalancer.cpp:156-179 | After the update, the nested loops do to handles, ids and packets what Fill does for the pizzas one by one |
| Reception.LoadBalancer.RequestStatusForAll | src/reception/loadBalancer/LoadBalancer.cpp:55-66 | Each living kitchen is asked once and its collected entries dropped; their ids are returned in order |
| Reception.LoadBalancer.ProcessPendingKitchen | src/reception/loadBalancer/LoadBalancer.cpp:68-85 | The kitchen of that id takes the batch; removed iff unknown, dead, or the batch holds its reply or its Shutdown |
| Reception.LoadBalancer.PollPending | src/reception/loadBalancer/LoadBalancer.cpp:186-197 | One round: who answers leaves the list, who does not stays, and each kitchen has heard exactly its packets so far |
| Reception.LoadBalancer.GetStatus | src/reception/loadBalancer/LoadBalancer.cpp:181-210 | Whatever the queues yield in however many rounds: a result iff no living kitchen is quiet in all of them; each handle has taken its packets up to the round of its answer and none after, Dones called out; the result has one entry for each kitchen alive then, its status, at the place given by the number of living kitchens before it |
| Reception.ListsOfTheLiving | src/reception/loadBalancer/LoadBalancer.cpp:55-66 | Statuses, ids, requests, dismissals and kept handles: one entry for each living handle, of that handle, in their order |
| Reception.LoadBalancer.Shutdown | src/reception/loadBalancer/LoadBalancer.cpp:252-262 | Each living kitchen gets one Shutdown and every handle is dead |
| CookPool.ThreadPool.AddPizza | src/kitchen/threadPool/ThreadPool.cpp:22-31 | Accepts iff below capacity; then queue and notifications grow by one and the load by one less the cooks that settle between the statements; the pool ends as the machine's moves leave it |
| CookPool.ThreadPool.TakeNext | src/kitchen/threadPool/ThreadPool.cpp:66-81 | A cook takes the oldest accepted pizza, sleeps, or leaves exactly when stopped and empty; as the machine's move |
| CookPool.ThreadPool.Settle | src/kitchen/threadPool/ThreadPool.cpp:85 | The decrement is exact, because some taken pizza has not been settled |
| CookPool.ThreadPool.Stop | src/kitchen/threadPool/ThreadPool.cpp:58-64 | Running cleared and one broadcast, the queue untouched |
| Shelf.AvailableSufficesIffDistinct | src/kitchen/IngredientStock/IngredientStock.cpp:63-69 | The availability test rules out underflow for every stock iff the recipe names no ingredient twice |
| Shelf.UnderflowExactly | src/kitchen/IngredientStock/IngredientStock.cpp:51-53 | After the decrements a counter is the difference if there was enough, and has wrapped around to above its start if not |
| Shelf.IngredientStock.AllInStock | src/kitchen/IngredientStock/IngredientStock.cpp:63-69 | True iff every needed ingredient is known and above zero |
| Shelf.IngredientStock.TryConsume | src/kitchen/IngredientStock/IngredientStock.cpp:41-56 | Closed, must wait, or taken - each exactly when; taken decrements once per mention and equals one unit less of each for recipes without repetition |
| Shelf.IngredientStock.WaitAndConsume | src/kitchen/IngredientStock/IngredientStock.cpp:41-56 | Whatever other threads do to the stock between the wakeups: consumes at the first moment with everything there, false at the first moment closed, whichever comes first, and otherwise still waits; touches nothing before |
| Shelf.IngredientStock.Serve | src/kitchen/cook/Cook.cpp:81-86 | A cook's look at the stock with a built-in recipe does what the machine's move does |
| Shelf.IngredientStock.Regenerate | src/kitchen/IngredientStock/IngredientStock.cpp:71-82 | One unit more of each ingredient and one broadcast, or nothing once closed |
| Cooking.CookThread.CookPizza | src/kitchen/cook/Cook.cpp:71-102 | One Done of the recipe's type and size iff no exception and the ingredients were taken; idle again unless still waiting; the stock, shared with others, changes only as the wait says, and not at all on an exception; with a recipe that needs what the kind needs, shelf and state end as the machine's StockTry and Clear leave them |
| Cooking.LookAgrees | src/kitchen/cook/Cook.cpp:81-100 | For every kitchen of the machine whose cook takes the same look at the stock: same shelf, same outcome, and busy afterwards iff it must wait |
| Clock.TimeoutMeansIdle | src/kitchen/KitchenWorker.cpp:50-57 | In every run by the clock that ends with a timeout, the pool's load was zero in every state, and nothing was accepted, for five seconds less one period |
| Clock.TimeoutIsPrompt | src/kitchen/KitchenWorker.cpp:50-57 | The timeout comes five seconds or more after the last activity, and less than one period later |
| Clock.OpenIsRecentlyActive | src/kitchen/KitchenWorker.cpp:50-58 | A kitchen still in its loop, whose next check is not overdue, was active less than five seconds and a period ago |
| Punctual.SentInTimeIsRead | src/kitchen/KitchenWorker.cpp:40-54 | In every run by the clock, a pizza sent a period for each packet ahead of it and one more before the timeout can expire is read before the kitchen leaves its loop, and no later than a period after that |
| Punctual.EarlyIsInTime | src/kitchen/KitchenWorker.cpp:37-54 | Every pizza sent in the first five seconds of a kitchen's life, less 2 nCooks + 1 periods, is sent in time |
| Punctual.OnTheDotIsTooLate | src/kitchen/KitchenWorker.cpp:50-54 | For every period, a run that strands a pizza for which that time ends at the very moment the timeout can expire |
| MainThread.LoopIsMainThread | src/kitchen/KitchenWorker.cpp:35-66 | In every run by the clock, at the end of every turn, the machine's main thread and the loop below agree: on the time of activity, on every packet said, and on whether, when and why the loop is left |
| KitchenLoop.TimeoutMeansQuiet | src/kitchen/KitchenWorker.cpp:50-57 | On the turns alone: a timeout means no load found at a check and no pizza accepted for five seconds less one period |
| KitchenLoop.ClosesInTime | src/kitchen/KitchenWorker.cpp:50-57 | Without activity a kitchen leaves at the first check five seconds or more after the last, less than one period late |
| KitchenLoop.KitchenWorker.HandlePacket | src/kitchen/KitchenWorker.cpp:68-85 | Full with the same pizza iff there was no room, else the time of activity; a report to a request; nothing else. Whether there was room is the pool's, in the turn as MainThread ties it |
| KitchenLoop.KitchenWorker.SendStatusResponse | src/kitchen/KitchenWorker.cpp:87-111 | One entry per cook in order, then the reply, of what was sampled; MainThread ties the sample to the machine |
| KitchenLoop.KitchenWorker.Run | src/kitchen/KitchenWorker.cpp:35-66 | Leaves at the first turn with a Shutdown or an expired timeout; says what the turns call for, and Shutdown last; MainThread ties the turns to the machine |
| Menu.WireRoundTrip | src/ipc/PizzaSerializer.cpp:13-42 | A byte pair decodes to a pizza iff it is that pizza's encoding; the codes are the published 1, 2, 4, 8 and 16 |
| Menu.BuiltinRecipesResolve | doc/subject.md:167-170 | Built-in recipes name known ingredients, none twice; contents and seconds are the published ones |
| Menu.EveryNameResolves | src/kitchen/IngredientStock/IngredientStock.hpp:42-52 | The nine published names resolve to the nine ingredients |
| Menu.ToIngredients | src/kitchen/cook/Cook.cpp:36-44 | Every name resolved in order, or failure iff one is unknown |
| Menu.PizzaFactory.RegisterPizza | src/pizza/factory/PizzaFactory.cpp:46-53 | A kind registered before keeps its recipe; otherwise it gets this one, whatever its own type; other kinds unchanged |
| Menu.PizzaFactory.RegisterBuiltinPizzas | src/pizza/factory/PizzaFactory.cpp:20-43 | Done once; earlier registrations stay, missing kinds get the built-in recipe |
| Menu.PizzaFactory.Create | src/pizza/factory/PizzaFactory.cpp:55-64 | Never fails; ingredients and seconds are those registered for that kind, the size the one asked for; without a registration of one's own, they are what the kind needs and as published |
| Orders.AnnouncedOnItsLastDone | src/main.cpp:24-32 | In any consistent book, the next Done announces order k exactly if it is number q1+...+qk |
| Orders.AnnouncedWhenCounted | src/main.cpp:24-32 | Announced orders are 1, 2, 3, ..., and k is one of them iff q1+...+qk Dones have come |
| Orders.OutstandingIsRest | src/main.cpp:38-46 | What is pending plus what is done is what was entered |
| Orders.CastIsExactBelowLimit | src/main.cpp:39-42 | The int that a whole order becomes is never above its quantity, and equals it iff that is below 2^31 |
| Orders.OrderDesk.PlaceOrder | src/main.cpp:38-45 | Whatever the quantities, the running int total ends as the cast of their sum; if positive it is entered under the next id, and otherwise nothing is |
| Orders.OrderDesk.PizzaDone | src/main.cpp:24-32 | The oldest order waits for one less and is announced and removed at zero |
| Parser.ParserIsExact | src/parser/Parser.cpp:32-67 | A line gives these orders iff its pieces between semicolons, an empty last one included, each print their order |
| Parser.RoundTrip | src/parser/Parser.cpp:32-67 | Every non-empty list of orders, printed in any letter case with any blanks and quantities from 1 to 2^64 - 1, is read back |
| Complaints.InvalidTokenExactly | src/parser/Parser.cpp:54-61 | A piece is an invalid token iff it is not letters, a size and a number with spacing around them |
| Complaints.OtherComplaints | src/parser/Parser.cpp:62-67 | A piece of that shape is refused only because its letters spell no pizza's name, or else because its number does not fit in 64 bits, and is told which token that is |
| Complaints.FirstComplaint | src/parser/Parser.cpp:32-52 | A line is refused with a complaint iff that is the one of its first piece that prints no order; a trailing semicolon and an empty line have their own |
| Complaints.PublishedExample | doc/subject.md:71 | The requirements' own example, its last number completed, gives its three orders |
| Complaints.AnotherExample | src/parser/Parser.cpp:18-25 | The name and sizes that example leaves out are read in capitals, small letters and a mixture |
| Parser.Parse | src/parser/Parser.cpp:32-52 | The getline loop with its separate look at the line's end computes the outcome of all pieces or the first error |
| Parser.LastIsSemicolon | src/parser/Parser.cpp:37-40 | Whether the last character other than blanks is a semicolon |
| Parser.PrintedIsParsed | src/parser/Parser.cpp:54-67 | Every printed order is read back from its piece |
| Parser.ParsedIsPrinted | src/parser/Parser.cpp:54-67 | Every piece that is read prints the order read |
| Parser.NameFoundWhole | src/parser/Parser.cpp:55-57 | The shortest type that lets the rest match is the whole pizza name, although shorter ones are tried first |
| Parser.RestFound | src/parser/Parser.cpp:55-57 | There is one way to read what follows the type, and the match finds it |
| Parser.NumberIsDecimal | src/parser/Parser.cpp:110-132 | A quantity token denotes n iff it is an x and n in decimal without leading zero, 1 <= n < 2^64 |
| Parser.ParseNumber | src/parser/Parser.cpp:110-132 | The index loop accepts and rejects as specified; each of the three complaints is made exactly of the tokens that deserve it |

## Left out

- MessageQueue as System V code: keys, anchor files, stale queues, failed calls. A queue is a FIFO sequence; `QueuesBounded` says how long it gets.
- Mutex, ConditionVariable, Thread and Process as wrappers of pthread and fork: locks, sleep sets and joins are modelled, failures and std::terminate are not.
- Display, Logger and the select loop of Shell: only the callbacks they trigger are steps of the system.
- Real cooking and regeneration times: baking and regenerating are steps that may come at any time, in runs by the clock too.
- The pool's implicit destructor: members are declared in an order (src/kitchen/threadPool/ThreadPool.hpp:46-49) that destroys queue, mutex and condition variable before the threads are joined; the model joins first, as evidently meant.
- The pizza name, type and size in a cook's status entry: an entry here is an id and busy or idle. What a cook puts in those fields is in `CookThread`.
- The pizza names that the reception looks up for its log and display when a Done or a cook's entry comes in.
- std::regex: the one pattern is a search from the shortest type on, with the rest matched greedily; `Parser.RestFound` shows that there is nothing to backtrack to. Characters are 7-bit.
- Shell::handleLine: trimming and the status command in front of the parser.
- Recipes added to the registry from outside the factory: the kitchen machine uses the built-in ones. `Shelf.AvailableSufficesIffDistinct` says what such a recipe must be like.
- Integer overflow of counters that only grow: ids, stock, announced orders.
- Orders of 2^31 pizzas or more in the whole system: a step of `Pizzeria` enters an order with all its pizzas. What the callback does with them is in `Orders.OrderDesk.PlaceOrder`.
- Pizzeria.Step: the drain loop of updateKitchens may stop early there, which allows more runs than the code has; `Reception.LoadBalancer.UpdateKitchens` has the loop itself.
- Reception.LoadBalancer.GetStatus: polls as many rounds as it is given, where the code polls until everyone has answered. `Completion.EveryoneCanAnswer` shows that everyone can; a scheduler that starves a kitchen for ever is not excluded, in the code or here.
- KitchenLoop.KitchenWorker.Run: its turns are given in advance; `MainThread.LoopIsMainThread` shows that the turns of every run of the machine, by the clock, make it do what the machine's main thread does.
- Shelf.IngredientStock.WaitAndConsume: the wakeups are given in advance, each with the stock as other threads have left it. The wait has no end of its own; that regeneration ends it is in `Drain`.
