/** What every event on a link keeps, and what follows for all its runs. */
module LinkSafety {
  import opened Menu
  import opened Sums
  import opened Kitchen
  import opened KitchenSafety
  import opened Protocol

  // --------------------------------------------------------- the kitchen part

  predicate Unlocked(w: Worker) {
    w.InLoop() && !w.HoldsLock()
  }

  lemma SwapWorker(k: Kitchen, w: Worker)
    requires KitchenInv(k) && Unlocked(k.worker) && Unlocked(w)
    ensures KitchenInv(WithWorker(k, w))
  {
  }

  lemma GoodbyeKeepsKitchen(k: Kitchen)
    requires KitchenInv(k) && k.worker.Farewell?
    ensures KitchenInv(WithWorker(k, Finished))
  {
  }

  lemma AnnounceKeepsKitchen(k: Kitchen, i: nat)
    requires KitchenInv(k) && i < |k.cooks| && k.cooks[i].Baking?
    ensures KitchenInv(k.(cooks := k.cooks[i := Announced(k.cooks[i].pizza)]))
  {
    hide Balanced;
    SumUpdate(k.cooks, i, Announced(k.cooks[i].pizza), Held);
    SumUpdate(k.cooks, i, Announced(k.cooks[i].pizza), Heading);
  }

  lemma EventKeepsKitchen(l: Link, e: Event)
    requires KitchenInv(l.k) && Enabled(l, e)
    ensures KitchenInv(Next(l, e).k)
  {
    hide KitchenInv, Can, Do;
    match e
    case Inside(m) => MoveKeepsInv(l.k, m);
    case Poll => SwapWorker(l.k, Polled(l.k, l.orders));
    case Refuse => SwapWorker(l.k, IdleCheck(false));
    case SendCook => SwapWorker(l.k, l.k.worker.(todo := l.k.worker.todo[1..]));
    case SendReply => SwapWorker(l.k, IdleCheck(false));
    case Announce(i) => AnnounceKeepsKitchen(l.k, i);
    case Goodbye => GoodbyeKeepsKitchen(l.k);
    case _ =>
  }

  // ------------------------------------------------------------- conservation

  /** What is being counted: all pizzas, or those of one type and size. */
  datatype Lens = All | Just(pizza: Pizza)

  ghost function Seen(q: Lens, p: Pizza): nat {
    if q.All? || q.pizza == p then 1 else 0
  }

  ghost function Each(q: Lens): Pizza -> nat {
    (p: Pizza) => Seen(q, p)
  }

  ghost function PizzaIn(q: Lens): Packet -> nat {
    (p: Packet) => if p.PizzaPkt? then Seen(q, Read(p.slip)) else 0
  }

  ghost function DoneIn(q: Lens): Packet -> nat {
    (p: Packet) => if p.DonePkt? then Seen(q, Read(p.slip)) else 0
  }

  ghost function FullIn(q: Lens): Packet -> nat {
    (p: Packet) => if p.FullPkt? then Seen(q, Read(p.slip)) else 0
  }

  /** The pizza of a cook who has popped one and not yet sent Done for it. */
  ghost function Undone(q: Lens): Cook -> nat {
    (c: Cook) =>
      if c.Fetched? || c.AtStock? || c.Tasting? || c.Starved? || c.Fed? || c.Baking? then Seen(q, c.pizza) else 0
  }

  /** The pizza the main thread has received and neither pushed nor refused yet. */
  ghost function InHand(q: Lens, w: Worker): nat {
    if w.Adding? || w.AddTesting? || w.AddPushing? || w.Refusing? then Seen(q, w.pizza) else 0
  }

  /** The pizzas the kitchen has taken from its order queue and not yet answered for. */
  ghost function InKitchen(q: Lens, k: Kitchen): nat {
    InHand(q, k.worker) + Sum(k.pool.queue, Each(q)) + Sum(k.cooks, Undone(q))
  }

  ghost function InFlight(q: Lens, l: Link): nat {
    Sum(l.orders, PizzaIn(q)) + InKitchen(q, l.k) + Sum(l.results, DoneIn(q)) + Sum(l.results, FullIn(q))
  }

  ghost predicate Conserved(q: Lens, l: Link) {
    Sum(l.log.sent, Each(q)) == InFlight(q, l) + Sum(l.log.done, Each(q)) + Sum(l.log.full, Each(q))
  }

  /** The reception's count is what it sent minus what it heard back about. */
  ghost predicate Counted(l: Link) {
    && l.h.load + |l.log.done| + |l.log.full| == |l.log.sent|
    && l.h.load <= l.h.capacity == Capacity(l.k)
  }

  lemma PushMovesNoPizza(k: Kitchen, q: Lens)
    requires CanWork(k, AddPush)
    ensures InKitchen(q, Work(k, AddPush)) == InKitchen(q, k)
  {
    SumAppend(k.pool.queue, k.worker.pizza, Each(q));
  }

  lemma QuietMovesNoPizza(k: Kitchen, m: Move, q: Lens)
    requires !m.OfCook() && !m.AddPush? && !Wakes(m) && CanWork(k, m)
    ensures InKitchen(q, Work(k, m)) == InKitchen(q, k)
  {
    assert Work(k, m).cooks == k.cooks;
  }

  lemma WakingMovesNoPizza(k: Kitchen, m: Move, q: Lens)
    requires Wakes(m) && CanWork(k, m)
    ensures InKitchen(q, Work(k, m)) == InKitchen(q, k)
  {
    WakingKeepsPizzas(k.cooks, q);
    hide WakeAll, FeedAll, Regenerated, Slumber;
    if m.AddNotify? && m.woken.Some? {
      SumUpdate(k.cooks, m.woken.value, Woken, Undone(q));
    }
  }

  lemma WakingKeepsPizzas(cooks: seq<Cook>, q: Lens)
    ensures Sum(WakeAll(cooks), Undone(q)) == Sum(cooks, Undone(q)) == Sum(FeedAll(cooks), Undone(q))
  {
    SumSame(cooks, WakeAll(cooks), Undone(q));
    SumSame(cooks, FeedAll(cooks), Undone(q));
  }

  /** One cook's state changes, and the queue or not. */
  lemma CookKeepsPizzas(k: Kitchen, k': Kitchen, i: nat, q: Lens)
    requires i < |k.cooks| && i < |k'.cooks| && k'.worker == k.worker && k'.cooks == k.cooks[i := k'.cooks[i]]
    requires Sum(k'.pool.queue, Each(q)) + Undone(q)(k'.cooks[i]) == Sum(k.pool.queue, Each(q)) + Undone(q)(k.cooks[i])
    ensures InKitchen(q, k') == InKitchen(q, k)
  {
    hide Undone, Each, InHand;
    SumUpdate(k.cooks, i, k'.cooks[i], Undone(q));
  }

  lemma CookMovesNoPizza(k: Kitchen, m: Move, q: Lens)
    requires (k.pantry.open || !m.StockTry?) && m.OfCook() && CanCook(k, m)
    ensures InKitchen(q, DoCook(k, m)) == InKitchen(q, k)
  {
    hide AllAvailable, Needs, Without, InKitchen, Sum;
    if m.CookCheck? && k.pool.queue != [] {
      SumTail(k.pool.queue, Each(q));
    }
    CookKeepsPizzas(k, DoCook(k, m), m.i, q);
  }

  /** A cook who tests the stock finds it open: the return without a Done is never taken. */
  lemma StockOutlivesCooks(k: Kitchen, i: nat)
    requires KitchenInv(k) && CanCook(k, StockTry(i))
    ensures k.pantry.open
  {
  }

  lemma InsideMovesNoPizza(k: Kitchen, m: Move, q: Lens)
    requires KitchenInv(k) && Can(k, m)
    ensures InKitchen(q, Do(k, m)) == InKitchen(q, k)
  {
    hide KitchenInv, InKitchen, CanCook, CanWork, DoCook, Work;
    if m.StockTry? {
      StockOutlivesCooks(k, m.i);
    }
    if m.OfCook() {
      CookMovesNoPizza(k, m, q);
    } else if m.AddPush? {
      PushMovesNoPizza(k, q);
    } else if Wakes(m) {
      WakingMovesNoPizza(k, m, q);
    } else {
      QuietMovesNoPizza(k, m, q);
    }
  }

  lemma PollKeepsFlow(l: Link, q: Lens)
    requires Conserved(q, l) && Enabled(l, Poll)
    ensures Conserved(q, Next(l, Poll))
  {
    var w := Polled(l.k, l.orders);
    if l.orders == [] {
      PolledKeepsFlow(l, w, [], q);
    } else {
      SumTail(l.orders, PizzaIn(q));
      if l.orders[0].PizzaPkt? { TicketIsOrdered(l.orders[0].slip); }
      PolledKeepsFlow(l, w, l.orders[1..], q);
    }
    hide Conserved;
  }

  lemma PolledKeepsFlow(l: Link, w: Worker, rest: seq<Packet>, q: Lens)
    requires Conserved(q, l) && l.k.worker.Polling?
    requires Sum(rest, PizzaIn(q)) + InHand(q, w) == Sum(l.orders, PizzaIn(q))
    ensures Conserved(q, l.(k := WithWorker(l.k, w), orders := rest))
  {
    hide PizzaIn, DoneIn, FullIn, Each, Undone;
  }

  lemma SendingOne(l: Link, q: Lens, p: Packet)
    ensures Sum(l.results + [p], DoneIn(q)) == Sum(l.results, DoneIn(q)) + DoneIn(q)(p)
    ensures Sum(l.results + [p], FullIn(q)) == Sum(l.results, FullIn(q)) + FullIn(q)(p)
  {
    SumAppend(l.results, p, DoneIn(q));
    SumAppend(l.results, p, FullIn(q));
  }

  lemma AnnounceKeepsFlow(l: Link, i: nat, q: Lens)
    requires Conserved(q, l) && Enabled(l, Announce(i))
    ensures Conserved(q, Next(l, Announce(i)))
  {
    SumUpdate(l.k.cooks, i, Announced(l.k.cooks[i].pizza), Undone(q));
    SendingOne(l, q, DonePkt(Pack(l.k.cooks[i].pizza)));
  }

  /** The main thread sends a packet; a pizza it refuses it no longer has in hand. */
  lemma PacketKeepsFlow(l: Link, w: Worker, p: Packet, q: Lens)
    requires Conserved(q, l)
    requires InHand(q, w) + DoneIn(q)(p) + FullIn(q)(p) == InHand(q, l.k.worker)
    ensures Conserved(q, l.(k := WithWorker(l.k, w), results := l.results + [p]))
  {
    hide InHand, DoneIn, FullIn, PizzaIn, Each, Undone;
    SendingOne(l, q, p);
  }

  lemma RefuseKeepsFlow(l: Link, q: Lens)
    requires Conserved(q, l) && Enabled(l, Refuse)
    ensures Conserved(q, Next(l, Refuse))
  {
    hide Conserved;
    PacketKeepsFlow(l, IdleCheck(false), FullPkt(Pack(l.k.worker.pizza)), q);
  }

  lemma SendCookKeepsFlow(l: Link, q: Lens)
    requires Conserved(q, l) && Enabled(l, SendCook)
    ensures Conserved(q, Next(l, SendCook))
  {
    hide Conserved;
    PacketKeepsFlow(l, l.k.worker.(todo := l.k.worker.todo[1..]), CookPkt(l.k.worker.todo[0]), q);
  }

  lemma SendReplyKeepsFlow(l: Link, q: Lens)
    requires Conserved(q, l) && Enabled(l, SendReply)
    ensures Conserved(q, Next(l, SendReply))
  {
    hide Conserved, NarrowStock;
    PacketKeepsFlow(l, IdleCheck(false), Next(l, SendReply).results[|l.results|], q);
  }

  lemma GoodbyeKeepsFlow(l: Link, q: Lens)
    requires Conserved(q, l) && Enabled(l, Goodbye)
    ensures Conserved(q, Next(l, Goodbye))
  {
    hide Conserved;
    PacketKeepsFlow(l, Finished, ShutdownPkt, q);
  }

  lemma NotedAnswers(log: Log, p: Packet, q: Lens)
    ensures Noted(log, p).sent == log.sent
    ensures Sum(Noted(log, p).done, Each(q)) == Sum(log.done, Each(q)) + DoneIn(q)(p)
    ensures Sum(Noted(log, p).full, Each(q)) == Sum(log.full, Each(q)) + FullIn(q)(p)
  {
    if p.DonePkt? {
      SumAppend(log.done, Read(p.slip), Each(q));
    } else if p.FullPkt? {
      SumAppend(log.full, Read(p.slip), Each(q));
    }
  }

  lemma ReceiveKeepsFlow(l: Link, q: Lens)
    requires Conserved(q, l) && Enabled(l, Receive)
    ensures Conserved(q, Next(l, Receive))
  {
    hide Handled, InKitchen, Noted, Each, DoneIn, FullIn;
    SumTail(l.results, DoneIn(q));
    SumTail(l.results, FullIn(q));
    NotedAnswers(l.log, l.results[0], q);
  }

  /** The reception sends a packet; if it is a pizza, then one more has been sent. */
  lemma OrderKeepsFlow(l: Link, l': Link, p: Packet, q: Lens)
    requires Conserved(q, l) && l'.k == l.k && l'.results == l.results && l'.orders == l.orders + [p]
    requires l'.log.done == l.log.done && l'.log.full == l.log.full
    requires Sum(l'.log.sent, Each(q)) == Sum(l.log.sent, Each(q)) + PizzaIn(q)(p)
    ensures Conserved(q, l')
  {
    hide InKitchen, DoneIn, FullIn, PizzaIn, Each;
    SumAppend(l.orders, p, PizzaIn(q));
  }

  lemma DeliverKeepsFlow(l: Link, pizza: Pizza, q: Lens)
    requires Conserved(q, l) && Enabled(l, Deliver(pizza))
    ensures Conserved(q, Next(l, Deliver(pizza)))
  {
    hide Conserved;
    SumAppend(l.log.sent, pizza, Each(q));
    OrderKeepsFlow(l, Next(l, Deliver(pizza)), PizzaPkt(Pack(pizza)), q);
  }

  lemma AskKeepsFlow(l: Link, q: Lens)
    requires Conserved(q, l) && Enabled(l, Ask)
    ensures Conserved(q, Next(l, Ask))
  {
    hide Conserved;
    OrderKeepsFlow(l, Next(l, Ask), StatusRequestPkt, q);
  }

  lemma QuitKeepsFlow(l: Link, q: Lens)
    requires Conserved(q, l) && Enabled(l, Quit)
    ensures Conserved(q, Next(l, Quit))
  {
    hide Conserved;
    OrderKeepsFlow(l, Next(l, Quit), ShutdownPkt, q);
  }

  lemma ReapKeepsFlow(l: Link, q: Lens)
    requires Conserved(q, l) && Enabled(l, Reap)
    ensures Conserved(q, Next(l, Reap))
  {
    hide InKitchen;
  }

  lemma EventKeepsFlow(l: Link, e: Event, q: Lens)
    requires KitchenInv(l.k) && Conserved(q, l) && Enabled(l, e)
    ensures Conserved(q, Next(l, e))
  {
    match e
    case Inside(m) =>
      InsideMovesNoPizza(l.k, m, q);
      hide KitchenInv, InKitchen, Do;
    case Poll => hide *; PollKeepsFlow(l, q);
    case Announce(i) => hide *; AnnounceKeepsFlow(l, i, q);
    case Receive => hide *; ReceiveKeepsFlow(l, q);
    case Refuse => hide *; RefuseKeepsFlow(l, q);
    case SendCook => hide *; SendCookKeepsFlow(l, q);
    case SendReply => hide *; SendReplyKeepsFlow(l, q);
    case Goodbye => hide *; GoodbyeKeepsFlow(l, q);
    case Deliver(pizza) => hide *; DeliverKeepsFlow(l, pizza, q);
    case Ask => hide *; AskKeepsFlow(l, q);
    case Quit => hide *; QuitKeepsFlow(l, q);
    case Reap => hide *; ReapKeepsFlow(l, q);
  }

  // ------------------------------------------------------------------- counts

  lemma {:induction false} EveryPizzaSeen(s: seq<Pizza>)
    ensures Sum(s, Each(All)) == |s|
  {
    if s != [] {
      EveryPizzaSeen(s[..|s| - 1]);
    }
  }

  /**
   The reception's count, accounted for: pizzas on their way in, in the kitchen,
   and answers on their way back.
   */
  lemma LoadExact(l: Link)
    requires Conserved(All, l) && Counted(l)
    ensures l.h.load == InFlight(All, l)
  {
    hide InFlight;
    EveryPizzaSeen(l.log.sent);
    EveryPizzaSeen(l.log.done);
    EveryPizzaSeen(l.log.full);
  }

  /** The guard `load > 0` never suppresses a decrement. */
  lemma AnswerFindsLoad(l: Link)
    requires Conserved(All, l) && Counted(l) && l.results != []
    requires l.results[0].DonePkt? || l.results[0].FullPkt?
    ensures l.h.load > 0
  {
    LoadExact(l);
    SumMember(l.results, 0, DoneIn(All));
    SumMember(l.results, 0, FullIn(All));
  }

  lemma EventKeepsCount(l: Link, e: Event)
    requires Conserved(All, l) && Counted(l) && Enabled(l, e) && |Next(l, e).k.cooks| == |l.k.cooks|
    ensures Counted(Next(l, e))
  {
    if e.Receive? && (l.results[0].DonePkt? || l.results[0].FullPkt?) {
      AnswerFindsLoad(l);
    }
    hide Conserved, Do, Can, Polled, NarrowStock;
  }
}
