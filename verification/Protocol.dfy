/**
 The reception's side of one kitchen joined to the kitchen itself by two FIFO queues.
 An event is one step of the kitchen, or one action of the reception on this kitchen.
 */
module Protocol {
  import opened Menu
  import opened Kitchen

  datatype Packet =
    | PizzaPkt(slip: Slip)
    | DonePkt(slip: Slip)
    | FullPkt(slip: Slip)
    | StatusRequestPkt
    | CookPkt(report: CookReport)
    | StatusReplyPkt(load: byte, capacity: byte, stock: Stock)
    | ShutdownPkt

  datatype KitchenStatus = KitchenStatus(id: nat, load: nat, capacity: nat, cooks: seq<CookReport>, stock: Option<Stock>)

  datatype Handle = Handle(id: nat, load: nat, capacity: nat, alive: bool,
                           status: KitchenStatus, pendingCooks: seq<CookReport>)

  function NewHandle(id: nat, nCooks: nat): Handle {
    Handle(id, 0, 2 * nCooks, true, KitchenStatus(id, 0, 2 * nCooks, [], None), [])
  }

  /** `if (load > 0) --load` */
  function Lowered(h: Handle): Handle {
    if h.load > 0 then h.(load := h.load - 1) else h
  }

  /** What the reception makes of one packet from a kitchen. */
  function Handled(h: Handle, p: Packet): Handle {
    match p
    case DonePkt(_) => Lowered(h)
    case FullPkt(_) => Lowered(h)
    case CookPkt(report) => h.(pendingCooks := h.pendingCooks + [report])
    case StatusReplyPkt(load, capacity, stock) =>
      h.(status := KitchenStatus(h.status.id, load as nat, capacity as nat, h.pendingCooks, Some(stock)),
         pendingCooks := [])
    case ShutdownPkt => h.(alive := false)
    case _ => h
  }

  /** A count squeezed into one byte. */
  function Narrow(count: nat): byte {
    (count % 256) as byte
  }

  /** Shelf quantities squeezed into 32 bits. */
  function NarrowStock(stock: Stock): Stock {
    map x | x in stock :: stock[x] % 0x1_0000_0000
  }

  /** The (type, size) a cook gets to see: the slip unpacked, its recipe created and resized. */
  function Ticket(slip: Slip): Pizza {
    var ordered := Read(slip);
    var recipe := Builtin(ordered.kind).WithSize(ordered.size);
    Pizza(recipe.kind, recipe.size)
  }

  lemma TicketIsOrdered(slip: Slip)
    ensures Ticket(slip) == Read(slip)
  {
    match Read(slip).kind case Regina => case Margarita => case Americana => case Fantasia =>
  }

  /**
   History: the pizzas sent to this kitchen, and those that came back as Done or Full;
   whether a status request is unanswered, whether one was ever made, and whether
   the reception has sent Shutdown.
   */
  datatype Log = Log(sent: seq<Pizza>, done: seq<Pizza>, full: seq<Pizza>,
                     asked: bool, everAsked: bool, quit: bool)

  datatype Link = Link(h: Handle, orders: seq<Packet>, results: seq<Packet>, k: Kitchen, log: Log)

  function NewLink(id: nat, nCooks: nat): Link {
    Link(NewHandle(id, nCooks), [], [], NewKitchen(nCooks),
         Log([], [], [], false, false, false))
  }

  datatype Event =
    | Inside(m: Move)
    | Poll | Refuse | SendCook | SendReply | Announce(i: nat) | Goodbye
    | Deliver(pizza: Pizza) | Ask | Quit | Receive | Reap

  predicate Enabled(l: Link, e: Event) {
    match e
    case Inside(m) => Can(l.k, m)
    case Poll => l.k.worker.Polling?
    case Refuse => l.k.worker.Refusing?
    case SendCook => l.k.worker.Sending? && l.k.worker.todo != []
    case SendReply => l.k.worker.Sending? && l.k.worker.todo == []
    case Announce(i) => i < |l.k.cooks| && l.k.cooks[i].Baking?
    case Goodbye => l.k.worker.Farewell?
    case Deliver(_) => l.h.alive && !l.log.quit && l.h.load < l.h.capacity
    case Ask => l.h.alive && !l.log.quit && !l.log.asked
    case Quit => l.h.alive && !l.log.quit && !l.log.asked
    case Receive => l.h.alive && !l.log.quit && l.results != []
    case Reap => l.h.alive && l.log.quit && l.k.worker.Finished?
  }

  /** The main thread after taking one packet, if there is one, from its order queue. */
  function Polled(k: Kitchen, orders: seq<Packet>): Worker {
    if orders == [] then IdleCheck(false)
    else
      match orders[0]
      case PizzaPkt(slip) => Adding(Ticket(slip))
      case StatusRequestPkt => Replying
      case ShutdownPkt => IdleCheck(true)
      case _ => IdleCheck(false)
  }

  function WithWorker(k: Kitchen, worker: Worker): Kitchen {
    k.(worker := worker)
  }

  /** History after the reception has taken a packet. */
  function Noted(log: Log, p: Packet): Log {
    match p
    case DonePkt(slip) => log.(done := log.done + [Read(slip)])
    case FullPkt(slip) => log.(full := log.full + [Read(slip)])
    case StatusReplyPkt(_, _, _) => log.(asked := false)
    case _ => log
  }

  // The reception's actions, as it performs them whether or not the link is fit for them.

  function Delivered(l: Link, pizza: Pizza): Link {
    l.(h := l.h.(load := l.h.load + 1), orders := l.orders + [PizzaPkt(Pack(pizza))],
       log := l.log.(sent := l.log.sent + [pizza]))
  }

  function Asked(l: Link): Link {
    l.(h := l.h.(pendingCooks := []), orders := l.orders + [StatusRequestPkt],
       log := l.log.(asked := true, everAsked := true))
  }

  function Dismissed(l: Link): Link {
    l.(orders := l.orders + [ShutdownPkt], log := l.log.(quit := true))
  }

  function Reaped(l: Link): Link {
    l.(h := l.h.(alive := false))
  }

  function Next(l: Link, e: Event): Link
    requires Enabled(l, e)
  {
    match e
    case Inside(m) => l.(k := Do(l.k, m))
    case Poll =>
      l.(k := WithWorker(l.k, Polled(l.k, l.orders)), orders := if l.orders == [] then [] else l.orders[1..])
    case Refuse =>
      l.(k := WithWorker(l.k, IdleCheck(false)), results := l.results + [FullPkt(Pack(l.k.worker.pizza))])
    case SendCook =>
      l.(k := WithWorker(l.k, l.k.worker.(todo := l.k.worker.todo[1..])),
         results := l.results + [CookPkt(l.k.worker.todo[0])])
    case SendReply =>
      l.(k := WithWorker(l.k, IdleCheck(false)),
         results := l.results
           + [StatusReplyPkt(Narrow(l.k.worker.load), Narrow(Capacity(l.k)), NarrowStock(l.k.worker.stock))])
    case Announce(i) =>
      var pizza := l.k.cooks[i].pizza;
      l.(k := l.k.(cooks := l.k.cooks[i := Announced(pizza)]), results := l.results + [DonePkt(Pack(pizza))])
    case Goodbye =>
      l.(k := WithWorker(l.k, Finished), results := l.results + [ShutdownPkt])
    case Deliver(pizza) => Delivered(l, pizza)
    case Ask => Asked(l)
    case Quit => Dismissed(l)
    case Receive =>
      l.(h := Handled(l.h, l.results[0]), results := l.results[1..], log := Noted(l.log, l.results[0]))
    case Reap => Reaped(l)
  }

  /** Events other than the kitchen's moves change at most its main thread, or the cook who sends Done. */
  lemma OutsideEffect(l: Link, e: Event)
    requires Enabled(l, e) && !e.Inside?
    ensures e.Announce? ==> Next(l, e).k == l.k.(cooks := l.k.cooks[e.i := Announced(l.k.cooks[e.i].pizza)])
    ensures !e.Announce? ==> Next(l, e).k == l.k.(worker := Next(l, e).k.worker)
  {
    hide Polled, NarrowStock, Handled, Noted;
  }

  // -------------------------------------------------------------------- runs

  /** The link after a sequence of events, provided each was enabled when it came. */
  ghost function Run(l: Link, events: seq<Event>): Option<Link> {
    if events == [] then Some(l)
    else
      var before := Run(l, events[..|events| - 1]);
      var e := events[|events| - 1];
      if before.Some? && Enabled(before.value, e) then Some(Next(before.value, e)) else None
  }

  ghost predicate Reachable(l: Link, nCooks: nat) {
    exists id, events :: Run(NewLink(id, nCooks), events) == Some(l)
  }
}
