/**
 The whole system: the reception, the kitchens it has open, and the order book. The
 reception does one thing at a time; between any two of its steps every kitchen may
 take any number of steps of its own.
 */
module Pizzeria {
  import opened Menu
  import opened Protocol
  import opened Allocation
  import opened Orders

  /** What the reception is doing. */
  datatype Desk =
    | AtRest
    | Updating(todo: seq<Pizza>)     // in dispatch's updateKitchens, with these pizzas to allocate
    | Dispatching(todo: seq<Pizza>)  // in the allocation loop: receives nothing
    | Asking(next: nat)              // in getStatus, sending requests
    | Surveying                      // in getStatus, waiting for replies
    | Closing(next: nat)             // in shutdown
    | Closed

  /**
   `links` are the entries of kitchens_. History: `gone` are the links of erased
   kitchens, `placed` the pizzas of all orders, `quantities` the sizes of the orders
   entered in the book.
   */
  datatype System = System(nCooks: nat, links: seq<Link>, gone: seq<Link>, nextId: nat, desk: Desk,
                           book: Book, placed: seq<Pizza>, quantities: seq<nat>)

  datatype Step =
    | KitchenStep(i: nat, e: Event)
    | PlaceOrder(pizzas: seq<Pizza>)
    | Take(i: nat)
    | Sweep
    | StartDispatch | DispatchOne | EndDispatch
    | StartSurvey | AskNext | EndSurvey
    | StartClosing | CloseNext | EndClosing

  function Opening(nCooks: nat): System {
    System(nCooks, [], [], 0, AtRest, EMPTY_BOOK, [], [])
  }

  /** The events that are a kitchen's own. */
  predicate OfKitchen(e: Event) {
    e.Inside? || e.Poll? || e.Refuse? || e.SendCook? || e.SendReply? || e.Announce? || e.Goodbye?
  }

  function Handles(links: seq<Link>): seq<Handle> {
    seq(|links|, i requires 0 <= i < |links| => links[i].h)
  }

  function Alive(links: seq<Link>): seq<Link> {
    if links == [] then []
    else
      var n := |links| - 1;
      Alive(links[..n]) + if links[n].h.alive then [links[n]] else []
  }

  function Dead(links: seq<Link>): seq<Link> {
    if links == [] then []
    else
      var n := |links| - 1;
      Dead(links[..n]) + if links[n].h.alive then [] else [links[n]]
  }

  predicate Closable(l: Link) {
    !l.h.alive || !l.log.quit || l.k.worker.Finished?
  }

  predicate Allowed(s: System, a: Step) {
    match a
    case KitchenStep(i, e) => i < |s.links| && OfKitchen(e) && Enabled(s.links[i], e)
    case PlaceOrder(_) => s.desk.AtRest?
    case Take(i) =>
      && (s.desk.AtRest? || s.desk.Updating? || s.desk.Surveying?)
      && i < |s.links| && Enabled(s.links[i], Receive)
    case Sweep => s.desk.AtRest?
    case StartDispatch => s.desk.Updating?
    case DispatchOne => s.desk.Dispatching? && s.desk.todo != []
    case EndDispatch => s.desk.Dispatching? && s.desk.todo == []
    case StartSurvey => s.desk.AtRest?
    case AskNext => s.desk.Asking? && s.desk.next < |s.links|
    case EndSurvey =>
      || (s.desk.Asking? && s.desk.next >= |s.links|)
      || (s.desk.Surveying? && forall i :: 0 <= i < |s.links| && s.links[i].h.alive ==> !s.links[i].log.asked)
    case StartClosing => s.desk.AtRest?
    case CloseNext => s.desk.Closing? && s.desk.next < |s.links| && Closable(s.links[s.desk.next])
    case EndClosing => s.desk.Closing? && s.desk.next >= |s.links|
  }

  function After(s: System, i: nat, l: Link): System
    requires i < |s.links|
  {
    s.(links := s.links[i := l])
  }

  function Swept(s: System): System {
    s.(links := Alive(s.links), gone := s.gone + Dead(s.links))
  }

  /** One pizza to the best kitchen, or to a new one. */
  function Sent(s: System, pizza: Pizza): System {
    var best := Best(Handles(s.links));
    BestIsBest(Handles(s.links));
    match best
    case Some(b) => After(s, b, Delivered(s.links[b], pizza))
    case None => s.(links := s.links + [Delivered(NewLink(s.nextId, s.nCooks), pizza)], nextId := s.nextId + 1)
  }

  function Perform(s: System, a: Step): System
    requires Allowed(s, a)
  {
    match a
    case KitchenStep(i, e) => After(s, i, Next(s.links[i], e))
    case PlaceOrder(pizzas) =>
      s.(desk := Updating(pizzas), book := Entered(s.book, |pizzas|), placed := s.placed + pizzas,
         quantities := if |pizzas| == 0 then s.quantities else s.quantities + [|pizzas|])
    case Take(i) =>
      var taken := After(s, i, Next(s.links[i], Receive));
      if s.links[i].results[0].DonePkt? then taken.(book := Ticked(s.book)) else taken
    case Sweep => Swept(s)
    case StartDispatch => Swept(s).(desk := Dispatching(s.desk.todo))
    case DispatchOne => Sent(s, s.desk.todo[0]).(desk := Dispatching(s.desk.todo[1..]))
    case EndDispatch => s.(desk := AtRest)
    case StartSurvey => s.(desk := Asking(0))
    case AskNext =>
      var i := s.desk.next;
      var l := s.links[i];
      (if l.h.alive then After(s, i, Asked(l)) else s).(desk := Asking(i + 1))
    case EndSurvey => if s.desk.Asking? then s.(desk := Surveying) else s.(desk := AtRest)
    case StartClosing => s.(desk := Closing(0))
    case CloseNext =>
      var i := s.desk.next;
      var l := s.links[i];
      if !l.h.alive then s.(desk := Closing(i + 1))
      else if l.log.quit then After(s, i, Reaped(l))
      else After(s, i, Dismissed(l))
    case EndClosing => s.(desk := Closed)
  }
}
