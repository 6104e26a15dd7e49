/** How a kitchen ends: Shutdown is the last word in either direction. */
module LinkEnds {
  import opened Kitchen
  import opened KitchenSafety
  import opened Protocol

  // ------------------------------------------------------------------ endings

  predicate FromReception(p: Packet) {
    p.PizzaPkt? || p.StatusRequestPkt? || p.ShutdownPkt?
  }

  predicate FromKitchen(p: Packet) {
    p.DonePkt? || p.FullPkt? || p.CookPkt? || p.StatusReplyPkt? || p.ShutdownPkt?
  }

  /** Shutdown is the last word in either direction. */
  ghost predicate OrdersEnd(l: Link) {
    && (forall i :: 0 <= i < |l.orders| ==> FromReception(l.orders[i]))
    && (forall i :: 0 <= i < |l.orders| && l.orders[i].ShutdownPkt? ==> i == |l.orders| - 1 && l.log.quit)
    && (l.k.exit.ByShutdown? || l.k.worker == IdleCheck(true) ==> l.orders == [] && l.log.quit)
    && !(l.log.asked && l.log.quit)
  }

  ghost predicate ResultsEnd(l: Link) {
    && (forall i :: 0 <= i < |l.results| ==> FromKitchen(l.results[i]))
    && (forall i :: 0 <= i < |l.results| && l.results[i].ShutdownPkt? ==> i == |l.results| - 1 && l.k.worker.Finished?)
    && (l.h.alive && l.k.worker.Finished? ==> l.results != [] && l.results[|l.results| - 1].ShutdownPkt?)
    && (!l.h.alive ==> l.k.worker.Finished?)
    && (!l.h.alive && !l.log.quit ==> l.results == [])
  }

  /** No move inside a kitchen ends it, or makes it leave because of a Shutdown it has not read. */
  ghost predicate SameLife(k: Kitchen, k': Kitchen) {
    && |k'.cooks| == |k.cooks|
    && (k'.worker.Finished? <==> k.worker.Finished?)
    && (k'.worker == IdleCheck(true) ==> k.worker == IdleCheck(true))
    && (k'.exit.ByShutdown? ==> k.exit.ByShutdown? || k.worker == IdleCheck(true))
  }

  lemma WorkStaysInside(k: Kitchen, m: Move)
    requires !m.OfCook() && CanWork(k, m)
    ensures SameLife(k, Work(k, m))
  {
  }

  lemma CookStaysInside(k: Kitchen, m: Move)
    requires m.OfCook() && CanCook(k, m)
    ensures SameLife(k, DoCook(k, m))
  {
  }

  lemma MovesStayInside(k: Kitchen, m: Move)
    requires Can(k, m)
    ensures SameLife(k, Do(k, m))
  {
    hide SameLife, CanCook, CanWork, DoCook, Work;
    if m.OfCook() { CookStaysInside(k, m); } else { WorkStaysInside(k, m); }
  }

  lemma EventKeepsOrdersEnd(l: Link, e: Event)
    requires OrdersEnd(l) && Enabled(l, e)
    ensures OrdersEnd(Next(l, e))
  {
    if e.Inside? { MovesStayInside(l.k, e.m); }
    hide Do, Can, Handled, NarrowStock;
  }

  lemma FinishedCooksAreGone(k: Kitchen, i: nat)
    requires KitchenInv(k) && k.worker.Finished? && i < |k.cooks|
    ensures k.cooks[i].Exited?
  {
  }

  /** A packet from a kitchen that is still at work, or its farewell. */
  lemma SendingKeepsResultsEnd(l: Link, k: Kitchen, p: Packet)
    requires ResultsEnd(l) && !l.k.worker.Finished? && FromKitchen(p)
    requires p.ShutdownPkt? <==> k.worker.Finished?
    ensures ResultsEnd(l.(k := k, results := l.results + [p]))
  {
  }

  lemma SpeakingKeepsResultsEnd(l: Link, e: Event)
    requires KitchenInv(l.k) && ResultsEnd(l) && Enabled(l, e)
    requires e.Refuse? || e.SendCook? || e.SendReply? || e.Announce? || e.Goodbye?
    ensures ResultsEnd(Next(l, e))
  {
    if e.Announce? && l.k.worker.Finished? { FinishedCooksAreGone(l.k, e.i); }
    hide KitchenInv, ResultsEnd, NarrowStock;
    SendingKeepsResultsEnd(l, Next(l, e).k, Next(l, e).results[|l.results|]);
  }

  lemma ReceiveKeepsResultsEnd(l: Link)
    requires ResultsEnd(l) && Enabled(l, Receive)
    ensures ResultsEnd(Next(l, Receive))
  {
  }

  lemma SilenceKeepsResultsEnd(l: Link, e: Event)
    requires ResultsEnd(l) && Enabled(l, e)
    requires e.Inside? || e.Poll? || e.Deliver? || e.Ask? || e.Quit? || e.Reap?
    ensures ResultsEnd(Next(l, e))
  {
    if e.Inside? { MovesStayInside(l.k, e.m); }
    hide Do, Can;
  }

  lemma EventKeepsEnds(l: Link, e: Event)
    requires KitchenInv(l.k) && OrdersEnd(l) && ResultsEnd(l) && Enabled(l, e)
    ensures OrdersEnd(Next(l, e)) && ResultsEnd(Next(l, e))
  {
    hide *;
    EventKeepsOrdersEnd(l, e);
    match e
    case Receive => ReceiveKeepsResultsEnd(l);
    case Refuse => SpeakingKeepsResultsEnd(l, e);
    case SendCook => SpeakingKeepsResultsEnd(l, e);
    case SendReply => SpeakingKeepsResultsEnd(l, e);
    case Announce(_) => SpeakingKeepsResultsEnd(l, e);
    case Goodbye => SpeakingKeepsResultsEnd(l, e);
    case _ => SilenceKeepsResultsEnd(l, e);
  }
}
