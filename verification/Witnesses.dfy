/** Runs that do happen: pizzas stranded by the idle timeout. */
module Witnesses {
  import opened Menu
  import opened Sums
  import opened Kitchen
  import opened Protocol
  import opened LinkSafety
  import opened LinkTheorems
  import opened Endings

  /** One more event of a run. */
  lemma Follow(l: Link, e: Event, nCooks: nat) returns (l': Link)
    requires Reachable(l, nCooks) && Enabled(l, e)
    ensures Reachable(l', nCooks) && l' == Next(l, e)
  {
    l' := Next(l, e);
    ReachNext(l, e, nCooks);
  }

  // ----------------------------------------------------------------- stranding

  /** A new kitchen with one cook that has polled once, and what the reception has sent it since. */
  ghost function Waiting(rest: seq<Packet>, quit: bool): Link {
    NewLink(0, 1).(k := NewKitchen(1).(worker := IdleCheck(false)), orders := [PizzaPkt(Pack(ANY))] + rest,
                   h := NewHandle(0, 1).(load := 1), log := Log([ANY], [], [], false, false, quit))
  }

  /** The same when it has left its loop for want of work. */
  ghost function TimedOut(rest: seq<Packet>, quit: bool): Link {
    var l := Waiting(rest, quit);
    l.(k := l.k.(worker := Stopping, exit := ByTimeout))
  }

  lemma PollNothing() returns (l: Link)
    ensures Reachable(l, 1) && l == NewLink(0, 1).(k := NewKitchen(1).(worker := IdleCheck(false)))
  {
    hide Reachable, Handled;
    l := NewLink(0, 1);
    NewLinkReachable(0, 1);
    l := Follow(l, Poll, 1);
  }

  lemma ReceivePizza() returns (l: Link)
    ensures Reachable(l, 1) && l == Waiting([], false)
  {
    hide Reachable, Handled, NewKitchen;
    l := PollNothing();
    l := Follow(l, Deliver(ANY), 1);
  }

  /** The pizza arrives after the poll and before the check that finds the timeout expired. */
  lemma ArrivesBeforeTheCheck() returns (l: Link)
    ensures Reachable(l, 1) && l == TimedOut([], false)
  {
    hide Reachable, Handled;
    l := ReceivePizza();
    l := Follow(l, Inside(Expire), 1);
  }

  /** The queue is empty when the timeout expires, and the pizza is sent to a kitchen that has left its loop. */
  lemma ArrivesAfterTheTimeout() returns (l: Link)
    ensures Reachable(l, 1) && l == TimedOut([], false)
  {
    hide Reachable, Handled;
    l := PollNothing();
    l := Follow(l, Inside(Expire), 1);
    l := Follow(l, Deliver(ANY), 1);
  }

  /** The kitchen has been told to shut down, but times out before it reads that. */
  lemma TimesOutBeforeShutdown() returns (l: Link)
    ensures Reachable(l, 1) && l == TimedOut([ShutdownPkt], true)
  {
    hide Reachable, Handled;
    l := ReceivePizza();
    l := Follow(l, Quit, 1);
    l := Follow(l, Inside(Expire), 1);
  }

  lemma StopPool(l: Link) returns (l': Link)
    requires Reachable(l, 1) && l.k.worker.Stopping? && l.k.cooks == [Ready]
    requires l.k.pool.queue == [] && l.k.pool.lock.Free?
    ensures Reachable(l', 1)
    ensures l' == l.(k := l.k.(worker := Joining, pool := l.k.pool.(running := false)))
  {
    hide Reachable, Handled, Polled, AllAvailable, Needs, Without;
    l' := Follow(l, Inside(Stop), 1);
    l' := Follow(l', Inside(Broadcast), 1);
    assert l'.k.cooks == [Ready];
  }

  lemma SendHome(l: Link) returns (l': Link)
    requires Reachable(l, 1) && l.k.worker.Joining? && l.k.cooks == [Ready]
    requires l.k.pool.queue == [] && !l.k.pool.running && l.k.pool.lock.Free?
    ensures Reachable(l', 1) && l' == l.(k := l.k.(worker := Farewell, cooks := [Exited]))
  {
    hide Reachable, Handled, Polled, AllAvailable, Needs, Without;
    l' := Follow(l, Inside(CookLock(0)), 1);
    l' := Follow(l', Inside(CookCheck(0)), 1);
    l' := Follow(l', Inside(Join), 1);
  }

  /** From there the kitchen closes and the pizza stays where it is. */
  lemma CloseUp(l: Link, rest: seq<Packet>, quit: bool) returns (l': Link)
    requires Reachable(l, 1) && l == TimedOut(rest, quit)
    ensures Reachable(l', 1) && l'.k.worker.Finished? && l'.k.exit.ByTimeout?
    ensures l'.orders == l.orders && l'.h == l.h && l'.log == l.log && l'.results == [ShutdownPkt]
  {
    hide Reachable;
    l' := StopPool(l);
    l' := SendHome(l');
    l' := Follow(l', Goodbye, 1);
  }

  lemma OnePizzaIn(rest: seq<Packet>)
    requires rest == [] || rest == [ShutdownPkt]
    ensures Sum([PizzaPkt(Pack(ANY))] + rest, PizzaIn(Just(ANY))) == 1
  {
    SumAppend([], PizzaPkt(Pack(ANY)), PizzaIn(Just(ANY)));
    if rest != [] { SumAppend([PizzaPkt(Pack(ANY))], ShutdownPkt, PizzaIn(Just(ANY))); }
  }

  /**
   Pizzas do get stranded, although every queue and counter is in order: sent just before the
   timeout, sent after it, or sent to a kitchen that is told to shut down and times out first.
   */
  lemma StrandingHappens(early: bool) returns (l: Link)
    ensures Reachable(l, 1) && l.k.worker.Finished? && l.k.exit.ByTimeout?
    ensures Stranded(Just(ANY), l) == 1
    ensures !l.h.alive && l.h.load == 1 && l.log.sent == [ANY] && l.log.done == [] && l.log.full == []
  {
    hide Reachable;
    if early { l := ArrivesBeforeTheCheck(); } else { l := ArrivesAfterTheTimeout(); }
    l := CloseUp(l, [], false);
    OnePizzaIn([]);
    l := Follow(l, Receive, 1);
  }

  lemma StrandingDespiteShutdown() returns (l: Link)
    ensures Reachable(l, 1) && l.k.worker.Finished? && l.log.quit
    ensures Stranded(Just(ANY), l) == 1
    ensures l.log.sent == [ANY] && l.log.done == [] && l.log.full == [] && l.results == [ShutdownPkt]
  {
    hide Reachable;
    l := TimesOutBeforeShutdown();
    l := CloseUp(l, [ShutdownPkt], true);
    OnePizzaIn([ShutdownPkt]);
  }
}
