/**
 The load balancer's loops, which work on handles alone, against the steps of the whole
 system: what a loop leaves in the handles is what the matching run of steps leaves there.
 */
module Refinement {
  import opened Menu
  import opened Protocol
  import opened LinkTheorems
  import KitchenSafety
  import LinkSafety
  import LinkEnds
  import LinkStatus
  import opened Allocation
  import opened Pizzeria
  import opened PizzeriaTheorems
  import opened Reception

  /** n times the same thing. */
  ghost function Times<T>(n: nat, x: T): seq<T> {
    seq(n, _ => x)
  }

  /**
   Draining a result queue: in a reachable link that the reception still listens to, every packet
   in the queue can be taken one after the other, and the handle ends as the drain loop leaves it.
   */
  lemma {:induction false} DrainIsReceived(l: Link, nCooks: nat, n: nat)
    requires nCooks > 0 && Reachable(l, nCooks) && l.h.alive && !l.log.quit && n <= |l.results|
    ensures Run(l, Times(n, Receive)).Some?
    ensures var l' := Run(l, Times(n, Receive)).value;
      && l'.h == Received(l.h, l.results[..n]) && l'.results == l.results[n..]
      && l'.k == l.k && l'.orders == l.orders
      && l'.log.done == l.log.done + DonesIn(l.results[..n])
      && l'.log.quit == l.log.quit
    ensures n < |l.results| ==> Received(l.h, l.results[..n]).alive
  {
    hide Reachable, Next, Enabled, Received, DonesIn, SaysGoodbye;
    if n == 0 {
      assert Times(0, Receive) == [];
      assert l.results[..0] == [] && l.log.done + [] == l.log.done;
      NothingReceived(l.h, []);
    } else {
      DrainIsReceived(l, nCooks, n - 1);
      TimesMore(n, Receive);
      TakeOne(Run(l, Times(n - 1, Receive)).value);
      ReceivedNext(l.h, l.results, n - 1);
      assert l.results[n - 1..][1..] == l.results[n..];
    }
    if n < |l.results| {
      ReceivedMeans(l.h, l.results[..n]);
      NoEarlyGoodbye(l, nCooks, n);
    }
  }

  lemma TakeOne(l: Link)
    requires l.h.alive && !l.log.quit && l.results != []
    ensures Enabled(l, Receive)
    ensures var l', p := Next(l, Receive), l.results[0];
      && l'.h == Handled(l.h, p) && l'.results == l.results[1..] && l'.k == l.k && l'.orders == l.orders
      && l'.log.done == l.log.done + (if p.DonePkt? then [Read(p.slip)] else []) && !l'.log.quit
  {
  }

  lemma TimesMore<T>(n: nat, x: T)
    requires n > 0
    ensures Times(n, x)[..n - 1] == Times(n - 1, x) && Times(n, x)[n - 1] == x
  {
  }

  lemma NoEarlyGoodbye(l: Link, nCooks: nat, n: nat)
    requires nCooks > 0 && Reachable(l, nCooks) && n < |l.results|
    ensures !SaysGoodbye(l.results[..n])
  {
    hide Reachable, KitchenSafety.KitchenInv, LinkSafety.Conserved, LinkSafety.Counted;
    hide LinkEnds.OrdersEnd, LinkStatus.StatusInv;
    ReachableInv(l, nCooks);
  }

  /** Sweeping the links erases from the handles what the vector's erase does. */
  lemma {:induction false} SweepIsErase(links: seq<Link>)
    ensures Handles(Alive(links)) == Living(Handles(links))
  {
    if links != [] {
      var n := |links| - 1;
      SweepIsErase(links[..n]);
      assert Handles(links)[..n] == Handles(links[..n]);
    }
  }

  /**
   A whole dispatch: from any state in which the reception is allocating, taking one pizza
   after the other is always possible, and ends with the handles and ids that Fill computes.
   */
  lemma {:induction false} DispatchIsFill(s: System, nCooks: nat, n: nat)
    requires nCooks > 0 && Arises(s, nCooks) && s.desk.Dispatching? && n <= |s.desk.todo|
    ensures Story(s, Times(n, DispatchOne)).Some?
    ensures var s' := Story(s, Times(n, DispatchOne)).value;
      var f := Fill(Floor(Handles(s.links), s.nextId, []), s.nCooks, s.desk.todo[..n]);
      && Arises(s', nCooks) && s'.desk == Dispatching(s.desk.todo[n..]) && s'.nCooks == s.nCooks
      && Handles(s'.links) == f.handles && s'.nextId == f.nextId
  {
    hide Arises, Place, Handles, Sent;
    if n == 0 {
      assert Times(0, DispatchOne) == [];
    } else {
      DispatchIsFill(s, nCooks, n - 1);
      TimesMore(n, DispatchOne);
      var s1 := Story(s, Times(n - 1, DispatchOne)).value;
      DispatchIsAllocation(s1, nCooks);
      assert s.desk.todo[..n][..n - 1] == s.desk.todo[..n - 1];
      var g := Fill(Floor(Handles(s.links), s.nextId, []), s.nCooks, s.desk.todo[..n - 1]);
      PlaceIgnoresOutbox(g, s.nCooks, s.desk.todo[n - 1]);
      StepArises(s1, DispatchOne, nCooks);
      SentKeepsCooks(s1, s1.desk.todo[0]);
      assert s.desk.todo[n - 1..][1..] == s.desk.todo[n..];
    }
  }

  lemma SentKeepsCooks(s: System, pizza: Pizza)
    ensures Sent(s, pizza).nCooks == s.nCooks
  {
    BestIsBest(Handles(s.links));
  }

  lemma PlaceIgnoresOutbox(f: Floor, nCooks: nat, pizza: Pizza)
    ensures var f', g := Place(f, nCooks, pizza), Place(f.(outbox := []), nCooks, pizza);
      f'.handles == g.handles && f'.nextId == g.nextId
  {
  }

  lemma StepArises(s: System, a: Step, nCooks: nat)
    requires Arises(s, nCooks) && Allowed(s, a)
    ensures Arises(Perform(s, a), nCooks)
  {
    hide Opening, Allowed, Perform;
    var steps :| Story(Opening(nCooks), steps) == Some(s);
    assert (steps + [a])[..|steps|] == steps;
    assert Story(Opening(nCooks), steps + [a]) == Some(Perform(s, a));
  }
}
