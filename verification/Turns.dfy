/**
 What a kitchen can get done on its own. From every reachable state some sequence of its own
 steps works off the order queue, or closes the kitchen: no thread is ever in the way for good.
 */
module Turns {
  import opened Menu
  import opened Kitchen
  import opened KitchenSafety
  import opened Protocol
  import opened LinkEnds
  import opened LinkStatus
  import opened LinkTheorems
  import opened Progress
  import opened Drain
  import opened Pizzeria
  import opened PizzeriaSafety

  // ------------------------------------------------------- one kitchen on its own

  /** The kitchen gets from one state to the other by steps of its own. */
  ghost predicate Leads(l: Link, l': Link) {
    exists events :: Run(l, events) == Some(l') && forall i :: 0 <= i < |events| ==> OfKitchen(events[i])
  }

  lemma NoSteps(l: Link)
    ensures Leads(l, l)
  {
    assert Run(l, []) == Some(l);
  }

  lemma LeadsOn(l: Link, m: Link, e: Event) returns (m': Link)
    requires Leads(l, m) && Enabled(m, e) && OfKitchen(e)
    ensures m' == Next(m, e) && Leads(l, m')
  {
    hide Enabled, Next, OfKitchen;
    m' := Next(m, e);
    var events :| Run(l, events) == Some(m) && forall i :: 0 <= i < |events| ==> OfKitchen(events[i]);
    var more := events + [e];
    assert more[..|events|] == events;
    assert Run(l, more) == Some(m');
  }

  lemma {:induction false} LeadsAlong(l: Link, m: Link, events: seq<Event>)
    requires Leads(l, m) && Run(m, events).Some? && forall i :: 0 <= i < |events| ==> OfKitchen(events[i])
    ensures Leads(l, Run(m, events).value)
  {
    if events != [] {
      hide Enabled, Next, OfKitchen, Leads;
      var n := |events| - 1;
      LeadsAlong(l, m, events[..n]);
      var m' := LeadsOn(l, Run(m, events[..n]).value, events[n]);
    }
  }

  /** The kitchen's own steps leave the reception's side alone. */
  lemma {:induction false} RunKeepsHandle(l: Link, events: seq<Event>, nCooks: nat)
    requires Reachable(l, nCooks) && Run(l, events).Some? && forall i :: 0 <= i < |events| ==> OfKitchen(events[i])
    ensures var l' := Run(l, events).value; l'.h == l.h && l'.log == l.log && Reachable(l', nCooks)
  {
    hide Reachable, Enabled, Next, OfKitchen;
    if events != [] {
      var n := |events| - 1;
      RunKeepsHandle(l, events[..n], nCooks);
      KitchenLeavesDeskAlone(Run(l, events[..n]).value, events[n]);
      ReachNext(Run(l, events[..n]).value, events[n], nCooks);
    }
  }

  lemma LeadsKeeps(l: Link, l': Link, nCooks: nat)
    requires Reachable(l, nCooks) && Leads(l, l')
    ensures l'.h == l.h && l'.log == l.log && Reachable(l', nCooks)
  {
    hide Reachable, Run, OfKitchen;
    var events :| Run(l, events) == Some(l') && forall i :: 0 <= i < |events| ==> OfKitchen(events[i]);
    RunKeepsHandle(l, events, nCooks);
  }

  // -------------------------------------------------------------- to the next poll

  /** How many steps of its own the main thread is from its next poll, at most. */
  ghost function Stage(k: Kitchen): nat {
    match k.worker
    case IdleCheck(_) => 1
    case Refusing(_) => 2
    case AddNotifying => 2
    case AddCounting => 3
    case AddPushing(_) => 4
    case AddTesting(_) => 5
    case Adding(_) => 6
    case Sending(_, _, todo) => 2 + |todo|
    case Sampling(_, shelf, seen) =>
      3 + |k.cooks| + (if |seen| < |k.cooks| then |k.cooks| - |seen| else 0) + (if shelf.None? then 1 else 0)
    case Replying => 5 + 2 * |k.cooks|
    case _ => 0
  }

  /** Whether the main thread waits for a mutex that another thread has. */
  ghost function Obstacle(k: Kitchen): nat {
    if k.worker.Adding? || k.worker.Stopping? then (if k.pool.lock.Free? then 0 else 1)
    else if k.worker.Sampling? && k.worker.shelf.None? then (if k.pantry.lock.Free? then 0 else 1)
    else 0
  }

  /** The order queue is worked off and the main thread looks at it. */
  predicate CaughtUp(l: Link) {
    l.k.worker.Polling? && l.orders == []
  }

  /** Nearer to the end of the turn, with the same orders to come. */
  ghost predicate Nearer(k: Kitchen, k': Kitchen) {
    Stage(k') < Stage(k) || (Stage(k') == Stage(k) && Obstacle(k') < Obstacle(k))
  }

  /** Whoever has a mutex can go on and give it back. */
  lemma OwnerGoesOn(k: Kitchen) returns (m: Move)
    requires LocksInv(k) && Obstacle(k) > 0
    ensures Can(k, m) && (m.CookCheck? || m.StockTry? || m.Tick?)
    ensures Do(k, m).worker == k.worker && |Do(k, m).cooks| == |k.cooks| && Do(k, m).exit == k.exit
    ensures Obstacle(Do(k, m)) == 0
  {
    hide AllAvailable, Needs, Without;
    if k.worker.Sampling? {
      match k.pantry.lock {
        case ByCook(i) => m := StockTry(i);
        case _ => m := Tick;
      }
    } else {
      m := CookCheck(k.pool.lock.cook);
    }
  }

  lemma SomeoneToWake(k: Kitchen) returns (woken: Option<nat>)
    requires k.worker.AddNotifying?
    ensures Can(k, AddNotify(woken))
  {
    if Slumber(k.cooks) {
      var i :| 0 <= i < |k.cooks| && k.cooks[i].Asleep?;
      woken := Some(i);
    } else {
      woken := None;
    }
  }

  /** The main thread's next move within its turn. */
  lemma MainThreadMoves(k: Kitchen) returns (m: Move)
    requires k.worker.Adding? || k.worker.HoldsLock() || k.worker.Replying? || k.worker.Sampling? || k.worker.IdleCheck?
    requires Obstacle(k) == 0 && (k.worker.Sampling? ==> |k.worker.seen| < |k.cooks|)
    ensures !m.OfCook() && CanWork(k, m)
    ensures Stage(Work(k, m)) < Stage(k)
  {
    hide Slumber, IsFull, WakeAll, FeedAll, Regenerated, AllAvailable, Needs, Without;
    match k.worker {
      case Adding(_) => m := AddLock;
      case AddTesting(_) => m := AddTest;
      case AddPushing(_) => m := AddPush;
      case AddCounting => m := AddCount;
      case AddNotifying =>
        var woken := SomeoneToWake(k);
        m := AddNotify(woken);
      case Replying => m := SampleLoad;
      case Sampling(_, shelf, _) => if shelf.None? { m := SampleStock; } else { m := SampleCook; }
      case IdleCheck(_) => m := Doze;
    }
  }

  lemma InvIsSampling(l: Link, nCooks: nat)
    requires nCooks > 0 && Reachable(l, nCooks)
    ensures LocksInv(l.k) && (l.k.worker.Sampling? ==> |l.k.worker.seen| < |l.k.cooks|) && |l.k.cooks| == nCooks
  {
    hide Reachable, LinkSafety.Conserved, LinkSafety.Counted, OrdersEnd, ResultsEnd, LoadInv, LifeInv, WakeInv, StockInv;
    hide LocksInv;
    ReachableInv(l, nCooks);
  }

  /** A step of the kitchen that takes its main thread on. */
  lemma Urge(l: Link, nCooks: nat) returns (e: Event)
    requires nCooks > 0 && Reachable(l, nCooks) && l.k.worker.InLoop() && !CaughtUp(l)
    ensures Enabled(l, e) && OfKitchen(e)
    ensures var l' := Next(l, e);
      |l'.orders| < |l.orders| || (l'.orders == l.orders && Nearer(l.k, l'.k))
  {
    InvIsSampling(l, nCooks);
    hide Reachable, LocksInv;
    if Obstacle(l.k) > 0 {
      var m := OwnerGoesOn(l.k);
      e := Inside(m);
      hide Can, Do;
    } else if l.k.worker.Polling? {
      e := Poll;
      hide Ticket;
    } else if l.k.worker.Refusing? {
      e := Refuse;
    } else if l.k.worker.Sending? {
      e := if l.k.worker.todo == [] then SendReply else SendCook;
    } else {
      var m := MainThreadMoves(l.k);
      e := Inside(m);
      hide CanWork, Work, Obstacle, Stage;
    }
  }

  /** So it catches up with its orders, unless it leaves its loop first. */
  lemma {:induction false} CatchUp(a: Link, l: Link, nCooks: nat) returns (l': Link)
    requires nCooks > 0 && Reachable(a, nCooks) && Leads(a, l)
    ensures Leads(a, l') && (CaughtUp(l') || !l'.k.worker.InLoop())
    decreases |l.orders|, Stage(l.k), Obstacle(l.k)
  {
    if CaughtUp(l) || !l.k.worker.InLoop() {
      l' := l;
    } else {
      hide Reachable, Leads, Next, Enabled, Stage, Obstacle, CaughtUp, OfKitchen;
      LeadsKeeps(a, l, nCooks);
      var e := Urge(l, nCooks);
      var m := LeadsOn(a, l, e);
      l' := CatchUp(a, m, nCooks);
    }
  }

  // ------------------------------------------------- whatever the threads do meanwhile

  /** The main thread's own steps. */
  predicate OfMainThread(e: Event) {
    OfKitchen(e) && !e.Announce? && !(e.Inside? && (e.m.OfCook() || e.m.TickLock? || e.m.Tick?))
  }

  /** How many steps of its own the main thread is from having caught up, at most. */
  ghost function Distance(l: Link): nat {
    |l.orders| * (6 + 2 * |l.k.cooks|) + Stage(l.k)
  }

  lemma OthersLeaveStage(k: Kitchen, m: Move)
    requires Can(k, m) && (m.OfCook() || m.TickLock? || m.Tick?)
    ensures Do(k, m).worker == k.worker && |Do(k, m).cooks| == |k.cooks|
  {
    hide AllAvailable, Needs, Without;
  }

  lemma MainThreadCounts(k: Kitchen, m: Move)
    requires k.worker.InLoop() && !m.OfCook() && !m.TickLock? && !m.Tick? && CanWork(k, m)
    ensures |Work(k, m).cooks| == |k.cooks| && Stage(Work(k, m)) < Stage(k)
  {
    hide Slumber, IsFull, WakeAll, FeedAll, Regenerated;
  }

  lemma PollCounts(l: Link)
    requires l.k.worker.Polling? && l.orders != [] && |l.k.cooks| > 0
    ensures Distance(Next(l, Poll)) < Distance(l)
  {
    hide Ticket;
    var step := 6 + 2 * |l.k.cooks|;
    assert |l.orders| * step == (|l.orders| - 1) * step + step;
  }

  lemma SpeakingCounts(l: Link, e: Event)
    requires Enabled(l, e) && (e.Refuse? || e.SendCook? || e.SendReply?)
    ensures Distance(Next(l, e)) < Distance(l)
  {
    hide NarrowStock;
  }

  lemma MoveCounts(l: Link, m: Move)
    requires Enabled(l, Inside(m)) && l.k.worker.InLoop() && !m.OfCook() && !m.TickLock? && !m.Tick?
    ensures Distance(Next(l, Inside(m))) < Distance(l)
  {
    MainThreadCounts(l.k, m);
    hide CanWork, Work, Stage;
  }

  lemma OthersLeaveDistance(l: Link, e: Event)
    requires Enabled(l, e) && OfKitchen(e) && !OfMainThread(e)
    ensures Distance(Next(l, e)) == Distance(l)
  {
    if e.Inside? {
      OthersLeaveStage(l.k, e.m);
      hide Can, Do;
    }
  }

  /** In any interleaving each step of the main thread brings it nearer, and no other step takes it back. */
  lemma EveryStepCounts(l: Link, e: Event, nCooks: nat)
    requires nCooks > 0 && Reachable(l, nCooks) && Enabled(l, e) && OfKitchen(e)
    requires l.k.worker.InLoop() && !CaughtUp(l)
    ensures if OfMainThread(e) then Distance(Next(l, e)) < Distance(l) else Distance(Next(l, e)) == Distance(l)
  {
    InvIsSampling(l, nCooks);
    hide Reachable, LocksInv, Distance, Next, Can;
    if !OfMainThread(e) {
      OthersLeaveDistance(l, e);
    } else if e.Poll? {
      PollCounts(l);
    } else if e.Inside? {
      MoveCounts(l, e.m);
    } else {
      SpeakingCounts(l, e);
    }
  }

  /** The main thread's steps in a run. */
  ghost function MainThreadSteps(events: seq<Event>): nat {
    if events == [] then 0
    else MainThreadSteps(events[..|events| - 1]) + if OfMainThread(events[|events| - 1]) then 1 else 0
  }

  /** The kitchen has been in its loop with orders to read, or in the middle of a turn, all through the run. */
  ghost predicate AtWork(l: Link, events: seq<Event>) {
    forall i :: 0 <= i < |events| ==>
      Run(l, events[..i]).Some? && Run(l, events[..i]).value.k.worker.InLoop() && !CaughtUp(Run(l, events[..i]).value)
  }

  /**
   So in any run of the kitchen, whatever its threads do, the main thread catches up with the orders that were there
   within so many steps of its own, or leaves its loop before that.
   */
  lemma {:induction false} CatchesUpInTime(l: Link, events: seq<Event>, nCooks: nat)
    requires nCooks > 0 && Reachable(l, nCooks) && Run(l, events).Some? && AtWork(l, events)
    requires forall i :: 0 <= i < |events| ==> OfKitchen(events[i])
    ensures MainThreadSteps(events) + Distance(Run(l, events).value) <= Distance(l)
  {
    hide Reachable, Enabled, Next, OfKitchen, OfMainThread, Distance, CaughtUp;
    if events != [] {
      var n := |events| - 1;
      forall i | 0 <= i < n
        ensures Run(l, events[..n][..i]).Some? && Run(l, events[..n][..i]).value.k.worker.InLoop()
        ensures !CaughtUp(Run(l, events[..n][..i]).value)
      {
        assert events[..n][..i] == events[..i];
      }
      CatchesUpInTime(l, events[..n], nCooks);
      RunStaysReachable(l, events[..n], nCooks);
      EveryStepCounts(Run(l, events[..n]).value, events[n], nCooks);
    }
  }

  // ------------------------------------------------------------------- to the end

  lemma DrainIsOfKitchen(a: Link, events: seq<Event>)
    requires DrainRun(a, events)
    ensures forall i :: 0 <= i < |events| ==> OfKitchen(events[i])
  {
    hide Run, Eager;
  }

  /** Out of its loop, a kitchen can always close: stop, let the cooks finish, join them, say goodbye. */
  lemma GoHome(a: Link, l: Link, nCooks: nat) returns (l': Link)
    requires nCooks > 0 && Reachable(a, nCooks) && Leads(a, l) && l.k.worker.Joining?
    ensures Leads(a, l') && l'.k.worker.Finished?
  {
    hide Reachable, Leads, OfKitchen, Drained, Drains, Craving, Uneaten;
    LeadsKeeps(a, l, nCooks);
    assert DrainRun(l, []);
    var all := CarryOn(l, [], nCooks);
    DrainIsOfKitchen(l, all);
    DrainRunKeepsJoining(l, all);
    RunStaysReachable(l, all, nCooks);
    LeadsAlong(a, l, all);
    l' := Run(l, all).value;
    DrainedCanJoin(l', nCooks);
    hide DrainRun, Run;
    l' := SayGoodbye(a, l');
  }

  lemma SayGoodbye(a: Link, l: Link) returns (l': Link)
    requires Leads(a, l) && Enabled(l, Inside(Join))
    ensures Leads(a, l') && l'.k.worker.Finished?
  {
    hide Leads;
    l' := LeadsOn(a, l, Inside(Join));
    l' := LeadsOn(a, l', Goodbye);
  }

  lemma StopPool(a: Link, l: Link, nCooks: nat) returns (l': Link)
    requires nCooks > 0 && Reachable(a, nCooks) && Leads(a, l) && l.k.worker.Stopping?
    ensures Leads(a, l') && l'.k.worker.Joining?
  {
    hide Reachable, Leads;
    LeadsKeeps(a, l, nCooks);
    InvIsSampling(l, nCooks);
    l' := l;
    if Obstacle(l.k) > 0 {
      var m := OwnerGoesOn(l.k);
      l' := LeadsOn(a, l, Inside(m));
      hide Do, Can;
    }
    hide LocksInv;
    l' := StopFree(a, l');
  }

  lemma StopFree(a: Link, l: Link) returns (l': Link)
    requires Leads(a, l) && l.k.worker.Stopping? && Obstacle(l.k) == 0
    ensures Leads(a, l') && l'.k.worker.Joining?
  {
    hide Leads;
    l' := LeadsOn(a, l, Inside(Move.Stop));
    l' := LeadsOn(a, l', Inside(Broadcast));
  }

  lemma CloseUp(a: Link, l: Link, nCooks: nat) returns (l': Link)
    requires nCooks > 0 && Reachable(a, nCooks) && Leads(a, l) && !l.k.worker.InLoop()
    ensures Leads(a, l') && l'.k.worker.Finished?
  {
    hide Reachable, Leads, Next, Can;
    l' := l;
    if l'.k.worker.Stopping? { l' := StopPool(a, l', nCooks); }
    if l'.k.worker.Broadcasting? { l' := Wake(a, l'); }
    if l'.k.worker.Joining? { l' := GoHome(a, l', nCooks); }
    if l'.k.worker.Farewell? { l' := Part(a, l'); }
  }

  lemma Wake(a: Link, l: Link) returns (l': Link)
    requires Leads(a, l) && l.k.worker.Broadcasting?
    ensures Leads(a, l') && l'.k.worker.Joining?
  {
    hide Leads;
    l' := LeadsOn(a, l, Inside(Broadcast));
  }

  lemma Part(a: Link, l: Link) returns (l': Link)
    requires Leads(a, l) && l.k.worker.Farewell?
    ensures Leads(a, l') && l'.k.worker.Finished?
  {
    hide Leads;
    l' := LeadsOn(a, l, Goodbye);
  }

  /**
   From every reachable state a kitchen can get, by steps of its own, to a state in which it has read
   every order and waits for more, or to its end.
   */
  lemma WorkOff(l: Link, nCooks: nat) returns (l': Link)
    requires nCooks > 0 && Reachable(l, nCooks)
    ensures Leads(l, l') && (CaughtUp(l') || l'.k.worker.Finished?)
    ensures Reachable(l', nCooks) && l'.h == l.h && l'.log == l.log
  {
    hide Reachable, Leads, CaughtUp;
    NoSteps(l);
    l' := CatchUp(l, l, nCooks);
    if !CaughtUp(l') { l' := CloseUp(l, l', nCooks); }
    LeadsKeeps(l, l', nCooks);
  }

  // --------------------------------------------------------------- after Shutdown

  /** A Shutdown that was sent is the last packet in the order queue until it is read, and then the kitchen leaves. */
  ghost predicate QuitPending(l: Link) {
    l.log.quit && l.k.worker.InLoop() && l.k.worker != IdleCheck(true) ==>
      l.orders != [] && l.orders[|l.orders| - 1].ShutdownPkt?
  }

  lemma MoveKeepsQuit(k: Kitchen, m: Move)
    requires Can(k, m)
    ensures Do(k, m).worker.InLoop() && Do(k, m).worker != IdleCheck(true) ==>
              k.worker.InLoop() && k.worker != IdleCheck(true)
  {
    if m.OfCook() {
      hide AllAvailable, Needs, Without;
    } else {
      hide Slumber, WakeAll, FeedAll, Regenerated, IsFull;
    }
  }

  lemma EventKeepsQuit(l: Link, e: Event)
    requires QuitPending(l) && Enabled(l, e)
    ensures QuitPending(Next(l, e))
  {
    if e.Inside? {
      MoveKeepsQuit(l.k, e.m);
      hide Do, Can;
    } else {
      hide Do, Can, NarrowStock, Handled, Ticket;
    }
  }

  lemma {:induction false} RunKeepsQuit(id: nat, nCooks: nat, events: seq<Event>)
    requires Run(NewLink(id, nCooks), events).Some?
    ensures QuitPending(Run(NewLink(id, nCooks), events).value)
  {
    if events != [] {
      hide QuitPending, NewLink, Next, Enabled;
      var n := |events| - 1;
      RunKeepsQuit(id, nCooks, events[..n]);
      EventKeepsQuit(Run(NewLink(id, nCooks), events[..n]).value, events[n]);
    }
  }

  /** A kitchen that has been told to shut down can get to its end by steps of its own. */
  lemma ObeyShutdown(l: Link, nCooks: nat) returns (l': Link)
    requires nCooks > 0 && Reachable(l, nCooks) && l.log.quit
    ensures Leads(l, l') && l'.k.worker.Finished? && l'.h == l.h && l'.log == l.log && Reachable(l', nCooks)
  {
    hide Leads, Run, NewLink;
    l' := WorkOff(l, nCooks);
    var id, events :| Run(NewLink(id, nCooks), events) == Some(l');
    RunKeepsQuit(id, nCooks, events);
  }

  // ------------------------------------------------------------------- a survey

  /** With its results read, such a kitchen has answered or is known to be gone. */
  lemma HeardOut(l: Link, nCooks: nat)
    requires nCooks > 0 && Reachable(l, nCooks) && l.results == []
    requires CaughtUp(l) || l.k.worker.Finished?
    ensures l.h.alive ==> !l.log.asked
  {
    hide Reachable, LinkSafety.Conserved, LinkSafety.Counted, OrdersEnd, KitchenInv, SampleInv, ReportInv, SnapshotInv;
    ReachableInv(l, nCooks);
  }
}
