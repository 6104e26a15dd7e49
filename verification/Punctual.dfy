/**
 When a pizza cannot be stranded. The main thread reads one packet in each period; a pizza that is sent long
 enough before the idle timeout can expire is read before it does.
 */
module Punctual {
  import opened Menu
  import opened Sums
  import opened Kitchen
  import opened KitchenSafety
  import opened Protocol
  import opened LinkSafety
  import opened LinkEnds
  import opened LinkTheorems
  import opened Refusals
  import opened Endings
  import opened KitchenLoop
  import opened Clock

  // ------------------------------------------------------------ one packet's place

  /** The place in the order queue of the packet that was sent by event d; negative when it has been read. */
  ghost function Place(a: Link, events: seq<Event>, d: nat): int
    requires d < |events| && Run(a, events).Some?
  {
    var n := |events| - 1;
    if n == d then |Run(a, events[..n]).value.orders|
    else if events[n].Poll? then Place(a, events[..n], d) - 1
    else Place(a, events[..n], d)
  }

  lemma OrdersEffect(l: Link, e: Event)
    requires Enabled(l, e)
    ensures e.Poll? ==> Next(l, e).orders == if l.orders == [] then [] else l.orders[1..]
    ensures e.Deliver? ==> Next(l, e).orders == l.orders + [PizzaPkt(Pack(e.pizza))]
    ensures !e.Poll? ==> l.orders <= Next(l, e).orders
  {
    hide Do, Can, Polled, NarrowStock, Handled, Noted;
  }

  lemma {:induction false} StaysInPlace(a: Link, events: seq<Event>, d: nat)
    requires d < |events| && Run(a, events).Some? && events[d].Deliver?
    ensures var orders, place := Run(a, events).value.orders, Place(a, events, d);
      0 <= place ==> place < |orders| && orders[place] == PizzaPkt(Pack(events[d].pizza))
  {
    hide Next, Enabled;
    var n := |events| - 1;
    RunLast(a, events);
    OrdersEffect(Run(a, events[..n]).value, events[n]);
    if d < n { StaysInPlace(a, events[..n], d); }
  }

  // --------------------------------------------------------------- after a timeout

  lemma ExitEffect(l: Link, e: Event)
    requires LifeInv(l.k) && Enabled(l, e)
    ensures Next(l, e).k.exit.ByTimeout? <==> l.k.exit.ByTimeout? || e == Inside(Expire)
    ensures l.k.exit.ByTimeout? ==> !Checks(e) && !Admits(e)
  {
    EventSettlesExit(l, e);
    if l.k.exit.ByTimeout? { LeftForGood(l, e); }
    if e == Inside(Expire) { OnlyInsideLoop(l, e); }
    hide Next, Enabled, LifeInv;
  }

  lemma LeftForGood(l: Link, e: Event)
    requires LifeInv(l.k) && Enabled(l, e) && l.k.exit.ByTimeout?
    ensures !Checks(e) && !Admits(e)
  {
  }

  lemma InvHasLife(l: Link, nCooks: nat)
    requires nCooks > 0 && Reachable(l, nCooks)
    ensures LifeInv(l.k)
  {
    hide Reachable, LinkSafety.Conserved, LinkSafety.Counted, OrdersEnd, ResultsEnd, LinkStatus.StatusInv;
    hide LocksInv, LoadInv, LifeInv, WakeInv, StockInv;
    ReachableInv(l, nCooks);
  }

  /** From the timeout on, the last activity stays five seconds back or more. */
  lemma {:induction false} TimedOutLongIdle(
    id: nat, nCooks: nat, start: nat, events: seq<Event>, times: seq<nat>, period: nat)
    requires nCooks > 0 && |times| == |events| && Run(NewLink(id, nCooks), events).Some?
    requires Timely(start, NewLink(id, nCooks), events, times, period)
    requires Run(NewLink(id, nCooks), events).value.k.exit.ByTimeout?
    ensures Now(start, times) >= LastActive(start, NewLink(id, nCooks), events, times) + IDLE_TIMEOUT
  {
    hide *;
    var a := NewLink(id, nCooks);
    if events == [] {
      FreshIsOpen(id, nCooks);
    } else {
      var n := |events| - 1;
      RunLast(a, events);
      TimelyLast(start, a, events, times, period);
      var l := Run(a, events[..n]).value;
      RunReaches(id, nCooks, events[..n]);
      InvHasLife(l, nCooks);
      ExitEffect(l, events[n]);
      NowIs(start, times);
      if l.k.exit.ByTimeout? {
        TimedOutLongIdle(id, nCooks, start, events[..n], times[..n], period);
      } else {
        ExpiresInLoop(l);
        ExpiryIsNoActivity();
      }
    }
  }

  lemma FreshIsOpen(id: nat, nCooks: nat)
    ensures Run(NewLink(id, nCooks), []) == Some(NewLink(id, nCooks))
    ensures NewLink(id, nCooks).k.exit.StillOpen? && NewLink(id, nCooks).k.worker.Polling?
  {
  }

  lemma NowIs(start: nat, times: seq<nat>)
    requires times != []
    ensures Now(start, times) == times[|times| - 1]
  {
  }

  lemma ExpiryIsNoActivity()
    ensures Checks(Inside(Expire)) && !Admits(Inside(Expire))
  {
  }

  // --------------------------------------------------------------------- deadlines

  lemma FiveSeconds()
    ensures IDLE_TIMEOUT == 5000
  {
  }

  /** When that packet has been read, at the latest, with one packet read in each period. */
  ghost function Deadline(a: Link, events: seq<Event>, times: seq<nat>, period: nat, d: nat): nat
    requires |times| == |events| && d < |events| && Run(a, events[..d]).Some?
  {
    times[d] + (|Run(a, events[..d]).value.orders| + 1) * period
  }

  /** The pizza of event d is sent so early that this is before the idle timeout can expire. */
  ghost predicate InTime(start: nat, a: Link, events: seq<Event>, times: seq<nat>, period: nat, d: nat)
    requires |times| == |events| && d < |events| && Run(a, events[..d]).Some?
  {
    Deadline(a, events, times, period, d) < LastActive(start, a, events[..d], times[..d]) + IDLE_TIMEOUT
  }

  /** While the packet is unread the kitchen is in its loop, and so many checks from the deadline. */
  ghost predicate OnSchedule(w: Worker, place: int, check: nat, deadline: nat, period: nat) {
    0 <= place ==> w.InLoop() && check + (place + if w.Polling? then 0 else 1) * period <= deadline
  }

  /** What an event does to the main thread's turn. */
  lemma TurnEffect(l: Link, e: Event)
    requires Enabled(l, e) && l.k.worker.InLoop()
    ensures var w, w' := l.k.worker, Next(l, e).k.worker;
      && (e.Poll? ==> w.Polling? && !w'.Polling? && w'.InLoop())
      && (Checks(e) ==> w.IdleCheck? && (e == Inside(Doze) && !w.leaving ==> w'.Polling?))
      && (!e.Poll? && !Checks(e) ==> w'.InLoop() && (w'.Polling? <==> w.Polling?))
  {
    if e.Inside? {
      MoveInTurn(l.k, e.m);
      hide Can, Do;
    } else {
      OutsideTurn(l, e);
      hide Next, Enabled;
    }
  }

  lemma MoveInTurn(k: Kitchen, m: Move)
    requires Can(k, m) && k.worker.InLoop()
    ensures m == Doze || m == Expire ==>
              k.worker.IdleCheck? && (m == Doze && !k.worker.leaving ==> Do(k, m).worker.Polling?)
    ensures m != Doze && m != Expire ==> Do(k, m).worker.InLoop() && (Do(k, m).worker.Polling? <==> k.worker.Polling?)
  {
    if m.OfCook() {
      hide AllAvailable, Needs, Without;
    } else {
      hide Slumber, WakeAll, FeedAll, Regenerated, IsFull;
    }
  }

  lemma OutsideTurn(l: Link, e: Event)
    requires Enabled(l, e) && !e.Inside? && l.k.worker.InLoop()
    ensures var w, w' := l.k.worker, Next(l, e).k.worker;
      if e.Poll? then w.Polling? && !w'.Polling? && w'.InLoop() else w'.InLoop() && (w'.Polling? <==> w.Polling?)
  {
    hide NarrowStock, Handled, Ticket;
  }

  /** A main thread that has read Shutdown has read everything. */
  lemma LeavingHasRead(l: Link, nCooks: nat)
    requires nCooks > 0 && Reachable(l, nCooks) && l.k.worker == IdleCheck(true)
    ensures l.orders == []
  {
    hide Reachable, LinkSafety.Conserved, LinkSafety.Counted, ResultsEnd, LinkStatus.StatusInv, KitchenInv;
    ReachableInv(l, nCooks);
  }

  lemma OneMorePeriod(place: nat, period: nat)
    ensures (place + 1) * period == place * period + period
  {
  }

  /** One more event, for a packet that is still unread. */
  lemma KeepsSchedule(w: Worker, w': Worker, e: Event, place: nat, check: nat, t: nat, deadline: nat, period: nat)
    requires OnSchedule(w, place, check, deadline, period)
    requires e.Poll? ==> w.Polling? && !w'.Polling? && w'.InLoop()
    requires Checks(e) ==> t <= check + period && w.IdleCheck? && w'.Polling?
    requires !e.Poll? && !Checks(e) ==> w'.InLoop() && (w'.Polling? <==> w.Polling?)
    ensures OnSchedule(w', if e.Poll? then place - 1 else place, if Checks(e) then t else check, deadline, period)
  {
    OneMorePeriod(place, period);
  }

  /** A check in time does not expire. */
  lemma ChecksInTime(w: Worker, place: nat, check: nat, t: nat, deadline: nat, period: nat)
    requires OnSchedule(w, place, check, deadline, period) && w.IdleCheck? && t <= check + period
    ensures t <= deadline
  {
    OneMorePeriod(place, period);
  }

  lemma SentOnSchedule(w: Worker, place: nat, check: nat, t: nat, period: nat)
    requires w.InLoop() && check <= t
    ensures OnSchedule(w, place, check, t + (place + 1) * period, period)
  {
    OneMorePeriod(place, period);
  }

  lemma StillOpenInLoop(l: Link, nCooks: nat)
    requires nCooks > 0 && Reachable(l, nCooks) && !l.log.quit && !l.k.exit.ByTimeout?
    ensures l.k.worker.InLoop()
  {
    hide Reachable, LinkSafety.Conserved, LinkSafety.Counted, ResultsEnd, LinkStatus.StatusInv;
    hide LocksInv, LoadInv, WakeInv, StockInv;
    ReachableInv(l, nCooks);
  }

  lemma DeliverNeedsNoQuit(l: Link, e: Event)
    requires Enabled(l, e) && e.Deliver?
    ensures !l.log.quit && Next(l, e).k == l.k && !Checks(e) && !e.Poll?
  {
  }

  /** The moment of sending. */
  lemma SchedulesFirst(id: nat, nCooks: nat, start: nat, events: seq<Event>, times: seq<nat>, period: nat)
    requires nCooks > 0 && |times| == |events| > 0 && Run(NewLink(id, nCooks), events).Some?
    requires Timely(start, NewLink(id, nCooks), events, times, period)
    requires events[|events| - 1].Deliver?
    requires Run(NewLink(id, nCooks), events[..|events| - 1]).Some?
    requires InTime(start, NewLink(id, nCooks), events, times, period, |events| - 1)
    ensures var a, n := NewLink(id, nCooks), |events| - 1;
      OnSchedule(Run(a, events).value.k.worker, |Run(a, events[..n]).value.orders|, LastCheck(start, events, times),
                 Deadline(a, events, times, period, n), period)
  {
    hide *;
    var a, n := NewLink(id, nCooks), |events| - 1;
    RunLast(a, events);
    TimelyLast(start, a, events, times, period);
    var l := Run(a, events[..n]).value;
    RunReaches(id, nCooks, events[..n]);
    ActivityIsPast(start, a, events[..n], times[..n], period);
    DeliverNeedsNoQuit(l, events[n]);
    InTimeMeans(start, a, events, times, period, n);
    if l.k.exit.ByTimeout? { TimedOutLongIdle(id, nCooks, start, events[..n], times[..n], period); }
    StillOpenInLoop(l, nCooks);
    SentOnSchedule(l.k.worker, |l.orders|, LastCheck(start, events, times), times[n], period);
  }

  lemma InTimeMeans(start: nat, a: Link, events: seq<Event>, times: seq<nat>, period: nat, d: nat)
    requires |times| == |events| && d < |events| && Run(a, events[..d]).Some?
    ensures Deadline(a, events, times, period, d) == times[d] + (|Run(a, events[..d]).value.orders| + 1) * period
    ensures times[d] <= Deadline(a, events, times, period, d)
    ensures InTime(start, a, events, times, period, d) <==>
            Deadline(a, events, times, period, d) < LastActive(start, a, events[..d], times[..d]) + IDLE_TIMEOUT
  {
    hide Run, LastActive;
  }

  /** Every later event. */
  lemma SchedulesNext(
    l: Link, e: Event, nCooks: nat, place: int, active: nat, check: nat, t: nat, deadline: nat, period: nat)
    requires nCooks > 0 && Reachable(l, nCooks) && Enabled(l, e)
    requires OnSchedule(l.k.worker, place, check, deadline, period)
    requires place < |l.orders| && deadline < active + IDLE_TIMEOUT
    requires Checks(e) ==> t <= check + period
    requires e == Inside(Expire) ==> t - active >= IDLE_TIMEOUT
    ensures OnSchedule(Next(l, e).k.worker, if e.Poll? then place - 1 else place,
                       if Checks(e) then t else check, deadline, period)
  {
    hide *;
    if place < 0 {
      ReadIsOnSchedule(Next(l, e).k.worker, if e.Poll? then place - 1 else place,
                       if Checks(e) then t else check, deadline, period);
    } else {
      UnreadIsInLoop(l.k.worker, place, check, deadline, period);
      TurnEffect(l, e);
      if Checks(e) { ChecksInTime(l.k.worker, place, check, t, deadline, period); }
      if l.k.worker == IdleCheck(true) { LeavingHasRead(l, nCooks); }
      ChecksAre(e);
      KeepsSchedule(l.k.worker, Next(l, e).k.worker, e, place, check, t, deadline, period);
    }
  }

  lemma ChecksAre(e: Event)
    ensures Checks(e) <==> e == Inside(Doze) || e == Inside(Expire)
  {
  }

  lemma ReadIsOnSchedule(w: Worker, place: int, check: nat, deadline: nat, period: nat)
    requires place < 0
    ensures OnSchedule(w, place, check, deadline, period)
  {
  }

  lemma UnreadIsInLoop(w: Worker, place: int, check: nat, deadline: nat, period: nat)
    requires OnSchedule(w, place, check, deadline, period) && 0 <= place
    ensures w.InLoop()
  {
  }

  lemma PlaceMoves(a: Link, events: seq<Event>, d: nat)
    requires d < |events| && Run(a, events).Some?
    ensures var n := |events| - 1;
      && Run(a, events[..d]).Some?
      && (d == n ==> Place(a, events, d) == |Run(a, events[..n]).value.orders|)
      && (d < n ==>
            && Run(a, events[..n]).Some? && events[..n][..d] == events[..d]
            && Place(a, events, d) == Place(a, events[..n], d) - (if events[n].Poll? then 1 else 0))
    decreases |events|
  {
    hide Next, Enabled;
    var n := |events| - 1;
    if d < n {
      PlaceMoves(a, events[..n], d);
      assert events[..n][..d] == events[..d];
    }
  }

  /** The last activity only ever gets later. */
  lemma {:induction false} ActivityMovesOn(
    start: nat, a: Link, events: seq<Event>, times: seq<nat>, period: nat, d: nat)
    requires |times| == |events| && Run(a, events).Some? && Timely(start, a, events, times, period) && d <= |events|
    ensures Run(a, events[..d]).Some?
    ensures LastActive(start, a, events[..d], times[..d]) <= LastActive(start, a, events, times)
    decreases |events|
  {
    hide *;
    var n := |events| - 1;
    if d == n + 1 {
      assert events[..d] == events && times[..d] == times;
    } else {
      RunLast(a, events);
      TimelyLast(start, a, events, times, period);
      ActivityIsPast(start, a, events[..n], times[..n], period);
      ActivityMovesOn(start, a, events[..n], times[..n], period, d);
      assert events[..n][..d] == events[..d] && times[..n][..d] == times[..d];
    }
  }

  lemma SameDeadline(start: nat, a: Link, events: seq<Event>, times: seq<nat>, period: nat, d: nat)
    requires |times| == |events| && d < |events| - 1 && Run(a, events[..d]).Some?
    ensures events[..|events| - 1][..d] == events[..d] && times[..|times| - 1][..d] == times[..d]
    ensures Deadline(a, events[..|events| - 1], times[..|times| - 1], period, d) ==
            Deadline(a, events, times, period, d)
    ensures InTime(start, a, events[..|events| - 1], times[..|times| - 1], period, d) <==>
            InTime(start, a, events, times, period, d)
  {
    assert events[..|events| - 1][..d] == events[..d] && times[..|times| - 1][..d] == times[..d];
  }

  lemma {:induction false} StaysOnSchedule(
    id: nat, nCooks: nat, start: nat, events: seq<Event>, times: seq<nat>, period: nat, d: nat)
    requires nCooks > 0 && |times| == |events| && d < |events| && Run(NewLink(id, nCooks), events).Some?
    requires Timely(start, NewLink(id, nCooks), events, times, period) && events[d].Deliver?
    requires Run(NewLink(id, nCooks), events[..d]).Some? && InTime(start, NewLink(id, nCooks), events, times, period, d)
    ensures var a := NewLink(id, nCooks);
      OnSchedule(Run(a, events).value.k.worker, Place(a, events, d), LastCheck(start, events, times),
                 Deadline(a, events, times, period, d), period)
  {
    hide *;
    var a, n := NewLink(id, nCooks), |events| - 1;
    PlaceMoves(a, events, d);
    if d == n {
      SchedulesFirst(id, nCooks, start, events, times, period);
    } else {
      RunLast(a, events);
      TimelyLast(start, a, events, times, period);
      var l := Run(a, events[..n]).value;
      var active, check := LastActive(start, a, events[..n], times[..n]), LastCheck(start, events[..n], times[..n]);
      SameDeadline(start, a, events, times, period, d);
      StaysOnSchedule(id, nCooks, start, events[..n], times[..n], period, d);
      RunReaches(id, nCooks, events[..n]);
      StaysInPlace(a, events[..n], d);
      ActivityMovesOn(start, a, events[..n], times[..n], period, d);
      InTimeMeans(start, a, events, times, period, d);
      SchedulesNext(l, events[n], nCooks, Place(a, events[..n], d), active, check, times[n],
                    Deadline(a, events, times, period, d), period);
    }
  }

  /**
   A pizza that is sent in time is read: it has left the order queue before the kitchen leaves its loop, and
   until then the queue holds it in its place. So it is never stranded.
   */
  lemma SentInTimeIsRead(id: nat, nCooks: nat, start: nat, events: seq<Event>, times: seq<nat>, period: nat, d: nat)
    requires nCooks > 0 && |times| == |events| && d < |events| && Run(NewLink(id, nCooks), events).Some?
    requires Timely(start, NewLink(id, nCooks), events, times, period) && events[d].Deliver?
    requires Run(NewLink(id, nCooks), events[..d]).Some?
    requires times[d] + (|Run(NewLink(id, nCooks), events[..d]).value.orders| + 1) * period <
             LastActive(start, NewLink(id, nCooks), events[..d], times[..d]) + 5000
    ensures var l, place := Run(NewLink(id, nCooks), events).value, Place(NewLink(id, nCooks), events, d);
      0 <= place ==>
        && l.k.worker.InLoop() && place < |l.orders| && l.orders[place] == PizzaPkt(Pack(events[d].pizza))
        && (Now(start, times) <= LastCheck(start, events, times) + period ==>
              Now(start, times) <= Deadline(NewLink(id, nCooks), events, times, period, d) + period)
  {
    hide *;
    var a := NewLink(id, nCooks);
    FiveSeconds();
    InTimeMeans(start, a, events, times, period, d);
    StaysOnSchedule(id, nCooks, start, events, times, period, d);
    StaysInPlace(a, events, d);
    if Place(a, events, d) >= 0 {
      UnreadIsInLoop(Run(a, events).value.k.worker, Place(a, events, d), LastCheck(start, events, times),
                     Deadline(a, events, times, period, d), period);
      UnreadIsSoonRead(Run(a, events).value.k.worker, Place(a, events, d), LastCheck(start, events, times),
                       Now(start, times), Deadline(a, events, times, period, d), period);
    }
  }

  lemma UnreadIsSoonRead(w: Worker, place: nat, check: nat, now: nat, deadline: nat, period: nat)
    requires OnSchedule(w, place, check, deadline, period)
    ensures now <= check + period ==> now <= deadline + period
  {
    FewerPeriods(0, place, period);
    FewerPeriods(0, place + 1, period);
  }

  lemma RunPrefix(a: Link, events: seq<Event>, d: nat)
    requires d < |events| && Run(a, events).Some?
    ensures Run(a, events[..d]).Some? && Enabled(Run(a, events[..d]).value, events[d])
    decreases |events|
  {
    hide Next, Enabled;
    if d < |events| - 1 {
      RunPrefix(a, events[..|events| - 1], d);
      assert events[..|events| - 1][..d] == events[..d];
    }
  }

  lemma TimelyPrefix(start: nat, a: Link, events: seq<Event>, times: seq<nat>, period: nat, d: nat)
    requires |times| == |events| && Run(a, events).Some? && Timely(start, a, events, times, period) && d <= |events|
    ensures Run(a, events[..d]).Some? && Timely(start, a, events[..d], times[..d], period)
    decreases |events|
  {
    hide *;
    var n := |events| - 1;
    if d == n + 1 {
      assert events[..d] == events && times[..d] == times;
    } else {
      RunLast(a, events);
      TimelyLast(start, a, events, times, period);
      TimelyPrefix(start, a, events[..n], times[..n], period, d);
      assert events[..n][..d] == events[..d] && times[..n][..d] == times[..d];
    }
  }

  /** A queue to which a pizza is sent is never longer than the capacity. */
  lemma RoomForOneMore(l: Link, e: Event, nCooks: nat)
    requires nCooks > 0 && Reachable(l, nCooks) && Enabled(l, e) && e.Deliver?
    ensures |l.orders| <= 2 * nCooks
  {
    hide Reachable;
    QueuesBounded(l, nCooks);
    ReceptionLoadAccounted(l, nCooks);
    hide LinkSafety.InFlight;
  }

  lemma StartIsActivity(start: nat, a: Link, events: seq<Event>, times: seq<nat>)
    requires |times| == |events| && Run(a, events).Some?
    ensures events[..0] == [] && times[..0] == []
    ensures Run(a, []) == Some(a) && LastActive(start, a, [], []) == start
  {
  }

  lemma FewerPeriods(m: nat, n: nat, period: nat)
    requires m <= n
    ensures m * period <= n * period
  {
  }

  /**
   In the first five seconds of a kitchen's life, less a period for each packet that may be queued, every pizza
   is in time.
   */
  lemma EarlyIsInTime(id: nat, nCooks: nat, start: nat, events: seq<Event>, times: seq<nat>, period: nat, d: nat)
    requires nCooks > 0 && |times| == |events| && d < |events| && Run(NewLink(id, nCooks), events).Some?
    requires Timely(start, NewLink(id, nCooks), events, times, period) && events[d].Deliver?
    requires times[d] + (2 * nCooks + 1) * period < start + 5000
    ensures Run(NewLink(id, nCooks), events[..d]).Some? && InTime(start, NewLink(id, nCooks), events, times, period, d)
  {
    hide *;
    var a := NewLink(id, nCooks);
    FiveSeconds();
    RunPrefix(a, events, d);
    var l := Run(a, events[..d]).value;
    RunReaches(id, nCooks, events[..d]);
    RoomForOneMore(l, events[d], nCooks);
    ActivityMovesOn(start, a, events, times, period, d);
    TimelyPrefix(start, a, events, times, period, d);
    ActivityMovesOn(start, a, events[..d], times[..d], period, 0);
    StartIsActivity(start, a, events[..d], times[..d]);
    InTimeMeans(start, a, events, times, period, d);
    FewerPeriods(|l.orders| + 1, 2 * nCooks + 1, period);
  }

  // ------------------------------------------------------------ a moment too late

  /** An idle kitchen polls until this time, at most a period apart, and is as it was. */
  lemma {:induction false} IdleUntil(nCooks: nat, t: nat, period: nat) returns (events: seq<Event>, times: seq<nat>)
    requires 0 < period && t < IDLE_TIMEOUT
    ensures |times| == |events| && Run(NewLink(0, nCooks), events) == Some(NewLink(0, nCooks))
    ensures Timely(0, NewLink(0, nCooks), events, times, period)
    ensures LastCheck(0, events, times) == Now(0, times) == t && LastActive(0, NewLink(0, nCooks), events, times) == 0
    decreases t
  {
    var a := NewLink(0, nCooks);
    if t == 0 {
      events, times := [], [];
    } else {
      hide Timely, LastActive, LastCheck, Now;
      events, times := IdleUntil(nCooks, if t > period then t - period else 0, period);
      events, times := OneTurn(nCooks, events, times, t, period);
    }
  }

  lemma More(start: nat, a: Link, events: seq<Event>, times: seq<nat>, period: nat, e: Event, t: nat)
    requires |times| == |events| && Run(a, events).Some? && Timely(start, a, events, times, period)
    requires Enabled(Run(a, events).value, e) && t >= Now(start, times)
    requires Checks(e) ==> t <= LastCheck(start, events, times) + period
    requires e == Inside(Expire) ==> t - LastActive(start, a, events, times) >= IDLE_TIMEOUT
    requires e == Inside(Doze) ==> t - LastActive(start, a, events, times) < IDLE_TIMEOUT
    ensures Run(a, events + [e]) == Some(Next(Run(a, events).value, e))
    ensures Timely(start, a, events + [e], times + [t], period) && Now(start, times + [t]) == t
    ensures LastCheck(start, events + [e], times + [t]) == if Checks(e) then t else LastCheck(start, events, times)
    ensures !Admits(e) && (Checks(e) ==> Run(a, events).value.k.pool.load == 0) ==>
      LastActive(start, a, events + [e], times + [t]) == LastActive(start, a, events, times)
  {
    hide Next, Enabled;
    assert (events + [e])[..|events|] == events && (times + [t])[..|times|] == times;
  }

  lemma OneTurn(nCooks: nat, events: seq<Event>, times: seq<nat>, t: nat, period: nat)
    returns (events': seq<Event>, times': seq<nat>)
    requires |times| == |events| && Run(NewLink(0, nCooks), events) == Some(NewLink(0, nCooks))
    requires Timely(0, NewLink(0, nCooks), events, times, period)
    requires LastCheck(0, events, times) == Now(0, times) <= t <= Now(0, times) + period
    requires t < IDLE_TIMEOUT && LastActive(0, NewLink(0, nCooks), events, times) == 0
    ensures |times'| == |events'| && Run(NewLink(0, nCooks), events') == Some(NewLink(0, nCooks))
    ensures Timely(0, NewLink(0, nCooks), events', times', period)
    ensures LastCheck(0, events', times') == Now(0, times') == t
    ensures LastActive(0, NewLink(0, nCooks), events', times') == 0
  {
    hide Timely, LastActive, LastCheck, Now, Run;
    var a := NewLink(0, nCooks);
    More(0, a, events, times, period, Poll, t);
    More(0, a, events + [Poll], times + [t], period, Inside(Doze), t);
    events', times' := events + [Poll] + [Inside(Doze)], times + [t] + [t];
  }

  /**
   The condition cannot be relaxed: whatever the period, a pizza whose deadline is the very moment at which the
   timeout can expire may be stranded.
   */
  lemma OnTheDotIsTooLate(nCooks: nat, period: nat) returns (events: seq<Event>, times: seq<nat>, d: nat)
    requires 0 < period <= IDLE_TIMEOUT && nCooks > 0
    ensures |times| == |events| && d < |events| && Run(NewLink(0, nCooks), events).Some?
    ensures Timely(0, NewLink(0, nCooks), events, times, period) && events[d] == Deliver(ANY)
    ensures Run(NewLink(0, nCooks), events[..d]).Some?
    ensures Deadline(NewLink(0, nCooks), events, times, period, d) ==
            LastActive(0, NewLink(0, nCooks), events[..d], times[..d]) + 5000
    ensures Stranded(Just(ANY), Run(NewLink(0, nCooks), events).value) == 1
  {
    hide *;
    FiveSeconds();
    var a, t := NewLink(0, nCooks), IDLE_TIMEOUT - period;
    events, times := IdleUntil(nCooks, t, period);
    PollsNothing(nCooks);
    More(0, a, events, times, period, Poll, t);
    var before, past := events + [Poll], times + [t];
    d := |before|;
    Unaware(nCooks);
    More(0, a, before, past, period, Deliver(ANY), t);
    events, times := before + [Deliver(ANY)], past + [t];
    More(0, a, events, times, period, Inside(Expire), IDLE_TIMEOUT);
    events, times := events + [Inside(Expire)], times + [IDLE_TIMEOUT];
    assert events[..d] == before && times[..d] == past;
    InTimeMeans(0, a, events, times, period, d);
    NoMoreThanOnePeriod(period);
    OneStranded(Run(a, events).value);
  }

  /** A new kitchen that has polled in vain. */
  ghost function Vain(nCooks: nat): Link {
    NewLink(0, nCooks).(k := NewKitchen(nCooks).(worker := IdleCheck(false)))
  }

  lemma PollsNothing(nCooks: nat)
    ensures Enabled(NewLink(0, nCooks), Poll) && Next(NewLink(0, nCooks), Poll) == Vain(nCooks)
    ensures !Checks(Poll) && !Admits(Poll)
  {
  }

  /** It does not see what is sent to it before it gives up. */
  lemma Unaware(nCooks: nat)
    requires nCooks > 0
    ensures Vain(nCooks).orders == [] && Enabled(Vain(nCooks), Deliver(ANY))
    ensures !Checks(Deliver(ANY)) && !Admits(Deliver(ANY)) && Checks(Inside(Expire)) && !Admits(Inside(Expire))
    ensures var l := Next(Vain(nCooks), Deliver(ANY));
      && l.k.pool.load == 0 && Enabled(l, Inside(Expire))
      && Next(l, Inside(Expire)).k.exit.ByTimeout? && Next(l, Inside(Expire)).orders == [PizzaPkt(Pack(ANY))]
  {
    hide AllAvailable, Needs, Without, Slumber, Pack;
  }

  lemma OneStranded(l: Link)
    requires l.k.exit.ByTimeout? && l.orders == [PizzaPkt(Pack(ANY))]
    ensures Stranded(Just(ANY), l) == 1
  {
    SumAppend([], PizzaPkt(Pack(ANY)), PizzaIn(Just(ANY)));
    assert [] + l.orders == l.orders;
  }

  lemma NoMoreThanOnePeriod(period: nat)
    ensures (0 + 1) * period == period
  {
  }
}
