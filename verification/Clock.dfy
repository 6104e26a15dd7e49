/**
 The idle timeout on the kitchen machine: runs whose events carry the time, a main thread
 that keeps the last time of activity, and what a timeout says about the load in between.
 */
module Clock {
  import opened Menu
  import opened Kitchen
  import opened Protocol
  import opened LinkTheorems
  import opened Refusals
  import opened KitchenLoop

  /** The idle check at the end of each turn of the main loop. */
  predicate Checks(e: Event) {
    e == Inside(Doze) || e == Inside(Expire)
  }

  /** addPizza has returned true. */
  predicate Admits(e: Event) {
    e.Inside? && e.m.AddNotify?
  }

  /** The last time of activity, as the main thread keeps it. */
  ghost function LastActive(start: nat, a: Link, events: seq<Event>, times: seq<nat>): nat
    requires |times| == |events| && Run(a, events).Some?
  {
    if events == [] then start
    else
      var n := |events| - 1;
      if Admits(events[n]) || (Checks(events[n]) && Run(a, events[..n]).value.k.pool.load > 0) then times[n]
      else LastActive(start, a, events[..n], times[..n])
  }

  /** The time of the last idle check. */
  ghost function LastCheck(start: nat, events: seq<Event>, times: seq<nat>): nat
    requires |times| == |events|
  {
    if events == [] then start
    else
      var n := |events| - 1;
      if Checks(events[n]) then times[n] else LastCheck(start, events[..n], times[..n])
  }

  /**
   A run by the clock. Time does not go back; no more than a period passes from one check to the
   next; and a check that finds no load expires exactly if the last activity is five seconds ago.
   */
  ghost predicate Timely(start: nat, a: Link, events: seq<Event>, times: seq<nat>, period: nat)
    requires |times| == |events| && Run(a, events).Some?
  {
    events == [] ||
    (var n := |events| - 1;
     var l := Run(a, events[..n]).value;
     var idleFor := times[n] - LastActive(start, a, events[..n], times[..n]);
     && Timely(start, a, events[..n], times[..n], period)
     && times[n] >= (if n == 0 then start else times[n - 1])
     && (Checks(events[n]) ==> times[n] <= LastCheck(start, events[..n], times[..n]) + period)
     && (events[n] == Inside(Expire) ==> idleFor >= IDLE_TIMEOUT)
     && (events[n] == Inside(Doze) && l.k.pool.load == 0 && !l.k.worker.leaving ==> idleFor < IDLE_TIMEOUT))
  }

  // ------------------------------------------------------------- how late it closes

  lemma {:induction false} ActivityIsPast(start: nat, a: Link, events: seq<Event>, times: seq<nat>, period: nat)
    requires |times| == |events| && Run(a, events).Some? && Timely(start, a, events, times, period)
    ensures LastActive(start, a, events, times) <= Now(start, times)
    ensures LastCheck(start, events, times) <= Now(start, times)
  {
    hide Next, Enabled;
    if events != [] {
      var n := |events| - 1;
      ActivityIsPast(start, a, events[..n], times[..n], period);
    }
  }

  function Now(start: nat, times: seq<nat>): nat {
    if times == [] then start else times[|times| - 1]
  }

  lemma RunLast(a: Link, events: seq<Event>)
    requires Run(a, events).Some? && events != []
    ensures var n := |events| - 1;
      && Run(a, events[..n]).Some? && Enabled(Run(a, events[..n]).value, events[n])
      && Run(a, events).value == Next(Run(a, events[..n]).value, events[n])
  {
    hide Next, Enabled;
  }

  /** What the last event of a run by the clock did. */
  lemma TimelyLast(start: nat, a: Link, events: seq<Event>, times: seq<nat>, period: nat)
    requires |times| == |events| > 0 && Run(a, events).Some? && Timely(start, a, events, times, period)
    ensures var n := |events| - 1;
      var l, e, t := Run(a, events[..n]).value, events[n], times[n];
      var active, check := LastActive(start, a, events[..n], times[..n]), LastCheck(start, events[..n], times[..n]);
      && Timely(start, a, events[..n], times[..n], period) && t >= Now(start, times[..n])
      && (Checks(e) ==> t <= check + period)
      && (e == Inside(Expire) ==> t - active >= IDLE_TIMEOUT)
      && (e == Inside(Doze) && l.k.pool.load == 0 && !l.k.worker.leaving ==> t - active < IDLE_TIMEOUT)
      && LastActive(start, a, events, times) == (if Admits(e) || (Checks(e) && l.k.pool.load > 0) then t else active)
      && LastCheck(start, events, times) == if Checks(e) then t else check
  {
    hide Next, Enabled;
  }

  lemma {:induction false} ChecksKeepUp(start: nat, a: Link, events: seq<Event>, times: seq<nat>, period: nat)
    requires |times| == |events| && Run(a, events).Some? && Timely(start, a, events, times, period)
    requires Run(a, events).value.k.worker.InLoop()
    ensures LastCheck(start, events, times) < LastActive(start, a, events, times) + IDLE_TIMEOUT
  {
    hide *;
    if events == [] {
      assert times == [];
      NothingYet(start, a);
    } else {
      RunLast(a, events);
      TimelyLast(start, a, events, times, period);
      var n := |events| - 1;
      var l := Run(a, events[..n]).value;
      ActivityIsPast(start, a, events[..n], times[..n], period);
      StillInLoop(l, events[n]);
      ChecksKeepUp(start, a, events[..n], times[..n], period);
      KeepingUp(l, events[n], times[n],
                LastActive(start, a, events[..n], times[..n]), LastCheck(start, events[..n], times[..n]));
    }
  }

  lemma NothingYet(start: nat, a: Link)
    ensures LastCheck(start, [], []) == LastActive(start, a, [], []) == start < start + IDLE_TIMEOUT
  {
  }

  lemma KeepingUp(l: Link, e: Event, t: nat, active: nat, check: nat)
    requires e != Inside(Expire) && (e == Inside(Doze) ==> !l.k.worker.IdleCheck? || !l.k.worker.leaving)
    requires e == Inside(Doze) && l.k.pool.load == 0 && !(l.k.worker.IdleCheck? && l.k.worker.leaving) ==>
               t - active < IDLE_TIMEOUT
    requires check < active + IDLE_TIMEOUT && active <= t && check <= t
    ensures (if Checks(e) then t else check) <
            (if Admits(e) || (Checks(e) && l.k.pool.load > 0) then t else active) + IDLE_TIMEOUT
  {
  }

  lemma StillInLoop(l: Link, e: Event)
    requires Enabled(l, e) && Next(l, e).k.worker.InLoop()
    ensures l.k.worker.InLoop()
    ensures e == Inside(Doze) ==> !l.k.worker.leaving
    ensures e != Inside(Expire)
  {
    if e.Inside? {
      MoveStaysInLoop(l.k, e.m);
      hide Can, Do;
    } else {
      hide NarrowStock, Handled;
    }
  }

  lemma MoveStaysInLoop(k: Kitchen, m: Move)
    requires Can(k, m) && Do(k, m).worker.InLoop()
    ensures k.worker.InLoop() && m != Expire && (m == Doze ==> !k.worker.leaving)
  {
    if m.OfCook() {
      hide AllAvailable, Needs, Without;
    } else {
      hide Slumber, WakeAll, FeedAll, Regenerated, IsFull;
    }
  }

  /** A kitchen times out less than five seconds and a period after its last activity. */
  lemma TimeoutIsPrompt(start: nat, a: Link, events: seq<Event>, times: seq<nat>, period: nat)
    requires |times| == |events| > 0 && Run(a, events).Some? && Timely(start, a, events, times, period)
    requires events[|events| - 1] == Inside(Expire)
    ensures var idleFor := times[|events| - 1] - LastActive(start, a, events, times);
      5000 <= idleFor < 5000 + period
  {
    var n := |events| - 1;
    ExpiresInLoop(Run(a, events[..n]).value);
    hide Next, Enabled;
    ChecksKeepUp(start, a, events[..n], times[..n], period);
  }

  lemma ExpiresInLoop(l: Link)
    requires Enabled(l, Inside(Expire))
    ensures l.k.worker.InLoop() && l.k.pool.load == 0
  {
  }

  /**
   And one that is still open has not been idle for longer than that: while its next check is not overdue, the
   last activity is less than five seconds and a period ago.
   */
  lemma OpenIsRecentlyActive(start: nat, a: Link, events: seq<Event>, times: seq<nat>, period: nat)
    requires |times| == |events| && Run(a, events).Some? && Timely(start, a, events, times, period)
    requires Run(a, events).value.k.worker.InLoop() && Now(start, times) <= LastCheck(start, events, times) + period
    ensures Now(start, times) < LastActive(start, a, events, times) + 5000 + period
  {
    hide Next, Enabled;
    ChecksKeepUp(start, a, events, times, period);
  }

  // ------------------------------------------------- what it says about the load

  /** Where the main thread's present view of an idle kitchen goes back to, if it has one. */
  ghost function Mark(a: Link, events: seq<Event>): Option<nat>
    requires Run(a, events).Some?
  {
    if events == [] then Some(0)
    else
      var n := |events| - 1;
      var before := Mark(a, events[..n]);
      if events[n] == Inside(AddCount) then None
      else if !Checks(events[n]) then before
      else if Run(a, events[..n]).value.k.pool.load > 0 then None
      else if before.None? then Some(n)
      else before
  }

  /** The pool's load is zero in every state of the run from this one on. */
  ghost predicate IdleFrom(a: Link, events: seq<Event>, j: nat) {
    forall i :: j <= i <= |events| ==> Run(a, events[..i]).Some? && Run(a, events[..i]).value.k.pool.load == 0
  }

  /** When the run was in this state: at the start, or when the event after it came. */
  function TimeOf(start: nat, times: seq<nat>, j: nat): nat
    requires j < |times| || j == 0
  {
    if j == 0 then start else times[j]
  }

  lemma MoreIdle(a: Link, events: seq<Event>, j: nat)
    requires events != [] && Run(a, events).Some? && Run(a, events).value.k.pool.load == 0
    requires IdleFrom(a, events[..|events| - 1], j)
    ensures IdleFrom(a, events, j)
  {
    hide Run;
    var n := |events| - 1;
    forall i | j <= i <= |events| ensures Run(a, events[..i]).Some? && Run(a, events[..i]).value.k.pool.load == 0 {
      if i <= n {
        assert events[..n][..i] == events[..i];
      } else {
        assert events[..i] == events;
      }
    }
  }

  lemma IdleHere(a: Link, events: seq<Event>, n: nat)
    requires n + 1 == |events| && Run(a, events).Some? && Run(a, events[..n]).Some?
    requires Run(a, events[..n]).value.k.pool.load == 0 && Run(a, events).value.k.pool.load == 0
    ensures IdleFrom(a, events, n)
  {
    hide Run;
    assert events[..n + 1] == events;
  }

  /** What the main thread knows between its checks. */
  ghost predicate Informed(start: nat, a: Link, events: seq<Event>, times: seq<nat>, period: nat)
    requires |times| == |events| && Run(a, events).Some?
  {
    match Mark(a, events)
    case Some(j) =>
      && (j == 0 || j < |events|) && IdleFrom(a, events, j) && !Run(a, events).value.k.worker.AddNotifying?
      && TimeOf(start, times, j) <= LastActive(start, a, events, times) + period
    case None =>
      Run(a, events).value.k.worker.AddNotifying?
      || LastCheck(start, events, times) <= LastActive(start, a, events, times)
  }

  lemma Notifying(l: Link, e: Event)
    requires Enabled(l, e)
    ensures Next(l, e).k.worker.AddNotifying? <==> e == Inside(AddCount) || (l.k.worker.AddNotifying? && !Admits(e))
    ensures Admits(e) ==> l.k.worker.AddNotifying?
    ensures Checks(e) ==> !l.k.worker.AddNotifying? && Next(l, e).k.pool.load == l.k.pool.load
  {
    if e.Inside? {
      MoveNotifying(l.k, e.m);
      hide Can, Do;
    } else {
      hide NarrowStock, Handled;
    }
  }

  lemma MoveNotifying(k: Kitchen, m: Move)
    requires Can(k, m)
    ensures Do(k, m).worker.AddNotifying? <==> m == AddCount || (k.worker.AddNotifying? && !m.AddNotify?)
    ensures m.AddNotify? ==> k.worker.AddNotifying?
    ensures m.Doze? || m.Expire? ==> !k.worker.AddNotifying? && Do(k, m).pool.load == k.pool.load
  {
    if m.OfCook() {
      hide AllAvailable, Needs, Without;
    } else {
      hide Slumber, WakeAll, FeedAll, Regenerated, IsFull;
    }
  }

  lemma {:induction false} StaysInformed(
    id: nat, nCooks: nat, start: nat, events: seq<Event>, times: seq<nat>, period: nat)
    requires nCooks > 0 && |times| == |events| && Run(NewLink(id, nCooks), events).Some?
    requires Timely(start, NewLink(id, nCooks), events, times, period)
    ensures Informed(start, NewLink(id, nCooks), events, times, period)
  {
    var a := NewLink(id, nCooks);
    if events == [] {
      assert IdleFrom(a, events, 0);
    } else {
      hide Next, Enabled, NewLink, IdleFrom;
      var n := |events| - 1;
      var front := events[..n];
      StaysInformed(id, nCooks, start, front, times[..n], period);
      var l := Run(a, front).value;
      RunReaches(id, nCooks, front);
      OnlyAcceptanceRaisesLoad(l, events[n], nCooks);
      Notifying(l, events[n]);
      ActivityIsPast(start, a, front, times[..n], period);
      match Mark(a, events) {
        case Some(j) =>
          if Mark(a, front).Some? { IdleNow(a, front, j); MoreIdle(a, events, j); } else { IdleHere(a, events, n); }
        case None =>
      }
    }
  }

  lemma IdleNow(a: Link, events: seq<Event>, j: nat)
    requires IdleFrom(a, events, j) && j <= |events|
    ensures Run(a, events).Some? && Run(a, events).value.k.pool.load == 0
  {
    hide Run;
    assert events[..|events|] == events;
  }

  /**
   A kitchen that times out has been without work for five seconds less one period of its
   loop: in every state of the run since then its pool's load was zero, and it accepted nothing.
   */
  lemma TimeoutMeansIdle(
    id: nat, nCooks: nat, start: nat, events: seq<Event>, times: seq<nat>, period: nat) returns (j: nat)
    requires nCooks > 0 && |times| == |events| > 0 && Run(NewLink(id, nCooks), events).Some?
    requires Timely(start, NewLink(id, nCooks), events, times, period) && events[|events| - 1] == Inside(Expire)
    ensures j < |events| && IdleFrom(NewLink(id, nCooks), events, j)
    ensures forall i :: j <= i < |events| ==> events[i] != Inside(AddCount)
    ensures times[|events| - 1] - TimeOf(start, times, j) >= 5000 - period
  {
    hide Next, Enabled, NewLink, IdleFrom;
    var a, n := NewLink(id, nCooks), |events| - 1;
    StaysInformed(id, nCooks, start, events, times, period);
    assert Run(a, events[..n]).value.k.pool.load == 0 by { ExpiresInLoop(Run(a, events[..n]).value); }
    j := Mark(a, events).value;
    forall i | j <= i < |events| ensures events[i] != Inside(AddCount) {
      NothingCounted(a, events, i, j);
    }
  }

  lemma NothingCounted(a: Link, events: seq<Event>, i: nat, j: nat)
    requires j <= i < |events| && IdleFrom(a, events, j)
    ensures events[i] != Inside(AddCount)
  {
    var longer := events[..i + 1];
    assert Run(a, longer).Some? && Run(a, longer).value.k.pool.load == 0;
    assert longer[..i] == events[..i];
  }
}
