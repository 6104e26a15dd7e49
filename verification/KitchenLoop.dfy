/**
 The main loop of a kitchen process and its idle timeout. What a turn of the loop finds
 out from elsewhere - the packet received, whether the pool had room, the clock, the
 pool's load, a sample of stock and cooks - is recorded in a Turn.
 */
module KitchenLoop {
  import opened Menu
  import opened Kitchen
  import opened Protocol

  const IDLE_TIMEOUT := 5000  // milliseconds

  datatype Sample = Sample(load: nat, stock: Stock, busy: seq<bool>)

  /** One turn: `heardAt` is the clock after addPizza, `now` the clock at the idle check. */
  datatype Turn = Turn(order: Option<Packet>, room: bool, heardAt: nat, sample: Sample, idle: bool, now: nat)

  predicate Accepts(t: Turn) {
    t.order.Some? && t.order.value.PizzaPkt? && t.room
  }

  predicate ToldToStop(t: Turn) {
    t.order == Some(ShutdownPkt)
  }

  // -------------------------------------------------------- what a run amounts to

  /** The last time of activity, after so many turns. */
  function ActiveAfter(start: nat, turns: seq<Turn>, n: nat): nat
    requires n <= |turns|
  {
    if n == 0 then start
    else
      var t := turns[n - 1];
      if !t.idle then t.now
      else if Accepts(t) then t.heardAt
      else ActiveAfter(start, turns, n - 1)
  }

  /** Turn n finds the kitchen idle, and idle for long enough. */
  predicate TimesOut(start: nat, turns: seq<Turn>, n: nat)
    requires n < |turns|
  {
    turns[n].idle && turns[n].now - ActiveAfter(start, turns, n + 1) >= IDLE_TIMEOUT
  }

  predicate Ends(start: nat, turns: seq<Turn>, n: nat)
    requires n < |turns|
  {
    ToldToStop(turns[n]) || TimesOut(start, turns, n)
  }

  /** A status report: one entry for each cook, in order, and the reply last. */
  function Report(nCooks: nat, s: Sample): seq<Packet> {
    seq(|s.busy|, i requires 0 <= i < |s.busy| => CookPkt(CookReport(Narrow(i), s.busy[i])))
    + [StatusReplyPkt(Narrow(s.load), Narrow(2 * nCooks), NarrowStock(s.stock))]
  }

  /** What the main thread answers to the packet of one turn. */
  function Answer(nCooks: nat, t: Turn): seq<Packet> {
    match t.order
    case Some(PizzaPkt(slip)) => if t.room then [] else [FullPkt(slip)]
    case Some(StatusRequestPkt) => Report(nCooks, t.sample)
    case _ => []
  }

  function Spoken(nCooks: nat, turns: seq<Turn>): seq<Packet> {
    if turns == [] then [] else Spoken(nCooks, turns[..|turns| - 1]) + Answer(nCooks, turns[|turns| - 1])
  }

  lemma NothingSpoken(nCooks: nat)
    ensures Spoken(nCooks, []) == []
  {
  }

  lemma SpokenMore(nCooks: nat, turns: seq<Turn>, n: nat)
    requires n < |turns|
    ensures Spoken(nCooks, turns[..n + 1]) == Spoken(nCooks, turns[..n]) + Answer(nCooks, turns[n])
    ensures turns[n].order.None? || ToldToStop(turns[n]) ==> Spoken(nCooks, turns[..n + 1]) == Spoken(nCooks, turns[..n])
  {
    assert turns[..n + 1][..n] == turns[..n];
  }

  // --------------------------------------------------------------- the timeout

  /** The clock never goes back. */
  ghost predicate Monotone(start: nat, turns: seq<Turn>) {
    && (forall i :: 0 <= i < |turns| ==> start <= turns[i].heardAt <= turns[i].now)
    && (forall i, j :: 0 <= i < j < |turns| ==> turns[i].now <= turns[j].heardAt)
  }

  /** No more than `period` passes from one idle check to the next. */
  ghost predicate Periodic(start: nat, turns: seq<Turn>, period: nat) {
    && (turns != [] ==> turns[0].now <= start + period)
    && (forall i :: 0 < i < |turns| ==> turns[i].now <= turns[i - 1].now + period)
  }

  /** From turn j to turn n the pool's load was found zero each time, and nothing was accepted after turn j. */
  ghost predicate QuietBetween(turns: seq<Turn>, j: nat, n: nat)
    requires n < |turns|
  {
    (forall i :: j <= i <= n ==> turns[i].idle) && (forall i :: j < i <= n ==> !Accepts(turns[i]))
  }

  /** The quiet spell that ends with an idle turn goes back to the last time of activity. */
  lemma {:induction false} QuietSince(start: nat, turns: seq<Turn>, n: nat, period: nat) returns (j: nat)
    requires n < |turns| && turns[n].idle && Monotone(start, turns) && Periodic(start, turns, period)
    ensures j <= n && QuietBetween(turns, j, n)
    ensures ActiveAfter(start, turns, n + 1) <= turns[j].now <= ActiveAfter(start, turns, n + 1) + period
  {
    if Accepts(turns[n]) {
      j := n;
      assert ActiveAfter(start, turns, n + 1) == turns[n].heardAt;
      HeardInTime(start, turns, n, period);
    } else if n == 0 {
      j := n;
      assert ActiveAfter(start, turns, 1) == ActiveAfter(start, turns, 0) == start;
      assert start <= turns[0].heardAt;
    } else if !turns[n - 1].idle {
      j := n;
      assert ActiveAfter(start, turns, n + 1) == ActiveAfter(start, turns, n) == turns[n - 1].now;
      assert turns[n - 1].now <= turns[n].heardAt;
    } else {
      j := QuietSince(start, turns, n - 1, period);
      assert ActiveAfter(start, turns, n + 1) == ActiveAfter(start, turns, n);
    }
  }

  lemma HeardInTime(start: nat, turns: seq<Turn>, n: nat, period: nat)
    requires n < |turns| && Monotone(start, turns) && Periodic(start, turns, period)
    ensures turns[n].heardAt <= turns[n].now <= turns[n].heardAt + period
  {
    if n == 0 {
      assert start <= turns[0].heardAt;
    } else {
      assert turns[n - 1].now <= turns[n].heardAt;
    }
  }

  /**
   A kitchen that times out had no load at any check, and accepted no pizza, for five seconds less
   one period of the loop; and only acceptance ever raises the load (LinkTheorems.OnlyAcceptanceRaisesLoad).
   */
  lemma TimeoutMeansQuiet(start: nat, turns: seq<Turn>, n: nat, period: nat) returns (j: nat)
    requires n < |turns| && TimesOut(start, turns, n) && Monotone(start, turns) && Periodic(start, turns, period)
    ensures j <= n && QuietBetween(turns, j, n)
    ensures turns[n].now - turns[j].now >= 5000 - period
  {
    j := QuietSince(start, turns, n, period);
  }

  lemma {:induction false} ActivityStays(start: nat, turns: seq<Turn>, m: nat, n: nat)
    requires m <= n <= |turns|
    requires forall i :: m <= i < n ==> turns[i].idle && !Accepts(turns[i])
    ensures ActiveAfter(start, turns, n) == ActiveAfter(start, turns, m)
  {
    if m < n { ActivityStays(start, turns, m, n - 1); }
  }

  /**
   Without further activity a kitchen times out at the first check that comes five
   seconds or more after the last activity: not before, and less than one period later.
   */
  lemma {:induction false} ClosesInTime(start: nat, turns: seq<Turn>, m: nat, n: nat, period: nat)
    requires m <= n < |turns| && Monotone(start, turns) && Periodic(start, turns, period)
    requires forall i :: m <= i <= n ==> turns[i].idle && !Accepts(turns[i]) && !ToldToStop(turns[i])
    requires m > 0 ==> turns[m - 1].now - ActiveAfter(start, turns, m) < 5000
    requires forall i :: m <= i < n ==> !Ends(start, turns, i)
    ensures Ends(start, turns, n) <==> turns[n].now - ActiveAfter(start, turns, m) >= 5000
    ensures turns[n].now - ActiveAfter(start, turns, m) < 5000 + period
  {
    ActivityStays(start, turns, m, n + 1);
    if n > m {
      ActivityStays(start, turns, m, n);
      assert !Ends(start, turns, n - 1);
    }
  }

  // ------------------------------------------------------------------ the class

  /** The kitchen process's main thread; `results` is what it has put on the result queue. */
  class KitchenWorker {
    const nCooks: nat
    var lastActiveTime: nat
    var results: seq<Packet>

    constructor (nCooks: nat)
      ensures this.nCooks == nCooks && results == []
    {
      this.nCooks := nCooks;
      results := [];
    }

    method SendStatusResponse(s: Sample)
      modifies this`results
      ensures results == old(results) + Report(nCooks, s)
    {
      var reply := StatusReplyPkt(Narrow(s.load), Narrow(2 * nCooks), NarrowStock(s.stock));
      ghost var entries := seq(|s.busy|, i requires 0 <= i < |s.busy| => CookPkt(CookReport(Narrow(i), s.busy[i])));
      for i := 0 to |s.busy|
        invariant results == old(results) + entries[..i]
      {
        assert entries[..i + 1] == entries[..i] + [entries[i]];
        results := results + [CookPkt(CookReport(Narrow(i), s.busy[i]))];
      }
      assert entries[..|s.busy|] == entries;
      results := results + [reply];
    }

    method HandlePacket(t: Turn)
      requires t.order.Some?
      modifies this
      ensures results == old(results) + Answer(nCooks, t)
      ensures lastActiveTime == if Accepts(t) then t.heardAt else old(lastActiveTime)
    {
      match t.order.value {
        case PizzaPkt(slip) =>
          if !t.room {
            results := results + [FullPkt(slip)];
          } else {
            lastActiveTime := t.heardAt;
          }
        case StatusRequestPkt => SendStatusResponse(t.sample);
        case _ =>
      }
    }

    /**
     The loop, as far as the given turns go. It leaves at the first turn that ends it; its
     Shutdown is the last thing it says.
     */
    method Run(start: nat, turns: seq<Turn>) returns (n: nat, exit: Exit)
      requires results == []
      modifies this
      ensures n <= |turns|
      ensures exit.StillOpen? ==> n == |turns| && results == Spoken(nCooks, turns)
      ensures !exit.StillOpen? ==> n > 0 && Ends(start, turns, n - 1)
      ensures !exit.StillOpen? ==> results == Spoken(nCooks, turns[..n]) + [ShutdownPkt]
      ensures !exit.StillOpen? ==> (exit.ByShutdown? <==> ToldToStop(turns[n - 1]))
      ensures forall i :: 0 <= i < (if exit.StillOpen? then n else n - 1) ==> !Ends(start, turns, i)
      ensures lastActiveTime == ActiveAfter(start, turns, n)
      ensures exit.ByTimeout? ==> turns[n - 1].idle && turns[n - 1].now - lastActiveTime >= 5000
      ensures forall i :: 0 <= i < (if exit.StillOpen? then n else n - 1) && turns[i].idle ==>
        turns[i].order != Some(ShutdownPkt) && turns[i].now - ActiveAfter(start, turns, i + 1) < 5000
    {
      hide Answer, Report, Spoken;
      assert Spoken(nCooks, turns[..0]) == [] by { NothingSpoken(nCooks); }
      lastActiveTime := start;
      var running := true;
      n, exit := 0, StillOpen;
      while running && n < |turns|
        invariant n <= |turns|
        invariant running <==> exit.StillOpen?
        invariant lastActiveTime == ActiveAfter(start, turns, n)
        invariant results == Spoken(nCooks, turns[..n])
        invariant running ==> forall i :: 0 <= i < n ==> !Ends(start, turns, i)
        invariant !running ==> n > 0 && Ends(start, turns, n - 1) && (exit.ByShutdown? <==> ToldToStop(turns[n - 1]))
        invariant !running ==> forall i :: 0 <= i < n - 1 ==> !Ends(start, turns, i)
        decreases |turns| - n
      {
        var t := turns[n];
        SpokenMore(nCooks, turns, n);
        if t.order.Some? {
          if t.order.value.ShutdownPkt? {
            running, exit := false, ByShutdown;
          } else {
            HandlePacket(t);
          }
        }
        if t.idle {
          if t.now - lastActiveTime >= IDLE_TIMEOUT {
            running := false;
            if exit.StillOpen? { exit := ByTimeout; }
          }
        } else {
          lastActiveTime := t.now;
        }
        n := n + 1;
      }
      assert turns[..|turns|] == turns;
      forall i | 0 <= i < (if exit.StillOpen? then n else n - 1) && turns[i].idle
        ensures turns[i].order != Some(ShutdownPkt) && turns[i].now - ActiveAfter(start, turns, i + 1) < 5000
      {
        assert !Ends(start, turns, i);
      }
      if !running {
        results := results + [ShutdownPkt];
      }
    }
  }
}
