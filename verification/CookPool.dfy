/**
 The thread pool's own state, updated in place. Each method is one locked section, or
 the atomic decrement after it; the kitchen whose thread performs it is a ghost
 parameter, which ties the section to the moves of the kitchen machine. Cooks may execute
 their decrements in between the statements of addPizza, since these do not take the mutex.
 */
module CookPool {
  import opened Menu
  import opened Kitchen

  /** The kitchen after these cooks have executed --_load, one after the other, if they can. */
  ghost function Settling(k: Kitchen, ids: seq<nat>): Option<Kitchen> {
    if ids == [] then Some(k)
    else
      var before := Settling(k, ids[..|ids| - 1]);
      var m := Move.Settle(ids[|ids| - 1]);
      if before.Some? && CanCook(before.value, m) then Some(DoCook(before.value, m)) else None
  }

  lemma {:induction false} SettlingKeeps(k: Kitchen, ids: seq<nat>)
    requires Settling(k, ids).Some?
    ensures var k' := Settling(k, ids).value;
      && k'.worker == k.worker && |k'.cooks| == |k.cooks| && k'.pool == k.pool.(load := k'.pool.load)
    ensures forall n :: 0 <= n <= |ids| ==> Settling(k, ids[..n]).Some?
  {
    if ids != [] {
      var front := ids[..|ids| - 1];
      SettlingKeeps(k, front);
      forall n | 0 <= n <= |ids| ensures Settling(k, ids[..n]).Some? {
        if n < |ids| { assert front[..n] == ids[..n]; } else { assert ids[..n] == ids; }
      }
    }
  }

  lemma SettlingNext(k: Kitchen, ids: seq<nat>, n: nat)
    requires Settling(k, ids).Some? && n < |ids|
    ensures Settling(k, ids[..n]).Some? && Settling(k, ids[..n + 1]).Some?
    ensures var a, b := Settling(k, ids[..n]).value, Settling(k, ids[..n + 1]).value;
      b.pool == a.pool.(load := Decremented(a.pool.load)) && Capacity(b) == Capacity(a)
  {
    SettlingKeeps(k, ids);
    assert Settling(k, ids[..n]).Some? && Settling(k, ids[..n + 1]).Some?;
    assert ids[..n + 1][..n] == ids[..n];
  }

  /** The kitchen about to push a pizza that it has room for, after some cooks have settled. */
  ghost function Pushing(k: Kitchen, early: seq<nat>): Option<Kitchen>
    requires k.worker.AddTesting?
    ensures Pushing(k, early).Some? && k.pool.load < Capacity(k) ==>
      Pushing(k, early).value.worker == AddPushing(k.worker.pizza)
  {
    var tested := Work(k, AddTest);
    if Settling(tested, early).Some? then SettlingKeeps(tested, early); Settling(tested, early) else None
  }

  /** And about to count it, after some more have. */
  ghost function Counting(k: Kitchen, early: seq<nat>, late: seq<nat>): Option<Kitchen>
    requires k.worker.AddTesting? && k.pool.load < Capacity(k)
    ensures Counting(k, early, late).Some? ==> Counting(k, early, late).value.worker.AddCounting?
  {
    if Pushing(k, early).None? then None
    else
      var pushed := Work(Pushing(k, early).value, AddPush);
      if Settling(pushed, late).Some? then SettlingKeeps(pushed, late); Settling(pushed, late) else None
  }

  lemma PushingIs(k: Kitchen, early: seq<nat>)
    requires k.worker.AddTesting? && Pushing(k, early).Some?
    ensures Settling(Work(k, AddTest), early).Some? && Pushing(k, early) == Settling(Work(k, AddTest), early)
  {
  }

  lemma CountingIs(k: Kitchen, early: seq<nat>, late: seq<nat>)
    requires k.worker.AddTesting? && k.pool.load < Capacity(k) && Counting(k, early, late).Some?
    ensures Settling(Work(k, AddTest), early).Some? && Pushing(k, early) == Settling(Work(k, AddTest), early)
    ensures var pushed := Work(Pushing(k, early).value, AddPush);
      Settling(pushed, late).Some? && Counting(k, early, late) == Settling(pushed, late)
  {
  }

  // What the three steps of addPizza do to the pool of the machine.

  lemma TestEffect(k: Kitchen)
    requires k.worker.AddTesting?
    ensures var k' := Work(k, AddTest);
      if k.pool.load >= Capacity(k) then k'.worker == Refusing(k.worker.pizza) && k'.pool == k.pool.(lock := Free)
      else k'.worker == AddPushing(k.worker.pizza) && k'.pool == k.pool
    ensures Capacity(Work(k, AddTest)) == Capacity(k)
  {
  }

  lemma PushEffect(k: Kitchen)
    requires k.worker.AddPushing?
    ensures var k' := Work(k, AddPush);
      k'.worker.AddCounting? && k'.pool == k.pool.(queue := k.pool.queue + [k.worker.pizza]) && Capacity(k') == Capacity(k)
  {
  }

  lemma CountEffect(k: Kitchen)
    requires k.worker.AddCounting?
    ensures Work(k, AddCount).pool == k.pool.(load := k.pool.load + 1) && Capacity(Work(k, AddCount)) == Capacity(k)
  {
  }

  class ThreadPool {
    const maxCapacity: nat
    var queue: seq<Pizza>
    var load: nat
    var running: bool
    var notified: nat    // notifyOne calls
    var broadcasts: nat  // notifyAll calls

    // history
    ghost var accepted: seq<Pizza>
    ghost var taken: seq<Pizza>
    ghost var settled: nat

    ghost function View(): Pool
      reads this
    {
      Pool(queue, load, running, Free)
    }

    /**
     Pizzas leave in the order in which they were accepted; the load is what is accepted and not settled,
     but for what has been pushed and not counted.
     */
    ghost predicate Accounted(uncounted: nat)
      reads this
    {
      && accepted == taken + queue
      && settled <= |taken|
      && load + uncounted + settled == |accepted|
      && uncounted <= |queue| && load + uncounted <= maxCapacity
    }

    ghost predicate Valid()
      reads this
    {
      Accounted(0)
    }

    /** This pool is the one of kitchen k. */
    ghost predicate Of(k: Kitchen)
      reads this
    {
      k.pool.(lock := Free) == View() && Capacity(k) == maxCapacity
    }

    constructor (nCooks: nat)
      ensures Valid() && maxCapacity == 2 * nCooks && accepted == [] && settled == 0
      ensures View() == NewKitchen(nCooks).pool.(running := false)
    {
      maxCapacity := 2 * nCooks;
      queue, load, running, notified, broadcasts := [], 0, false, 0, 0;
      accepted, taken, settled := [], [], 0;
    }

    method Start(ghost nCooks: nat)
      requires Valid() && View() == NewKitchen(nCooks).pool.(running := false)
      modifies this`running
      ensures Valid() && View() == NewKitchen(nCooks).pool
    {
      running := true;
    }

    method IsFull() returns (full: bool)
      ensures full <==> load >= maxCapacity
    {
      return load >= maxCapacity;
    }

    /** Some cooks execute their decrement while another thread has the mutex. */
    method OthersSettle(ids: seq<nat>, ghost k: Kitchen, ghost uncounted: nat)
      requires Accounted(uncounted) && Of(k) && Settling(k, ids).Some? && settled + |ids| <= |taken|
      modifies this`load, this`settled
      ensures Accounted(uncounted) && load == old(load) - |ids| && settled == old(settled) + |ids|
      ensures Of(Settling(k, ids).value)
    {
      assert Settling(k, []) == Some(k);
      hide Settling;
      assert ids[..0] == [];
      for n := 0 to |ids|
        invariant Accounted(uncounted) && load == old(load) - n && settled == old(settled) + n
        invariant Settling(k, ids[..n]).Some? && Of(Settling(k, ids[..n]).value)
      {
        SettlingNext(k, ids, n);
        load := Decremented(load);
        settled := settled + 1;
      }
      assert ids[..|ids|] == ids;
    }

    method Push(pizza: Pizza, ghost k: Kitchen)
      requires Valid() && Of(k) && k.worker == AddPushing(pizza) && load < maxCapacity
      modifies this`queue, this`accepted
      ensures Accounted(1) && Of(Work(k, AddPush)) && accepted == old(accepted) + [pizza]
    {
      PushEffect(k);
      hide Work;
      queue := queue + [pizza];
      accepted := accepted + [pizza];
    }

    method CountAndNotify(ghost k: Kitchen)
      requires Accounted(1) && Of(k) && k.worker.AddCounting?
      modifies this`load, this`notified
      ensures Valid() && Of(Work(k, AddCount)) && load == old(load) + 1 && notified == old(notified) + 1
    {
      CountEffect(k);
      hide Work;
      load := load + 1;
      notified := notified + 1;
    }

    /** The statement after the test, with what cooks do before it. */
    method AdmitFirst(pizza: Pizza, early: seq<nat>, ghost k: Kitchen)
      requires Valid() && Of(k) && k.worker == AddTesting(pizza) && settled + |early| <= |taken|
      requires load < maxCapacity && Pushing(k, early).Some?
      modifies this`queue, this`accepted, this`load, this`settled
      ensures Accounted(1) && Of(Work(Pushing(k, early).value, AddPush))
      ensures accepted == old(accepted) + [pizza]
      ensures load == old(load) - |early| && settled == old(settled) + |early|
    {
      assert Of(Work(k, AddTest)) by { TestEffect(k); }
      PushingIs(k, early);
      hide Settling, Work, Pushing, Of, View, Accounted;
      OthersSettle(early, Work(k, AddTest), 0);
      Push(pizza, Pushing(k, early).value);
    }

    /** The three statements after the test, with what cooks do in between. */
    method Admit(pizza: Pizza, early: seq<nat>, late: seq<nat>, ghost k: Kitchen)
      requires Valid() && Of(k) && k.worker == AddTesting(pizza) && settled + |early| + |late| <= |taken|
      requires load < maxCapacity && Counting(k, early, late).Some?
      modifies this`queue, this`accepted, this`load, this`settled, this`notified
      ensures Valid() && Of(Work(Counting(k, early, late).value, AddCount))
      ensures accepted == old(accepted) + [pizza]
      ensures load == old(load) + 1 - |early| - |late| && settled == old(settled) + |early| + |late|
      ensures notified == old(notified) + 1
    {
      CountingIs(k, early, late);
      hide Settling, Work, Counting, Pushing, View, Accounted;
      AdmitFirst(pizza, early, k);
      hide Of;
      OthersSettle(late, Work(Pushing(k, early).value, AddPush), 1);
      CountAndNotify(Counting(k, early, late).value);
    }

    /**
     Refuses when full; otherwise pushes, counts and notifies, in one locked section. Cooks may settle
     after the test and after the push.
     */
    method AddPizza(pizza: Pizza, early: seq<nat>, late: seq<nat>, ghost k: Kitchen) returns (ok: bool)
      requires Valid() && Of(k) && k.worker == AddTesting(pizza) && settled + |early| + |late| <= |taken|
      requires k.pool.load < Capacity(k) ==> Counting(k, early, late).Some?
      modifies this`queue, this`accepted, this`load, this`settled, this`notified
      ensures Valid() && (ok <==> old(load) < maxCapacity)
      ensures accepted == if ok then old(accepted) + [pizza] else old(accepted)
      ensures load == if ok then old(load) + 1 - |early| - |late| else old(load)
      ensures settled == old(settled) + if ok then |early| + |late| else 0
      ensures notified == old(notified) + if ok then 1 else 0
      ensures Work(k, AddTest).worker == if ok then AddPushing(pizza) else Refusing(pizza)
      ensures Of(if ok then Work(Counting(k, early, late).value, AddCount) else Work(k, AddTest))
    {
      TestEffect(k);
      hide Work, Counting, Accounted;
      var full := IsFull();
      if full { return false; }
      Admit(pizza, early, late, k);
      return true;
    }

    /** What a cook finds when it has the queue mutex: a pizza, nothing yet, or that it is time to leave. */
    method TakeNext(ghost k: Kitchen, ghost i: nat) returns (next: Cook)
      requires Valid() && Of(k) && CanCook(k, CookCheck(i))
      modifies this`queue, this`taken
      ensures Valid() && taken + queue == old(taken + queue)
      ensures next.Fetched? <==> old(queue) != []
      ensures next.Fetched? ==> taken == old(taken) + [next.pizza]
      ensures next.Exited? <==> !running && old(queue) == []
      ensures View() == DoCook(k, CookCheck(i)).pool && next == DoCook(k, CookCheck(i)).cooks[i]
    {
      if queue == [] && running { return Asleep; }
      if !running && queue == [] { return Exited; }
      var pizza := queue[0];
      queue := queue[1..];
      taken := taken + [pizza];
      return Fetched(pizza);
    }

    /** The decrement outside the mutex never wraps around: somebody took the pizza it stands for. */
    method Settle(ghost k: Kitchen, ghost i: nat)
      requires Valid() && Of(k) && settled < |taken| && CanCook(k, Move.Settle(i))
      modifies this`load, this`settled
      ensures Valid() && load == old(load) - 1 && settled == old(settled) + 1
      ensures View() == DoCook(k, Move.Settle(i)).pool.(lock := Free)
    {
      load := Decremented(load);
      settled := settled + 1;
    }

    method Stop(ghost k: Kitchen)
      requires Valid() && Of(k) && CanWork(k, Move.Stop)
      modifies this`running, this`broadcasts
      ensures Valid() && broadcasts == old(broadcasts) + 1
      ensures View() == Work(Work(k, Move.Stop), Broadcast).pool && !running
    {
      running := false;
      broadcasts := broadcasts + 1;
    }
  }
}
