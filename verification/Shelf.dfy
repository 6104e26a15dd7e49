/**
 The ingredient stock, updated in place: the loops over the ingredients of one pizza
 and over the whole shelf, with counters that wrap around below zero.
 */
module Shelf {
  import opened Menu
  import opened Kitchen

  function Count(needed: seq<Ingredient>, x: Ingredient): nat {
    if needed == [] then 0
    else Count(needed[..|needed| - 1], x) + if needed[|needed| - 1] == x then 1 else 0
  }

  lemma {:induction false} CountMember(needed: seq<Ingredient>, x: Ingredient)
    ensures Count(needed, x) > 0 <==> x in needed
  {
    if needed != [] {
      var n := |needed| - 1;
      CountMember(needed[..n], x);
      assert needed == needed[..n] + [needed[n]];
    }
  }

  lemma {:induction false} CountMonotone(needed: seq<Ingredient>, i: nat, x: Ingredient)
    requires i <= |needed|
    ensures Count(needed[..i], x) <= Count(needed, x)
  {
    if i < |needed| {
      assert needed[..|needed| - 1][..i] == needed[..i];
      CountMonotone(needed[..|needed| - 1], i, x);
    } else {
      assert needed[..i] == needed;
    }
  }

  /** A recipe without repetitions asks for each of its ingredients once. */
  lemma {:induction false} DistinctCounts(needed: seq<Ingredient>)
    ensures Distinct(needed) <==> forall x :: Count(needed, x) <= 1
  {
    if needed != [] {
      var n := |needed| - 1;
      DistinctCounts(needed[..n]);
      if Distinct(needed) {
        assert Distinct(needed[..n]);
        forall x ensures Count(needed, x) <= 1 {
          assert Count(needed[..n], x) <= 1;
          CountMember(needed[..n], needed[n]);
        }
      } else {
        var i, j :| 0 <= i < j < |needed| && needed[i] == needed[j];
        if j < n {
          assert needed[..n][i] == needed[..n][j];
          var x :| Count(needed[..n], x) > 1;
          assert Count(needed, x) > 1;
        } else {
          assert needed[..n][i] == needed[n];
          CountMember(needed[..n], needed[n]);
          assert Count(needed, needed[n]) > 1;
        }
      }
    }
  }

  /** Enough on the shelf for each of the decrements. */
  ghost predicate Suffices(stock: map<Ingredient, nat>, needed: seq<Ingredient>) {
    forall x :: x in needed ==> x in stock && Count(needed, x) <= stock[x]
  }

  /**
   The availability test looks for one unit of each ingredient, whatever the recipe. It
   rules out every underflow exactly if the recipe names no ingredient twice.
   */
  lemma AvailableSufficesIffDistinct(needed: seq<Ingredient>)
    ensures (forall stock: Stock :: AllAvailable(stock, needed) ==> Suffices(stock, needed)) <==> Distinct(needed)
  {
    DistinctCounts(needed);
    if Distinct(needed) {
      forall stock: Stock | AllAvailable(stock, needed) ensures Suffices(stock, needed) {
        forall x | x in needed ensures Count(needed, x) <= stock[x] {}
      }
    } else {
      var x :| Count(needed, x) > 1;
      CountMember(needed, x);
      var stock: Stock := map y | y in ALL_INGREDIENTS :: 1;
      forall y: Ingredient ensures y in ALL_INGREDIENTS {
        EveryIngredientListed(y);
      }
      assert AllAvailable(stock, needed);
      assert !Suffices(stock, needed);
    }
  }

  lemma EveryIngredientListed(x: Ingredient)
    ensures x in ALL_INGREDIENTS
  {
    match x case Dough => case Tomato => case Gruyere => case Ham => case Mushrooms => case Steak =>
      case Eggplant => case GoatCheese => case ChiefLove =>
  }

  /** So many times `--` on a std::size_t. */
  function Dropped(count: nat, times: nat): nat {
    if times == 0 then count else Decremented(Dropped(count, times - 1))
  }

  lemma {:induction false} DroppedWraps(count: nat, times: nat)
    requires times <= count + SIZE_MAX + 1
    ensures Dropped(count, times) == if times <= count then count - times else count + (SIZE_MAX + 1) - times
  {
    if times > 0 { DroppedWraps(count, times - 1); }
  }

  ghost predicate UsedUp(before: Stock, after: Stock, needed: seq<Ingredient>) {
    forall x :: x in ALL_INGREDIENTS ==> after[x] == Dropped(before[x], Count(needed, x))
  }

  lemma UseOne(count: nat, needed: seq<Ingredient>, i: nat, x: Ingredient)
    requires i < |needed|
    ensures Dropped(count, Count(needed[..i + 1], x)) ==
      if x == needed[i] then Decremented(Dropped(count, Count(needed[..i], x))) else Dropped(count, Count(needed[..i], x))
  {
    assert needed[..i + 1][..i] == needed[..i];
  }

  lemma UseOneMore(before: Stock, now: Stock, needed: seq<Ingredient>, i: nat)
    requires i < |needed| && UsedUp(before, now, needed[..i])
    ensures needed[i] in now && now[needed[i] := Decremented(now[needed[i]])].Keys == ALL_INGREDIENTS
    ensures UsedUp(before, now[needed[i] := Decremented(now[needed[i]])], needed[..i + 1])
  {
    hide Decremented, Dropped, Count;
    EveryIngredientListed(needed[i]);
    var after: Stock := now[needed[i] := Decremented(now[needed[i]])];
    forall x | x in ALL_INGREDIENTS ensures after[x] == Dropped(before[x], Count(needed[..i + 1], x)) {
      UseOne(before[x], needed, i, x);
    }
  }

  lemma {:induction false} CountAtMostLength(needed: seq<Ingredient>, x: Ingredient)
    ensures Count(needed, x) <= |needed|
  {
    if needed != [] { CountAtMostLength(needed[..|needed| - 1], x); }
  }

  /** Counter by counter: the true difference when there was enough, and a wrap-around to above its start when not. */
  lemma UnderflowExactly(before: Stock, after: Stock, needed: seq<Ingredient>, x: Ingredient)
    requires UsedUp(before, after, needed) && |needed| < 0x1_0000_0000_0000_0000
    ensures x in before && x in after
    ensures Count(needed, x) <= before[x] ==> after[x] == before[x] - Count(needed, x)
    ensures Count(needed, x) > before[x] ==> after[x] == 0x1_0000_0000_0000_0000 + before[x] - Count(needed, x) > before[x]
  {
    hide Dropped, Count;
    EveryIngredientListed(x);
    CountAtMostLength(needed, x);
    DroppedWraps(before[x], Count(needed, x));
  }

  /** After the decrements of a recipe without repetitions the shelf is what the kitchen machine says. */
  lemma DistinctDropsOne(before: Stock, after: Stock, needed: seq<Ingredient>)
    requires Distinct(needed) && AllAvailable(before, needed) && UsedUp(before, after, needed)
    ensures after == Without(before, needed)
  {
    hide Dropped, Count;
    DistinctCounts(needed);
    forall x | x in ALL_INGREDIENTS ensures after[x] == Without(before, needed)[x] {
      hide Distinct;
      CountMember(needed, x);
      DroppedWraps(before[x], Count(needed, x));
    }
  }

  datatype Attempt = Closed | MustWait | Taken

  /** How a wait for ingredients went: what was found at this moment, and at none before it anything to take. */
  ghost predicate Waited(stock: Stock, open: bool, wakeups: seq<(Stock, bool)>, moment: nat, attempt: Attempt,
                         after: Stock, needed: seq<Ingredient>)
  {
    var seen := [(stock, open)] + wakeups;
    && moment <= |wakeups|
    && (forall i :: 0 <= i < moment ==> seen[i].1 && !AllAvailable(seen[i].0, needed))
    && (attempt.Taken? <==> seen[moment].1 && AllAvailable(seen[moment].0, needed))
    && (attempt.Closed? <==> !seen[moment].1)
    && (attempt.MustWait? ==> moment == |wakeups|)
    && if attempt.Taken? then UsedUp(seen[moment].0, after, needed) else after == seen[moment].0
  }

  class IngredientStock {
    var stock: Stock
    var running: bool
    var broadcasts: nat

    constructor (initialStock: nat)
      ensures running && (forall x :: x in stock ==> stock[x] == initialStock)
      ensures initialStock == 5 ==> stock == FULL_SHELF
    {
      stock := map x | x in ALL_INGREDIENTS :: initialStock;
      running, broadcasts := true, 0;
    }

    method AllInStock(needed: seq<Ingredient>) returns (yes: bool)
      ensures yes <==> AllAvailable(stock, needed)
    {
      for i := 0 to |needed|
        invariant forall j :: 0 <= j < i ==> needed[j] in stock && stock[needed[j]] > 0
      {
        if needed[i] !in stock || stock[needed[i]] == 0 { return false; }
      }
      return true;
    }

    /** The loop of decrements. */
    method Consume(needed: seq<Ingredient>)
      modifies this`stock
      ensures UsedUp(old(stock), stock, needed)
    {
      for i := 0 to |needed|
        invariant UsedUp(old(stock), stock, needed[..i])
      {
        hide UsedUp, Decremented;
        UseOneMore(old(stock), stock, needed, i);
        stock := stock[needed[i] := Decremented(stock[needed[i]])];
      }
      assert needed[..|needed|] == needed;
    }

    /**
     One locked look at the stock: closed, not enough, or taken. No counter wraps around
     exactly if the stock suffices for every single decrement.
     */
    method TryConsume(needed: seq<Ingredient>) returns (attempt: Attempt)
      modifies this`stock
      ensures attempt.Closed? <==> !running
      ensures attempt.MustWait? <==> running && !AllAvailable(old(stock), needed)
      ensures !attempt.Taken? ==> stock == old(stock)
      ensures attempt.Taken? ==> UsedUp(old(stock), stock, needed)
      ensures attempt.Taken? && Distinct(needed) ==> stock == Without(old(stock), needed)
    {
      var enough := AllInStock(needed);
      if running && !enough { return MustWait; }
      if !running { return Closed; }
      Consume(needed);
      if Distinct(needed) { DistinctDropsOne(old(stock), stock, needed); }
      return Taken;
    }

    /**
     The wait loop, as far as the given wakeups go. Each wakeup finds the stock as the other threads have
     left it, and open or closed. The cook takes its ingredients at the first moment at which they are all
     there, provided that the stock has not closed until then; at no other moment it takes anything.
     */
    method WaitAndConsume(needed: seq<Ingredient>, wakeups: seq<(Stock, bool)>) returns (attempt: Attempt, waits: nat)
      modifies this`stock, this`running
      ensures Waited(old(stock), old(running), wakeups, waits, attempt, stock, needed)
      ensures running == ([(old(stock), old(running))] + wakeups)[waits].1
    {
      ghost var seen := [(stock, running)] + wakeups;
      waits := 0;
      attempt := TryConsume(needed);
      while attempt.MustWait? && waits < |wakeups|
        invariant waits <= |wakeups| && running == seen[waits].1
        invariant forall i :: 0 <= i < waits ==> seen[i].1 && !AllAvailable(seen[i].0, needed)
        invariant attempt.MustWait? <==> running && !AllAvailable(seen[waits].0, needed)
        invariant attempt.Closed? <==> !running
        invariant if attempt.Taken? then UsedUp(seen[waits].0, stock, needed) else stock == seen[waits].0
        decreases |wakeups| - waits
      {
        stock, running := wakeups[waits].0, wakeups[waits].1;
        waits := waits + 1;
        assert seen[waits] == wakeups[waits - 1];
        attempt := TryConsume(needed);
      }
    }

    /** What a cook of kitchen k does with this stock in hand. */
    method Serve(ghost k: Kitchen, ghost i: nat, pizza: Pizza) returns (attempt: Attempt)
      requires CanCook(k, StockTry(i)) && k.cooks[i].pizza == pizza
      requires k.pantry.stock == stock && k.pantry.open == running
      modifies this`stock
      ensures stock == DoCook(k, StockTry(i)).pantry.stock
      ensures var c := DoCook(k, StockTry(i)).cooks[i];
        && (attempt.Closed? <==> c.Cleared?) && (attempt.MustWait? <==> c.Starved?) && (attempt.Taken? <==> c.Baking?)
    {
      BuiltinRecipesResolve(pizza.kind);
      var needed := ToIngredients(Builtin(pizza.kind).ingredients);
      attempt := TryConsume(needed.value);
    }

    /** One round of the regeneration thread; says whether there will be another. */
    method Regenerate() returns (goOn: bool)
      modifies this`stock, this`broadcasts
      ensures (goOn <==> running)
      ensures stock == if running then Regenerated(old(stock)) else old(stock)
      ensures broadcasts == old(broadcasts) + if running then 1 else 0
    {
      if !running { return false; }
      var left := stock.Keys;
      while left != {}
        invariant left <= stock.Keys == old(stock).Keys && broadcasts == old(broadcasts)
        invariant forall x :: x in stock ==> stock[x] == old(stock)[x] + if x in left then 0 else 1
        decreases left
      {
        var x :| x in left;
        stock := stock[x := stock[x] + 1];
        left := left - {x};
      }
      assert stock == Regenerated(old(stock));
      broadcasts := broadcasts + 1;
      return true;
    }

    method Close()
      modifies this`running, this`broadcasts
      ensures !running && broadcasts == old(broadcasts) + 1
    {
      running := false;
      broadcasts := broadcasts + 1;
    }
  }
}
