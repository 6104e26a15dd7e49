/** One pizza in the hands of a cook, with the fields a status report reads. */
module Cooking {
  import opened Menu
  import opened Kitchen
  import opened Protocol
  import opened Shelf

  /** What the machine's cook is after this look at the stock and, if it got its ingredients, the rest of cookPizza. */
  ghost function Afterwards(k: Kitchen, i: nat): Cook
    requires CanCook(k, StockTry(i))
  {
    var looked := DoCook(k, StockTry(i));
    var c := looked.cooks[i];
    if c.Baking? then
      var announced := looked.(cooks := looked.cooks[i := Announced(c.pizza)]);
      DoCook(announced, Clear(i)).cooks[i]
    else c
  }

  /**
   The outcome of the last look at the stock is the machine's, for every kitchen whose cook i takes that look
   for this pizza: what is left on the shelf, and whether the cook is still busy when cookPizza is done with it.
   */
  ghost predicate AsMachine(pizza: Pizza, found: Stock, open: bool, attempt: Attempt, after: Stock, busy: bool) {
    forall k: Kitchen, i: nat ::
      CanCook(k, StockTry(i)) && k.cooks[i].pizza == pizza && k.pantry.stock == found && k.pantry.open == open ==>
        && after == DoCook(k, StockTry(i)).pantry.stock
        && (busy <==> Afterwards(k, i).Busy())
        && (attempt.Taken? <==> DoCook(k, StockTry(i)).cooks[i].Baking?)
  }

  lemma LookAgrees(pizza: Pizza, found: Stock, open: bool, attempt: Attempt, after: Stock)
    requires attempt.Taken? <==> open && AllAvailable(found, Needs(pizza.kind))
    requires attempt.Closed? <==> !open
    requires if attempt.Taken? then UsedUp(found, after, Needs(pizza.kind)) else after == found
    ensures AsMachine(pizza, found, open, attempt, after, attempt.MustWait?)
  {
    BuiltinRecipesResolve(pizza.kind);
    hide UsedUp, Needs, Builtin, Resolve, Published;
    if attempt.Taken? { DistinctDropsOne(found, after, Needs(pizza.kind)); }
  }

  class CookThread {
    const id: nat
    var busy: bool
    var currentKind: PizzaType
    var currentSize: PizzaSize

    constructor (id: nat)
      ensures this.id == id && !busy
    {
      this.id := id;
      busy, currentKind, currentSize := false, Regina, S;
    }

    /**
     From COOKING to IDLE, as far as the given wakeups of the wait for ingredients go: it is still COOKING
     exactly if it still waits then. It sends one Done, which names the recipe's own type and size, exactly
     if it got its ingredients; an unknown ingredient is an exception that touches nothing.
     */
    method CookPizza(recipe: Recipe, stock: IngredientStock, wakeups: seq<(Stock, bool)>)
      returns (sent: seq<Packet>, thrown: bool, attempt: Attempt)
      modifies this`busy, this`currentKind, this`currentSize, stock`stock, stock`running
      ensures currentKind == recipe.kind && currentSize == recipe.size
      ensures thrown <==> Resolve(recipe.ingredients).None?
      ensures busy <==> !thrown && attempt.MustWait?
      ensures sent == if !thrown && attempt.Taken? then [DonePkt(Pack(Pizza(recipe.kind, recipe.size)))] else []
      ensures thrown ==> stock.stock == old(stock.stock) && stock.running == old(stock.running)
      ensures !thrown ==> exists moment :: Waited(old(stock.stock), old(stock.running), wakeups, moment, attempt,
                                                  stock.stock, Resolve(recipe.ingredients).value)
      ensures Resolve(recipe.ingredients) == Some(Needs(recipe.kind)) ==>
        exists moment :: 0 <= moment <= |wakeups| &&
          var seen := ([(old(stock.stock), old(stock.running))] + wakeups)[moment];
          AsMachine(Pizza(recipe.kind, recipe.size), seen.0, seen.1, attempt, stock.stock, busy)
    {
      busy, currentKind, currentSize := true, recipe.kind, recipe.size;
      var ingredients := ToIngredients(recipe.ingredients);
      if ingredients.None? {
        busy := false;
        return [], true, Shelf.Closed;
      }
      var waits;
      attempt, waits := stock.WaitAndConsume(ingredients.value, wakeups);
      assert Waited(old(stock.stock), old(stock.running), wakeups, waits, attempt, stock.stock, ingredients.value);
      thrown := false;
      ghost var seen := ([(old(stock.stock), old(stock.running))] + wakeups)[waits];
      if ingredients == Some(Needs(recipe.kind)) {
        LookAgrees(Pizza(recipe.kind, recipe.size), seen.0, seen.1, attempt, stock.stock);
      }
      hide AsMachine, Waited;
      match attempt {
        case MustWait => sent := [];
        case Closed =>
          sent := [];
          busy := false;
        case Taken =>
          sent := [DonePkt(Pack(Pizza(recipe.kind, recipe.size)))];
          busy := false;
      }
    }
  }
}
