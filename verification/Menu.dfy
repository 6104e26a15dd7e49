/**
 Pizzas, their two-byte wire form, the recipe registry and the ingredient names.
 */
module Menu {

  newtype byte = x: int | 0 <= x < 256

  datatype Option<+T> = None | Some(value: T)

  datatype PizzaType = Regina | Margarita | Americana | Fantasia
  datatype PizzaSize = S | M | L | XL | XXL
  datatype Pizza = Pizza(kind: PizzaType, size: PizzaSize)

  /** Where any pizza will do. */
  const ANY := Pizza(Margarita, M)

  // ---------------------------------------------------------------- wire form

  datatype Packed = Packed(kind: byte, size: byte)

  function KindCode(kind: PizzaType): byte {
    match kind
    case Regina => 1
    case Margarita => 2
    case Americana => 4
    case Fantasia => 8
  }

  function SizeCode(size: PizzaSize): byte {
    match size
    case S => 1
    case M => 2
    case L => 4
    case XL => 8
    case XXL => 16
  }

  function DecodeKind(code: byte): Option<PizzaType> {
    if code == 1 then Some(Regina)
    else if code == 2 then Some(Margarita)
    else if code == 4 then Some(Americana)
    else if code == 8 then Some(Fantasia)
    else None
  }

  function DecodeSize(code: byte): Option<PizzaSize> {
    if code == 1 then Some(S)
    else if code == 2 then Some(M)
    else if code == 4 then Some(L)
    else if code == 8 then Some(XL)
    else if code == 16 then Some(XXL)
    else None
  }

  /** None when a byte names no enumerator, which the factory then rejects. */
  function Unpack(w: Packed): Option<Pizza> {
    match (DecodeKind(w.kind), DecodeSize(w.size))
    case (Some(kind), Some(size)) => Some(Pizza(kind, size))
    case _ => None
  }

  function Pack(pizza: Pizza): (w: Slip)
    ensures Unpack(w) == Some(pizza)
  {
    Packed(KindCode(pizza.kind), SizeCode(pizza.size))
  }

  /** A wire form that decodes; the only kind the protocol puts into a packet. */
  type Slip = w: Packed | Unpack(w).Some? witness Packed(1, 1)

  function Read(w: Slip): Pizza {
    Unpack(w).value
  }

  /** The wire form is a bijection between pizzas and the byte pairs that decode, with the published values. */
  lemma WireRoundTrip(p: Pizza, w: Packed)
    ensures Unpack(w) == Some(p) <==> w == Pack(p)
    ensures exists i :: (0 <= i < 4
      && p.kind == [Regina, Margarita, Americana, Fantasia][i] && Pack(p).kind as int == [1, 2, 4, 8][i])
    ensures exists i :: 0 <= i < 5 && p.size == [S, M, L, XL, XXL][i] && Pack(p).size as int == [1, 2, 4, 8, 16][i]
  {
    KindValue(p);
    SizeValue(p);
    match p.kind case Regina => case Margarita => case Americana => case Fantasia =>
  }

  lemma KindValue(p: Pizza)
    ensures exists i :: (0 <= i < 4
      && p.kind == [Regina, Margarita, Americana, Fantasia][i] && Pack(p).kind as int == [1, 2, 4, 8][i])
  {
    var kinds, values := [Regina, Margarita, Americana, Fantasia], [1, 2, 4, 8];
    var i := match p.kind case Regina => 0 case Margarita => 1 case Americana => 2 case Fantasia => 3;
    assert p.kind == kinds[i] && Pack(p).kind as int == values[i];
  }

  lemma SizeValue(p: Pizza)
    ensures exists i :: 0 <= i < 5 && p.size == [S, M, L, XL, XXL][i] && Pack(p).size as int == [1, 2, 4, 8, 16][i]
  {
    var sizes, values := [S, M, L, XL, XXL], [1, 2, 4, 8, 16];
    var i := match p.size case S => 0 case M => 1 case L => 2 case XL => 3 case XXL => 4;
    assert p.size == sizes[i] && Pack(p).size as int == values[i];
  }

  // ------------------------------------------------------------------ recipes

  datatype Ingredient =
    Dough | Tomato | Gruyere | Ham | Mushrooms | Steak | Eggplant | GoatCheese | ChiefLove

  const ALL_INGREDIENTS: set<Ingredient> :=
    {Dough, Tomato, Gruyere, Ham, Mushrooms, Steak, Eggplant, GoatCheese, ChiefLove}

  datatype Recipe = Recipe(kind: PizzaType, size: PizzaSize, ingredients: seq<string>, baseSeconds: nat) {
    function WithSize(newSize: PizzaSize): Recipe {
      this.(size := newSize)
    }
  }

  function ToIngredient(name: string): Option<Ingredient> {
    if name == "dough" then Some(Dough)
    else if name == "tomato" then Some(Tomato)
    else if name == "gruyere" then Some(Gruyere)
    else if name == "ham" then Some(Ham)
    else if name == "mushrooms" then Some(Mushrooms)
    else if name == "steak" then Some(Steak)
    else if name == "eggplant" then Some(Eggplant)
    else if name == "goat cheese" then Some(GoatCheese)
    else if name == "chief love" then Some(ChiefLove)
    else None
  }

  /** The ingredient list of a recipe, or None when some name is unknown. */
  function Resolve(names: seq<string>): Option<seq<Ingredient>> {
    if names == [] then Some([])
    else
      var front := Resolve(names[..|names| - 1]);
      var last := ToIngredient(names[|names| - 1]);
      if front.Some? && last.Some? then Some(front.value + [last.value]) else None
  }

  /** The name loop of a cook: resolves every name, or stops at the first unknown one. */
  method ToIngredients(names: seq<string>) returns (result: Option<seq<Ingredient>>)
    ensures result == Resolve(names)
    ensures result.None? <==> exists i :: 0 <= i < |names| && ToIngredient(names[i]).None?
    ensures result.Some? ==> |result.value| == |names|
    ensures result.Some? ==> forall i :: 0 <= i < |names| ==> ToIngredient(names[i]) == Some(result.value[i])
  {
    var ingredients := [];
    for i := 0 to |names|
      invariant Resolve(names[..i]) == Some(ingredients)
      invariant |ingredients| == i
      invariant forall j :: 0 <= j < i ==> ToIngredient(names[j]) == Some(ingredients[j])
    {
      assert names[..i + 1][..i] == names[..i];
      var found := ToIngredient(names[i]);
      if found.None? {
        ResolveStuck(names, i);
        return None;
      }
      ingredients := ingredients + [found.value];
    }
    assert names[..|names|] == names;
    return Some(ingredients);
  }

  lemma {:induction false} ResolveStuck(names: seq<string>, i: nat)
    requires i < |names| && ToIngredient(names[i]).None?
    ensures Resolve(names).None?
  {
    if i < |names| - 1 {
      ResolveStuck(names[..|names| - 1], i);
    }
  }

  function Builtin(kind: PizzaType): Recipe {
    match kind
    case Margarita => Recipe(Margarita, M, ["dough", "tomato", "gruyere"], 1)
    case Regina => Recipe(Regina, M, ["dough", "tomato", "gruyere", "ham", "mushrooms"], 2)
    case Americana => Recipe(Americana, M, ["dough", "tomato", "gruyere", "steak"], 2)
    case Fantasia => Recipe(Fantasia, M, ["dough", "tomato", "eggplant", "goat cheese", "chief love"], 4)
  }

  /** What a pizza of each built-in kind takes from the stock. */
  function Needs(kind: PizzaType): seq<Ingredient> {
    match kind
    case Margarita => [Dough, Tomato, Gruyere]
    case Regina => [Dough, Tomato, Gruyere, Ham, Mushrooms]
    case Americana => [Dough, Tomato, Gruyere, Steak]
    case Fantasia => [Dough, Tomato, Eggplant, GoatCheese, ChiefLove]
  }

  predicate Distinct<T(==)>(s: seq<T>) {
    forall i, j :: 0 <= i < j < |s| ==> s[i] != s[j]
  }

  lemma {:induction false} ResolvePointwise(names: seq<string>, ingredients: seq<Ingredient>)
    requires |names| == |ingredients|
    requires forall i :: 0 <= i < |names| ==> ToIngredient(names[i]) == Some(ingredients[i])
    ensures Resolve(names) == Some(ingredients)
  {
    if names != [] {
      var n := |names| - 1;
      ResolvePointwise(names[..n], ingredients[..n]);
      assert ingredients == ingredients[..n] + [ingredients[n]];
    }
  }

  /** The published names, and what they stand for. */
  lemma EveryNameResolves()
    ensures Resolve(["dough", "tomato", "gruyere", "ham", "mushrooms", "steak", "eggplant", "goat cheese", "chief love"]) ==
            Some([Dough, Tomato, Gruyere, Ham, Mushrooms, Steak, Eggplant, GoatCheese, ChiefLove])
  {
    var names := ["dough", "tomato", "gruyere", "ham", "mushrooms", "steak", "eggplant", "goat cheese", "chief love"];
    var ingredients := [Dough, Tomato, Gruyere, Ham, Mushrooms, Steak, Eggplant, GoatCheese, ChiefLove];
    forall i | 0 <= i < |names| ensures ToIngredient(names[i]) == Some(ingredients[i]) {}
    hide ToIngredient, Resolve;
    ResolvePointwise(names, ingredients);
  }

  lemma BuiltinNamesKnown(kind: PizzaType, i: nat)
    requires i < |Builtin(kind).ingredients| == |Needs(kind)|
    ensures ToIngredient(Builtin(kind).ingredients[i]) == Some(Needs(kind)[i])
  {
    match kind case Regina => case Margarita => case Americana => case Fantasia =>
  }

  ghost function Contents(kind: PizzaType): set<Ingredient> {
    set x | x in Needs(kind)
  }

  /** What a pizza of each kind contains, and its seconds in the oven, as published. */
  ghost predicate Published(kind: PizzaType, contents: set<Ingredient>, seconds: nat) {
    match kind
    case Margarita => contents == {Dough, Tomato, Gruyere} && seconds == 1
    case Regina => contents == {Dough, Tomato, Gruyere, Ham, Mushrooms} && seconds == 2
    case Americana => contents == {Dough, Tomato, Gruyere, Steak} && seconds == 2
    case Fantasia => contents == {Dough, Tomato, Eggplant, GoatCheese, ChiefLove} && seconds == 4
  }

  lemma NeedsArePublished(kind: PizzaType)
    ensures Published(kind, Contents(kind), Builtin(kind).baseSeconds)
  {
    var contents := Contents(kind);
    match kind
    case Margarita => assert contents == {Dough, Tomato, Gruyere};
    case Regina => assert contents == {Dough, Tomato, Gruyere, Ham, Mushrooms};
    case Americana => assert contents == {Dough, Tomato, Gruyere, Steak};
    case Fantasia => assert contents == {Dough, Tomato, Eggplant, GoatCheese, ChiefLove};
  }

  /** No built-in recipe names an unknown ingredient or asks twice for one; all are as published. */
  lemma BuiltinRecipesResolve(kind: PizzaType)
    ensures Resolve(Builtin(kind).ingredients) == Some(Needs(kind))
    ensures Distinct(Needs(kind))
    ensures Dough in Needs(kind) && Tomato in Needs(kind)
    ensures Published(kind, Contents(kind), Builtin(kind).baseSeconds)
  {
    NeedsAreDistinct(kind);
    NeedsArePublished(kind);
    hide Builtin, ToIngredient, Resolve, Needs, Distinct, Published;
    assert |Builtin(kind).ingredients| == |Needs(kind)| by { BuiltinLengths(kind); }
    forall i | 0 <= i < |Needs(kind)| ensures ToIngredient(Builtin(kind).ingredients[i]) == Some(Needs(kind)[i]) {
      BuiltinNamesKnown(kind, i);
    }
    ResolvePointwise(Builtin(kind).ingredients, Needs(kind));
  }

  lemma NeedsAreDistinct(kind: PizzaType)
    ensures Distinct(Needs(kind)) && Dough in Needs(kind) && Tomato in Needs(kind)
  {
    assert Needs(kind)[0] == Dough && Needs(kind)[1] == Tomato;
  }

  lemma BuiltinLengths(kind: PizzaType)
    ensures |Builtin(kind).ingredients| == |Needs(kind)|
  {
  }

  // ----------------------------------------------------------------- registry

  type Registry = seq<(PizzaType, Recipe)>

  /** The first recipe registered under a kind. */
  function Find(registry: Registry, kind: PizzaType): Option<Recipe> {
    if registry == [] then None
    else if registry[0].0 == kind then Some(registry[0].1)
    else Find(registry[1..], kind)
  }

  lemma {:induction false} FindAppend(registry: Registry, entry: (PizzaType, Recipe), kind: PizzaType)
    ensures Find(registry + [entry], kind) ==
            if Find(registry, kind).Some? then Find(registry, kind)
            else if entry.0 == kind then Some(entry.1) else None
  {
    if registry != [] {
      assert (registry + [entry])[1..] == registry[1..] + [entry];
      FindAppend(registry[1..], entry, kind);
    }
  }

  /** What a lookup answers once the built-in kinds are in: they never displace an earlier registration. */
  function WithBuiltin(found: Option<Recipe>, already: bool, kind: PizzaType): Option<Recipe> {
    if !already && found.None? then Some(Builtin(kind)) else found
  }

  /** The recipe table behind the factory's static functions. */
  class PizzaFactory {
    var registry: Registry
    var alreadyRegistered: bool

    /** Each kind is served by a recipe of its own kind. */
    ghost predicate Sound()
      reads this`registry
    {
      forall kind :: Find(registry, kind).Some? ==> Find(registry, kind).value.kind == kind
    }

    /** Once the built-in kinds are in, none is missing. */
    ghost predicate Valid()
      reads this
    {
      alreadyRegistered ==> forall kind :: Find(registry, kind).Some?
    }

    constructor ()
      ensures Valid() && Sound() && registry == [] && !alreadyRegistered
    {
      registry := [];
      alreadyRegistered := false;
    }

    /** find_if over the registry. */
    method Lookup(kind: PizzaType) returns (found: Option<Recipe>)
      ensures found == Find(registry, kind)
    {
      var i := 0;
      while i < |registry| && registry[i].0 != kind
        invariant 0 <= i <= |registry|
        invariant Find(registry, kind) == Find(registry[i..], kind)
      {
        i := i + 1;
      }
      if i == |registry| { return None; }
      return Some(registry[i].1);
    }

    /** A second registration of a kind is ignored; the prototype's own kind is not looked at. */
    method RegisterPizza(kind: PizzaType, prototype: Recipe)
      modifies this`registry
      ensures forall k ::
        Find(registry, k) ==
        if k == kind && old(Find(registry, k)).None? then Some(prototype) else old(Find(registry, k))
      ensures old(Sound()) && prototype.kind == kind ==> Sound()
    {
      var found := Lookup(kind);
      if found.None? {
        forall k
          ensures Find(registry + [(kind, prototype)], k) == if k == kind then Some(prototype) else Find(registry, k)
        {
          FindAppend(registry, (kind, prototype), k);
        }
        registry := registry + [(kind, prototype)];
      }
    }

    method RegisterBuiltinPizzas()
      requires Valid()
      modifies this
      ensures Valid() && alreadyRegistered && (old(Sound()) ==> Sound())
      ensures forall k ::
        Find(registry, k) == WithBuiltin(old(Find(registry, k)), old(alreadyRegistered), k)
    {
      if alreadyRegistered { return; }
      ghost var before := registry;
      alreadyRegistered := true;
      RegisterPizza(Margarita, Builtin(Margarita));
      RegisterPizza(Regina, Builtin(Regina));
      RegisterPizza(Americana, Builtin(Americana));
      RegisterPizza(Fantasia, Builtin(Fantasia));
      forall k
        ensures Find(registry, k) == WithBuiltin(Find(before, k), false, k)
      {
        match k case Regina => case Margarita => case Americana => case Fantasia =>
      }
    }

    /**
     Never the "unknown pizza type" exception: the recipe found under the kind, in the size asked for. It is
     a recipe of that kind as long as every registered prototype was registered under its own.
     */
    method Create(kind: PizzaType, size: PizzaSize) returns (recipe: Recipe)
      requires Valid()
      modifies this
      ensures Valid() && alreadyRegistered && (old(Sound()) ==> Sound())
      ensures recipe.size == size && (old(Sound()) ==> recipe.kind == kind)
      ensures Find(registry, kind).Some?
      ensures var prototype := if old(Find(registry, kind)).Some? then old(Find(registry, kind)).value else Builtin(kind);
        && Find(registry, kind).value == prototype && recipe.kind == prototype.kind
        && recipe.ingredients == prototype.ingredients && recipe.baseSeconds == prototype.baseSeconds
      ensures old(Find(registry, kind)).None? ==>
        && Resolve(recipe.ingredients) == Some(Needs(kind))
        && Published(kind, Contents(kind), recipe.baseSeconds)
    {
      BuiltinRecipesResolve(kind);
      hide Resolve, Published, Builtin, Needs;
      RegisterBuiltinPizzas();
      var found := Lookup(kind);
      recipe := found.value.WithSize(size);
    }
  }
}
