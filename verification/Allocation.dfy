/**
 The allocation loop of a dispatch: one pizza after the other to the least loaded
 kitchen with room, and to a new kitchen when there is none.
 */
module Allocation {
  import opened Menu
  import opened Sums
  import opened Protocol

  // --------------------------------------------------------------- one choice

  predicate HasRoom(h: Handle) {
    h.alive && h.load < h.capacity
  }

  /** The choice the loop over the kitchens has made when it has seen them all. */
  function Best(handles: seq<Handle>): Option<nat> {
    if handles == [] then None
    else
      var n := |handles| - 1;
      var before := Best(handles[..n]);
      if HasRoom(handles[n]) && (before.None? || before.value >= n || handles[n].load < handles[before.value].load)
      then Some(n) else before
  }

  /** The first of the least loaded kitchens with room. */
  ghost predicate IsBest(handles: seq<Handle>, b: nat) {
    && b < |handles| && HasRoom(handles[b])
    && (forall j :: 0 <= j < |handles| && HasRoom(handles[j]) ==> handles[b].load <= handles[j].load)
    && (forall j :: 0 <= j < b && HasRoom(handles[j]) ==> handles[b].load < handles[j].load)
  }

  lemma {:induction false} BestIsBest(handles: seq<Handle>)
    ensures Best(handles).Some? ==> IsBest(handles, Best(handles).value)
    ensures Best(handles).None? ==> forall j :: 0 <= j < |handles| ==> !HasRoom(handles[j])
  {
    if handles != [] {
      BestIsBest(handles[..|handles| - 1]);
    }
  }

  // ------------------------------------------------------------------ dispatch

  /** What a dispatch changes: the handles, the id counter, and the packets sent, each with its kitchen's id. */
  datatype Floor = Floor(handles: seq<Handle>, nextId: nat, outbox: seq<(nat, Packet)>)

  function Place(f: Floor, nCooks: nat, pizza: Pizza): Floor {
    BestIsBest(f.handles);
    match Best(f.handles)
    case Some(b) =>
      var h := f.handles[b];
      Floor(f.handles[b := h.(load := h.load + 1)], f.nextId, f.outbox + [(h.id, PizzaPkt(Pack(pizza)))])
    case None =>
      Floor(f.handles + [NewHandle(f.nextId, nCooks).(load := 1)], f.nextId + 1,
            f.outbox + [(f.nextId, PizzaPkt(Pack(pizza)))])
  }

  function Fill(f: Floor, nCooks: nat, pizzas: seq<Pizza>): Floor {
    if pizzas == [] then f
    else Place(Fill(f, nCooks, pizzas[..|pizzas| - 1]), nCooks, pizzas[|pizzas| - 1])
  }

  /** Handles as the reception keeps them: full capacity known, load within it, ids in use and distinct. */
  ghost predicate Orderly(f: Floor, nCooks: nat) {
    && (forall i :: 0 <= i < |f.handles| ==> f.handles[i].load <= f.handles[i].capacity == 2 * nCooks)
    && (forall i :: 0 <= i < |f.handles| ==> f.handles[i].id < f.nextId)
    && (forall i, j :: 0 <= i < j < |f.handles| ==> f.handles[i].id != f.handles[j].id)
  }

  lemma PlaceKeepsOrder(f: Floor, nCooks: nat, pizza: Pizza)
    requires nCooks > 0 && Orderly(f, nCooks)
    ensures Orderly(Place(f, nCooks, pizza), nCooks)
    ensures |f.handles| <= |Place(f, nCooks, pizza).handles|
  {
    BestIsBest(f.handles);
  }

  lemma {:induction false} FillKeepsOrder(f: Floor, nCooks: nat, pizzas: seq<Pizza>)
    requires nCooks > 0 && Orderly(f, nCooks)
    ensures Orderly(Fill(f, nCooks, pizzas), nCooks)
    ensures |f.handles| <= |Fill(f, nCooks, pizzas).handles|
  {
    hide Orderly, Place;
    if pizzas != [] {
      var n := |pizzas| - 1;
      FillKeepsOrder(f, nCooks, pizzas[..n]);
      PlaceKeepsOrder(Fill(f, nCooks, pizzas[..n]), nCooks, pizzas[n]);
    }
  }

  // -------------------------------------------------------- what gets sent where

  ghost function LoadOf(h: Handle): nat {
    h.load
  }

  /** One for each packet addressed to a kitchen. */
  ghost function To(id: nat): ((nat, Packet)) -> nat {
    (m: (nat, Packet)) => if m.0 == id then 1 else 0
  }

  /** The load a kitchen had, or zero if there was none of that id. */
  ghost function LoadAt(id: nat): Handle -> nat {
    (h: Handle) => if h.id == id then h.load else 0
  }

  lemma PlaceCounts(f: Floor, nCooks: nat, pizza: Pizza, id: nat)
    ensures Sum(Place(f, nCooks, pizza).handles, LoadOf) == Sum(f.handles, LoadOf) + 1
    ensures Sum(Place(f, nCooks, pizza).handles, LoadAt(id)) - Sum(f.handles, LoadAt(id))
            == Sum(Place(f, nCooks, pizza).outbox, To(id)) - Sum(f.outbox, To(id))
    ensures var outbox := Place(f, nCooks, pizza).outbox;
      |outbox| == |f.outbox| + 1 && outbox[..|f.outbox|] == f.outbox && outbox[|f.outbox|].1 == PizzaPkt(Pack(pizza))
  {
    BestIsBest(f.handles);
    var f' := Place(f, nCooks, pizza);
    SumAppend(f.outbox, f'.outbox[|f.outbox|], To(id));
    if Best(f.handles).Some? {
      var b := Best(f.handles).value;
      SumUpdate(f.handles, b, f'.handles[b], LoadOf);
      SumUpdate(f.handles, b, f'.handles[b], LoadAt(id));
    } else {
      SumAppend(f.handles, f'.handles[|f.handles|], LoadOf);
      SumAppend(f.handles, f'.handles[|f.handles|], LoadAt(id));
    }
  }

  /**
   A dispatch of q pizzas sends q packets, the pizzas in their order; every kitchen's
   load grows by the packets sent to it, and the total by q.
   */
  lemma {:induction false} FillSendsWhatItCounts(f: Floor, nCooks: nat, pizzas: seq<Pizza>, id: nat)
    ensures var f' := Fill(f, nCooks, pizzas);
      && Sum(f'.handles, LoadOf) == Sum(f.handles, LoadOf) + |pizzas|
      && Sum(f'.handles, LoadAt(id)) - Sum(f.handles, LoadAt(id)) == Sum(f'.outbox, To(id)) - Sum(f.outbox, To(id))
      && |f'.outbox| == |f.outbox| + |pizzas| && f'.outbox[..|f.outbox|] == f.outbox
      && forall i :: 0 <= i < |pizzas| ==> f'.outbox[|f.outbox| + i].1 == PizzaPkt(Pack(pizzas[i]))
  {
    hide Place, To, LoadAt, LoadOf;
    if pizzas != [] {
      var n := |pizzas| - 1;
      FillSendsWhatItCounts(f, nCooks, pizzas[..n], id);
      var g := Fill(f, nCooks, pizzas[..n]);
      PlaceCounts(g, nCooks, pizzas[n], id);
      var f' := Fill(f, nCooks, pizzas);
      assert f'.outbox[..|f.outbox|] == g.outbox[..|f.outbox|];
      forall i | 0 <= i < n ensures f'.outbox[|f.outbox| + i].1 == PizzaPkt(Pack(pizzas[i])) {
        assert pizzas[..n][i] == pizzas[i];
        assert f'.outbox[|f.outbox| + i] == f'.outbox[..|g.outbox|][|f.outbox| + i];
      }
    }
  }

  // ----------------------------------------------------------------- spawning

  ghost function FreeOf(h: Handle): nat {
    if HasRoom(h) then h.capacity - h.load else 0
  }

  ghost function Free(f: Floor): nat {
    Sum(f.handles, FreeOf)
  }

  /** From the first spawn on, only the newest kitchen has room. */
  ghost predicate OnlyLastHasRoom(f: Floor) {
    && f.handles != []
    && (forall i :: 0 <= i < |f.handles| - 1 ==> !HasRoom(f.handles[i]))
    && f.handles[|f.handles| - 1].alive && f.handles[|f.handles| - 1].load >= 1
  }

  lemma PlaceUsesASlot(f: Floor, nCooks: nat, pizza: Pizza)
    requires nCooks > 0 && Orderly(f, nCooks)
    ensures Place(f, nCooks, pizza).nextId - f.nextId == |Place(f, nCooks, pizza).handles| - |f.handles|
    ensures if Free(f) > 0
            then Place(f, nCooks, pizza).nextId == f.nextId && Free(Place(f, nCooks, pizza)) == Free(f) - 1
            else Place(f, nCooks, pizza).nextId == f.nextId + 1 && Free(Place(f, nCooks, pizza)) == 2 * nCooks - 1
    ensures OnlyLastHasRoom(f) || Free(f) == 0 ==> OnlyLastHasRoom(Place(f, nCooks, pizza))
  {
    BestIsBest(f.handles);
    var f' := Place(f, nCooks, pizza);
    match Best(f.handles) {
      case Some(b) =>
        SumUpdate(f.handles, b, f'.handles[b], FreeOf);
        SumMember(f.handles, b, FreeOf);
      case None =>
        SumZero(f.handles, FreeOf);
        SumAppend(f.handles, f'.handles[|f.handles|], FreeOf);
    }
  }

  /** The pizzas that so many fresh kitchens can take. */
  ghost function Slots(capacity: nat, kitchens: nat): nat {
    capacity * kitchens
  }

  lemma OneMore(capacity: nat, kitchens: nat)
    ensures Slots(capacity, kitchens + 1) == Slots(capacity, kitchens) + capacity
    ensures Slots(capacity, 0) == 0
  {
  }

  /** Between two floors so many pizzas took one slot each, and kitchens were opened only for want of slots. */
  ghost predicate SlotsUsed(f: Floor, f': Floor, nCooks: nat, pizzas: nat) {
    && f'.nextId - f.nextId == |f'.handles| - |f.handles| >= 0
    && Free(f') + pizzas == Free(f) + Slots(2 * nCooks, f'.nextId - f.nextId)
    && (f'.nextId > f.nextId ==> OnlyLastHasRoom(f') && Free(f') < 2 * nCooks)
  }

  lemma PlaceKeepsSlots(f: Floor, g: Floor, nCooks: nat, pizzas: nat, pizza: Pizza)
    requires nCooks > 0 && Orderly(g, nCooks) && SlotsUsed(f, g, nCooks, pizzas)
    ensures SlotsUsed(f, Place(g, nCooks, pizza), nCooks, pizzas + 1)
  {
    hide Orderly, Place, Free, OnlyLastHasRoom, Slots;
    PlaceUsesASlot(g, nCooks, pizza);
    OneMore(2 * nCooks, g.nextId - f.nextId);
  }

  lemma {:induction false} FillUsesSlots(f: Floor, nCooks: nat, pizzas: seq<Pizza>)
    requires nCooks > 0 && Orderly(f, nCooks)
    ensures SlotsUsed(f, Fill(f, nCooks, pizzas), nCooks, |pizzas|)
  {
    if pizzas == [] {
      OneMore(2 * nCooks, 0);
    } else {
      hide Orderly, Place, SlotsUsed;
      var n := |pizzas| - 1;
      FillKeepsOrder(f, nCooks, pizzas[..n]);
      FillUsesSlots(f, nCooks, pizzas[..n]);
      PlaceKeepsSlots(f, Fill(f, nCooks, pizzas[..n]), nCooks, n, pizzas[n]);
    }
  }

  /** The least number of kitchens that have to be opened for so many pizzas: ceil(max(0, pizzas - free) / capacity). */
  ghost predicate LeastEnough(spawned: nat, pizzas: nat, free: nat, capacity: nat) {
    && pizzas <= free + Slots(capacity, spawned)
    && (spawned > 0 ==> free + Slots(capacity, spawned - 1) < pizzas)
  }

  /**
   Spawning is exact. A dispatch of q pizzas opens the least number of kitchens that
   makes room for them; if it opens any, every living kitchen but the newest is full and the
   newest has between one pizza and its capacity.
   */
  lemma SpawnsExactly(f: Floor, nCooks: nat, pizzas: seq<Pizza>)
    requires nCooks > 0 && Orderly(f, nCooks)
    ensures var f' := Fill(f, nCooks, pizzas);
      && f'.nextId - f.nextId == |f'.handles| - |f.handles| >= 0
      && LeastEnough(f'.nextId - f.nextId, |pizzas|, Free(f), 2 * nCooks)
      && (f'.nextId > f.nextId ==>
            && (forall i :: 0 <= i < |f'.handles| - 1 && f'.handles[i].alive ==>
                  f'.handles[i].load == f'.handles[i].capacity)
            && 1 <= f'.handles[|f'.handles| - 1].load <= 2 * nCooks)
  {
    FillUsesSlots(f, nCooks, pizzas);
    FillKeepsOrder(f, nCooks, pizzas);
    var f' := Fill(f, nCooks, pizzas);
    hide Fill, Free;
    if f'.nextId > f.nextId { OneMore(2 * nCooks, f'.nextId - f.nextId - 1); }
  }

  // --------------------------------------------------------------- optimality

  /** The same kitchens, and any that has been given a pizza is within one of every living kitchen. */
  ghost predicate Level(before: seq<Handle>, after: seq<Handle>) {
    && |before| == |after|
    && (forall i :: 0 <= i < |before| ==> before[i].load <= after[i].load && before[i].alive == after[i].alive)
    && (forall i :: 0 <= i < |before| && !before[i].alive ==> after[i].load == before[i].load)
    && (forall i, j :: 0 <= i < |after| && 0 <= j < |after| && after[j].alive && before[i].load < after[i].load ==>
          after[i].load <= after[j].load + 1)
  }

  lemma PlaceStaysLevel(before: seq<Handle>, f: Floor, nCooks: nat, pizza: Pizza)
    requires Orderly(f, nCooks) && Level(before, f.handles) && Best(f.handles).Some?
    ensures Level(before, Place(f, nCooks, pizza).handles)
  {
    BestIsBest(f.handles);
  }

  lemma FreeMeansRoom(f: Floor)
    ensures Free(f) > 0 ==> Best(f.handles).Some?
  {
    BestIsBest(f.handles);
    if Best(f.handles).None? { SumZero(f.handles, FreeOf); }
  }

  lemma {:induction false} FillStaysLevel(f: Floor, nCooks: nat, pizzas: seq<Pizza>)
    requires nCooks > 0 && Orderly(f, nCooks) && |pizzas| <= Free(f)
    ensures Level(f.handles, Fill(f, nCooks, pizzas).handles)
  {
    if pizzas != [] {
      var n := |pizzas| - 1;
      hide Orderly, Place, Level, Free;
      var g := Fill(f, nCooks, pizzas[..n]);
      FillKeepsOrder(f, nCooks, pizzas[..n]);
      FillStaysLevel(f, nCooks, pizzas[..n]);
      FillUsesSlots(f, nCooks, pizzas[..n]);
      FreeMeansRoom(g);
      PlaceStaysLevel(f.handles, g, nCooks, pizzas[n]);
    }
  }

  /** A cost that grows at a growing rate, such as the square of the load or its excess over a limit. */
  ghost predicate Convex(cost: int -> int) {
    forall k: int :: cost(k + 1) - cost(k) <= cost(k + 2) - cost(k + 1)
  }

  ghost function Cost(loads: seq<int>, cost: int -> int): int {
    if loads == [] then 0 else Cost(loads[..|loads| - 1], cost) + cost(loads[|loads| - 1])
  }

  function Loads(handles: seq<Handle>): seq<int> {
    seq(|handles|, i requires 0 <= i < |handles| => handles[i].load)
  }

  /** Another way of giving the same kitchens more pizzas. */
  ghost predicate Rival(before: seq<Handle>, loads: seq<int>) {
    && |loads| == |before|
    && (forall i :: 0 <= i < |before| ==> before[i].load <= loads[i] && (!before[i].alive ==> loads[i] == before[i].load))
  }

  ghost function Identity(k: int): int {
    k
  }

  /** A convex cost lies above each of its tangents. */
  lemma {:induction false} AboveTangent(cost: int -> int, a: int, b: int, slope: int)
    requires Convex(cost)
    requires b > a ==> slope <= cost(a + 1) - cost(a)
    requires b < a ==> cost(a) - cost(a - 1) <= slope
    ensures cost(b) - cost(a) >= slope * (b - a)
    decreases if b > a then b - a else a - b
  {
    if b > a {
      assert cost(a + 1) - cost(a) <= cost(a + 2) - cost(a + 1);
      AboveTangent(cost, a + 1, b, slope);
      assert slope * (b - a) == slope * (b - (a + 1)) + slope;
    } else if b < a {
      assert cost(a - 2 + 1) - cost(a - 2) <= cost(a - 2 + 2) - cost(a - 2 + 1);
      AboveTangent(cost, a - 1, b, slope);
      assert slope * (b - a) == slope * (b - (a - 1)) - slope;
    }
  }

  /** From one slope to a later one. */
  lemma {:induction false} SlopesGrow(cost: int -> int, a: int, b: int)
    requires Convex(cost) && a <= b
    ensures cost(a) - cost(a - 1) <= cost(b) - cost(b - 1)
    decreases b - a
  {
    if a < b {
      assert cost(a - 1 + 1) - cost(a - 1) <= cost(a - 1 + 2) - cost(a - 1 + 1);
      SlopesGrow(cost, a + 1, b);
    }
  }

  lemma {:induction false} CostAboveTangents(g: seq<int>, y: seq<int>, cost: int -> int, slope: int)
    requires |g| == |y|
    requires forall i :: 0 <= i < |g| ==> cost(y[i]) - cost(g[i]) >= slope * (y[i] - g[i])
    ensures Cost(y, cost) - Cost(g, cost) >= slope * (Cost(y, Identity) - Cost(g, Identity))
  {
    if g != [] {
      var n := |g| - 1;
      CostAboveTangents(g[..n], y[..n], cost, slope);
      var d, e := Cost(y[..n], Identity) - Cost(g[..n], Identity), y[n] - g[n];
      assert slope * (d + e) == slope * d + slope * e;
    }
  }

  /** The fullest of the kitchens that were given something. */
  lemma {:induction false} FullestServed(x: seq<int>, g: seq<int>) returns (r: nat)
    requires |x| == |g| && (forall i :: 0 <= i < |x| ==> x[i] <= g[i]) && x != g
    ensures r < |x| && x[r] < g[r]
    ensures forall i :: 0 <= i < |x| && x[i] < g[i] ==> g[i] <= g[r]
  {
    var n := |x| - 1;
    if x[..n] == g[..n] {
      assert x == x[..n] + [x[n]] && g == g[..n] + [g[n]];
      forall i | 0 <= i < n ensures x[i] == g[i] {
        assert x[..n][i] == g[..n][i];
      }
      r := n;
    } else {
      r := FullestServed(x[..n], g[..n]);
      assert x[..n][r] == x[r] && g[..n][r] == g[r];
      forall i | 0 <= i < n && x[i] < g[i] ensures g[i] <= g[r] {
        assert x[..n][i] < g[..n][i];
      }
      if x[n] < g[n] && g[r] < g[n] { r := n; }
    }
  }

  /** The tangent at m supports the cost at every load that is at least m - 1, and below m - 1 wherever it can drop. */
  lemma Supported(cost: int -> int, m: int, g: int, y: int)
    requires Convex(cost) && m - 1 <= g && (y < g ==> g <= m)
    ensures cost(y) - cost(g) >= (cost(m) - cost(m - 1)) * (y - g)
  {
    if y > g {
      SlopesGrow(cost, m, g + 1);
    } else if y < g {
      SlopesGrow(cost, g, m);
    }
    AboveTangent(cost, g, y, cost(m) - cost(m - 1));
  }

  lemma LevelIsOptimal(before: seq<Handle>, after: seq<Handle>, y: seq<int>, cost: int -> int)
    requires Convex(cost) && Level(before, after) && Rival(before, y)
    requires Cost(y, Identity) == Cost(Loads(after), Identity)
    ensures Cost(Loads(after), cost) <= Cost(y, cost)
  {
    hide Convex, Cost;
    var x, g := Loads(before), Loads(after);
    if x == g {
      SameTotalSameLoads(x, y);
    } else {
      forall i | 0 <= i < |x| ensures x[i] <= g[i] {}
      var r := FullestServed(x, g);
      var slope := cost(g[r]) - cost(g[r] - 1);
      forall i | 0 <= i < |g| ensures cost(y[i]) - cost(g[i]) >= slope * (y[i] - g[i]) {
        assert x[i] == before[i].load && g[i] == after[i].load;
        RivalAt(before, after, y, r, i);
        if y[i] != g[i] { Supported(cost, g[r], g[i], y[i]); }
      }
      CostAboveTangents(g, y, cost, slope);
    }
  }

  lemma RivalAt(before: seq<Handle>, after: seq<Handle>, y: seq<int>, r: nat, i: nat)
    requires Level(before, after) && Rival(before, y)
    requires r < |after| && before[r].load < after[r].load && i < |after|
    requires before[i].load < after[i].load ==> after[i].load <= after[r].load
    ensures y[i] == after[i].load ||
            (after[r].load - 1 <= after[i].load && (y[i] < after[i].load ==> after[i].load <= after[r].load))
  {
  }

  /**
   As balanced as possible. If the kitchens have room for all the pizzas, then no other
   way of giving the same pizzas to the same kitchens has a lower total cost, for any
   convex cost of a load.
   */
  lemma GreedyIsOptimal(f: Floor, nCooks: nat, pizzas: seq<Pizza>, y: seq<int>, cost: int -> int)
    requires nCooks > 0 && Orderly(f, nCooks) && |pizzas| <= Free(f)
    requires Convex(cost)
    requires Rival(f.handles, y) && Cost(y, Identity) == Cost(Loads(f.handles), Identity) + |pizzas|
    ensures Cost(Loads(Fill(f, nCooks, pizzas).handles), cost) <= Cost(y, cost)
  {
    hide Convex, Level, Rival, Orderly, Loads;
    FillStaysLevel(f, nCooks, pizzas);
    FillSendsWhatItCounts(f, nCooks, pizzas, 0);
    LoadsSum(f.handles);
    LoadsSum(Fill(f, nCooks, pizzas).handles);
    LevelIsOptimal(f.handles, Fill(f, nCooks, pizzas).handles, y, cost);
  }

  lemma {:induction false} LoadsSum(handles: seq<Handle>)
    ensures Cost(Loads(handles), Identity) == Sum(handles, LoadOf)
  {
    if handles != [] {
      var n := |handles| - 1;
      LoadsSum(handles[..n]);
      assert Loads(handles)[..n] == Loads(handles[..n]);
    }
  }

  lemma {:induction false} SameTotalSameLoads(x: seq<int>, y: seq<int>)
    requires |x| == |y| && forall i :: 0 <= i < |x| ==> x[i] <= y[i]
    ensures Cost(x, Identity) <= Cost(y, Identity)
    ensures Cost(x, Identity) == Cost(y, Identity) ==> x == y
  {
    if x != [] {
      var n := |x| - 1;
      SameTotalSameLoads(x[..n], y[..n]);
      assert x == x[..n] + [x[n]] && y == y[..n] + [y[n]];
    }
  }

  ghost function Square(k: int): int {
    k * k
  }

  /** How far a load exceeds a limit. */
  ghost function Excess(limit: int): int -> int {
    (k: int) => if k > limit then k - limit else 0
  }

  lemma SquareIsConvex()
    ensures Convex(Square)
  {
  }

  lemma ExcessIsConvex(limit: int)
    ensures Convex(Excess(limit))
  {
  }

  /** In particular the sum of the squared loads is least, and so is the highest load. */
  lemma GreedyEvensOut(f: Floor, nCooks: nat, pizzas: seq<Pizza>, y: seq<int>, limit: int)
    requires nCooks > 0 && Orderly(f, nCooks) && |pizzas| <= Free(f)
    requires Rival(f.handles, y) && Cost(y, Identity) == Cost(Loads(f.handles), Identity) + |pizzas|
    ensures Cost(Loads(Fill(f, nCooks, pizzas).handles), Square) <= Cost(y, Square)
    ensures (forall i :: 0 <= i < |y| ==> y[i] <= limit) ==>
      forall h :: h in Fill(f, nCooks, pizzas).handles ==> h.load <= limit
  {
    hide Orderly, Fill, Free, Rival, Cost;
    SquareIsConvex();
    ExcessIsConvex(limit);
    GreedyIsOptimal(f, nCooks, pizzas, y, Square);
    GreedyIsOptimal(f, nCooks, pizzas, y, Excess(limit));
    var after := Fill(f, nCooks, pizzas).handles;
    if forall i :: 0 <= i < |y| ==> y[i] <= limit {
      NoExcess(y, limit);
      forall i | 0 <= i < |after| ensures after[i].load <= limit {
        ExcessShows(Loads(after), i, limit);
      }
    }
  }

  lemma {:induction false} EachHasOneFree(handles: seq<Handle>)
    requires forall i :: 0 <= i < |handles| ==> HasRoom(handles[i])
    ensures Sum(handles, FreeOf) >= |handles|
  {
    if handles != [] { EachHasOneFree(handles[..|handles| - 1]); }
  }

  lemma {:induction false} EachHasOneMore(before: seq<Handle>, after: seq<Handle>)
    requires |before| == |after| && forall i :: 0 <= i < |before| ==> before[i].load < after[i].load
    ensures Sum(after, LoadOf) >= Sum(before, LoadOf) + |before|
    ensures (exists i :: 0 <= i < |before| && before[i].load + 1 < after[i].load) ==>
      Sum(after, LoadOf) > Sum(before, LoadOf) + |before|
  {
    if before != [] {
      var n := |before| - 1;
      EachHasOneMore(before[..n], after[..n]);
      if i :| 0 <= i < n && before[i].load + 1 < after[i].load {
        assert before[..n][i].load + 1 < after[..n][i].load;
      }
    }
  }

  /** Seven pizzas and seven kitchens with equal loads: no kitchen is given two, and none is opened. */
  lemma NobodyGetsTwo(f: Floor, nCooks: nat, pizzas: seq<Pizza>, load: nat)
    requires nCooks > 0 && Orderly(f, nCooks) && |pizzas| <= |f.handles| && load < 2 * nCooks
    requires forall i :: 0 <= i < |f.handles| ==> f.handles[i].alive && f.handles[i].load == load
    ensures var after := Fill(f, nCooks, pizzas).handles;
      |after| == |f.handles| && forall i :: 0 <= i < |after| ==> load <= after[i].load <= load + 1
  {
    hide Fill;
    EachHasOneFree(f.handles);
    FillStaysLevel(f, nCooks, pizzas);
    FillSendsWhatItCounts(f, nCooks, pizzas, 0);
    var after := Fill(f, nCooks, pizzas).handles;
    hide Sum;
    if i :| 0 <= i < |after| && after[i].load > load + 1 {
      forall j | 0 <= j < |after| ensures f.handles[j].load < after[j].load {
        assert after[i].load <= after[j].load + 1;
      }
      EachHasOneMore(f.handles, after);
    }
  }

  lemma {:induction false} NoExcess(loads: seq<int>, limit: int)
    requires forall i :: 0 <= i < |loads| ==> loads[i] <= limit
    ensures Cost(loads, Excess(limit)) == 0
  {
    if loads != [] { NoExcess(loads[..|loads| - 1], limit); }
  }

  lemma {:induction false} ExcessShows(loads: seq<int>, i: nat, limit: int)
    requires i < |loads|
    ensures Cost(loads, Excess(limit)) >= 0
    ensures loads[i] > limit ==> Cost(loads, Excess(limit)) > 0
  {
    var n := |loads| - 1;
    if n > 0 { ExcessShows(loads[..n], if i < n then i else 0, limit); }
  }
}
