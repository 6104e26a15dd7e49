/** The order book of the shell: how many pizzas each order still waits for, and which orders have been announced. */
module Orders {
  import opened Menu

  // ----------------------------------------------------------------- the book

  datatype Book = Book(pending: seq<(nat, nat)>, lastId: nat, announced: seq<nat>)

  const EMPTY_BOOK := Book([], 0, [])

  /** An order of so many pizzas comes in; one of none is not entered. */
  function Entered(b: Book, total: nat): Book {
    if total == 0 then b else b.(pending := b.pending + [(b.lastId + 1, total)], lastId := b.lastId + 1)
  }

  /** A Done comes in: the oldest pending order waits for one pizza less, and is announced when it waits for none. */
  function Ticked(b: Book): Book {
    if b.pending == [] then b
    else if b.pending[0].1 <= 1 then b.(pending := b.pending[1..], announced := b.announced + [b.pending[0].0])
    else b.(pending := b.pending[0 := (b.pending[0].0, b.pending[0].1 - 1)])
  }

  /** The pizzas of the first orders together. */
  function Prefix(quantities: seq<nat>, k: nat): nat
    requires k <= |quantities|
  {
    if k == 0 then 0 else Prefix(quantities, k - 1) + quantities[k - 1]
  }

  /** The book after these orders, in this sequence, and so many Dones, none of which was one too many. */
  ghost predicate BookInv(b: Book, quantities: seq<nat>, dones: nat) {
    && b.lastId == |quantities| == |b.announced| + |b.pending|
    && (forall i :: 0 <= i < |quantities| ==> quantities[i] > 0)
    && (forall i :: 0 <= i < |b.announced| ==> b.announced[i] == i + 1)
    && (forall i :: 0 <= i < |b.pending| ==> b.pending[i].0 == |b.announced| + i + 1)
    && (forall i :: 1 <= i < |b.pending| ==> b.pending[i].1 == quantities[|b.announced| + i])
    && Prefix(quantities, |b.announced|) <= dones
    && (b.pending == [] ==> dones == Prefix(quantities, |quantities|))
    && (b.pending != [] ==>
          b.pending[0].1 > 0 && dones + b.pending[0].1 == Prefix(quantities, |b.announced| + 1))
  }

  lemma {:induction false} PrefixExtended(quantities: seq<nat>, more: nat, k: nat)
    requires k <= |quantities|
    ensures Prefix(quantities + [more], k) == Prefix(quantities, k)
  {
    if k > 0 { PrefixExtended(quantities, more, k - 1); }
  }

  lemma {:induction false} PrefixGrows(quantities: seq<nat>, j: nat, k: nat)
    requires j <= k <= |quantities|
    ensures Prefix(quantities, j) <= Prefix(quantities, k)
  {
    if j < k { PrefixGrows(quantities, j, k - 1); }
  }

  lemma EnteringKeepsBook(b: Book, quantities: seq<nat>, dones: nat, total: nat)
    requires BookInv(b, quantities, dones) && total > 0
    ensures BookInv(Entered(b, total), quantities + [total], dones)
  {
    PrefixExtended(quantities, total, |b.announced|);
    PrefixExtended(quantities, total, |quantities|);
    if b.pending != [] { PrefixExtended(quantities, total, |b.announced| + 1); }
  }

  lemma TickKeepsBook(b: Book, quantities: seq<nat>, dones: nat)
    requires BookInv(b, quantities, dones) && dones < Prefix(quantities, |quantities|)
    ensures b.pending != [] && BookInv(Ticked(b), quantities, dones + 1)
  {
  }

  /**
   Order number k has been announced exactly when as many Dones have come in as orders
   1 to k have pizzas; announcements are in the sequence of the orders.
   */
  lemma AnnouncedWhenCounted(b: Book, quantities: seq<nat>, dones: nat, k: nat)
    requires BookInv(b, quantities, dones) && 1 <= k <= |quantities|
    ensures k in b.announced <==> Prefix(quantities, k) <= dones
    ensures forall i :: 0 <= i < |b.announced| ==> b.announced[i] == i + 1
  {
    if k <= |b.announced| {
      assert b.announced[k - 1] == k;
      PrefixGrows(quantities, k, |b.announced|);
    } else {
      PrefixGrows(quantities, |b.announced| + 1, k);
    }
  }

  /** The announcement of order k comes with Done number q1 + ... + qk, neither earlier nor later. */
  lemma AnnouncedOnItsLastDone(b: Book, quantities: seq<nat>, dones: nat, k: nat)
    requires BookInv(b, quantities, dones) && dones < Prefix(quantities, |quantities|) && 1 <= k <= |quantities|
    ensures k !in b.announced && k in Ticked(b).announced <==> dones + 1 == Prefix(quantities, k)
  {
    TickKeepsBook(b, quantities, dones);
    AnnouncedWhenCounted(b, quantities, dones, k);
    AnnouncedWhenCounted(Ticked(b), quantities, dones + 1, k);
  }

  ghost function Outstanding(pending: seq<(nat, nat)>): nat {
    if pending == [] then 0 else Outstanding(pending[..|pending| - 1]) + pending[|pending| - 1].1
  }

  /** All that is entered and not yet done is outstanding. */
  lemma {:induction false} OutstandingIsRest(b: Book, quantities: seq<nat>, dones: nat)
    requires BookInv(b, quantities, dones)
    ensures Outstanding(b.pending) + dones == Prefix(quantities, |quantities|)
    decreases |b.pending|
  {
    if |b.pending| > 0 {
      var m := |quantities| - 1;
      var shorter := b.(pending := b.pending[..|b.pending| - 1], lastId := m);
      if |b.pending| > 1 {
        PrefixExtended(quantities[..m], quantities[m], |b.announced|);
        PrefixExtended(quantities[..m], quantities[m], |b.announced| + 1);
        PrefixExtended(quantities[..m], quantities[m], m);
        assert quantities == quantities[..m] + [quantities[m]];
        OutstandingIsRest(shorter, quantities[..m], dones);
      } else {
        assert Outstanding(b.pending[..0]) == 0;
      }
    }
  }

  // ------------------------------------------------------------- the callbacks

  datatype PizzaOrder = PizzaOrder(kind: PizzaType, size: PizzaSize, quantity: nat)

  const INT_LIMIT: int := 0x8000_0000

  /** static_cast<int> of a std::size_t. */
  function ToInt(quantity: nat): int {
    var low := quantity % 0x1_0000_0000;
    if low < INT_LIMIT then low else low - 0x1_0000_0000
  }

  function Quantity(orders: seq<PizzaOrder>): nat {
    if orders == [] then 0 else Quantity(orders[..|orders| - 1]) + orders[|orders| - 1].quantity
  }

  /** A sum of two ints in 32 bits, wrapping around. */
  function Added(a: int, b: int): int {
    if a + b >= INT_LIMIT then a + b - 0x1_0000_0000
    else if a + b < -INT_LIMIT then a + b + 0x1_0000_0000
    else a + b
  }

  lemma AddingCasts(a: nat, b: nat)
    ensures Added(ToInt(a), ToInt(b)) == ToInt(a + b)
  {
    var low := a % 0x1_0000_0000 + b % 0x1_0000_0000;
    var high := a / 0x1_0000_0000 + b / 0x1_0000_0000;
    assert a + b == 0x1_0000_0000 * high + low;
    if low < 0x1_0000_0000 {
      Remainder(a + b, high, low);
    } else {
      Remainder(a + b, high + 1, low - 0x1_0000_0000);
    }
  }

  lemma Remainder(x: nat, q: nat, r: nat)
    requires x == 0x1_0000_0000 * q + r && r < 0x1_0000_0000
    ensures x % 0x1_0000_0000 == r
  {
  }

  /**
   The int that a quantity becomes is the quantity itself exactly below 2^31; so the book waits
   for as many pizzas as are dispatched exactly if the whole order has fewer than that.
   */
  lemma CastIsExactBelowLimit(quantity: nat)
    ensures -0x8000_0000 <= ToInt(quantity) < 0x8000_0000 && ToInt(quantity) <= quantity
    ensures ToInt(quantity) == quantity <==> quantity < 0x8000_0000
    ensures (quantity - ToInt(quantity)) % 0x1_0000_0000 == 0
  {
  }

  /** The order callback and the Done callback, with the state they capture. */
  class OrderDesk {
    var pendingOrders: seq<(nat, nat)>
    var nextOrderId: nat
    var announced: seq<nat>

    ghost function View(): Book
      reads this
    {
      Book(pendingOrders, nextOrderId, announced)
    }

    ghost predicate Valid()
      reads this
    {
      forall i :: 0 <= i < |pendingOrders| ==> pendingOrders[i].1 > 0
    }

    constructor ()
      ensures Valid() && View() == EMPTY_BOOK
    {
      pendingOrders, nextOrderId, announced := [], 0, [];
    }

    /**
     Adds up the quantities as ints, wrapping around as two's complement does where the standard leaves
     the outcome open, and enters a positive total: whatever the quantities, that is the cast of their sum.
     */
    method PlaceOrder(orders: seq<PizzaOrder>)
      requires Valid()
      modifies this
      ensures Valid()
      ensures View() == if ToInt(Quantity(orders)) > 0 then Entered(old(View()), ToInt(Quantity(orders)))
                        else old(View())
    {
      var total := 0;
      for i := 0 to |orders|
        invariant total == ToInt(Quantity(orders[..i]))
        invariant Valid() && View() == old(View())
      {
        assert orders[..i + 1][..i] == orders[..i];
        AddingCasts(Quantity(orders[..i]), orders[i].quantity);
        total := Added(total, ToInt(orders[i].quantity));
      }
      assert orders[..|orders|] == orders;
      if total > 0 {
        nextOrderId := nextOrderId + 1;
        pendingOrders := pendingOrders + [(nextOrderId, total)];
      }
    }

    method PizzaDone()
      requires Valid()
      modifies this
      ensures Valid() && View() == Ticked(old(View()))
    {
      if pendingOrders == [] { return; }
      var (id, left) := pendingOrders[0];
      pendingOrders := pendingOrders[0 := (id, left - 1)];
      if left - 1 == 0 {
        announced := announced + [id];
        pendingOrders := pendingOrders[1..];
      }
    }
  }
}
