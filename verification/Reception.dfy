/**
 The load balancer as the reception keeps it: a vector of kitchen handles updated in
 place. What a kitchen's result queue yields while it is drained is a parameter; what
 goes into the order queues, and every call of the Done callback, is recorded in order.
 */
module Reception {
  import opened Menu
  import opened Protocol
  import opened Allocation
  import opened Orders

  // --------------------------------------------------------- a drained queue

  /** A handle after the reception has dealt with these packets. */
  function Received(h: Handle, packets: seq<Packet>): Handle {
    if packets == [] then h
    else Handled(Received(h, packets[..|packets| - 1]), packets[|packets| - 1])
  }

  function DonesIn(packets: seq<Packet>): seq<Pizza> {
    if packets == [] then []
    else
      var p := packets[|packets| - 1];
      DonesIn(packets[..|packets| - 1]) + if p.DonePkt? then [Read(p.slip)] else []
  }

  function Refusals(packets: seq<Packet>): nat {
    if packets == [] then 0
    else Refusals(packets[..|packets| - 1]) + if packets[|packets| - 1].FullPkt? then 1 else 0
  }

  predicate SaysGoodbye(packets: seq<Packet>) {
    exists i :: 0 <= i < |packets| && packets[i].ShutdownPkt?
  }

  /** The last word on a survey: the reply, or the kitchen's end. */
  predicate Answers(packets: seq<Packet>) {
    exists i :: 0 <= i < |packets| && (packets[i].StatusReplyPkt? || packets[i].ShutdownPkt?)
  }

  lemma {:induction false} ReceivedAppend(h: Handle, a: seq<Packet>, b: seq<Packet>)
    ensures Received(h, a + b) == Received(Received(h, a), b)
    ensures DonesIn(a + b) == DonesIn(a) + DonesIn(b)
  {
    if b == [] {
      assert a + b == a && DonesIn(a) + [] == DonesIn(a);
    } else {
      hide Handled;
      var n := |b| - 1;
      ReceivedAppend(h, a, b[..n]);
      LastReceived(h, b);
      LastReceived(Received(h, a), b);
      LastReceived(h, a + b);
      hide Received, DonesIn;
      assert (a + b)[..|a + b| - 1] == a + b[..n];
    }
  }

  lemma LastReceived(h: Handle, packets: seq<Packet>)
    requires packets != []
    ensures var n := |packets| - 1;
      && Received(h, packets) == Handled(Received(h, packets[..n]), packets[n])
      && DonesIn(packets) == DonesIn(packets[..n]) + if packets[n].DonePkt? then [Read(packets[n].slip)] else []
  {
  }

  lemma ReceivedNext(h: Handle, packets: seq<Packet>, n: nat)
    requires n < |packets|
    ensures Received(h, packets[..n + 1]) == Handled(Received(h, packets[..n]), packets[n])
    ensures Received(h, packets[..n + 1]).id == Received(h, packets[..n]).id
    ensures DonesIn(packets[..n + 1]) ==
      if packets[n].DonePkt? then DonesIn(packets[..n]) + [Read(packets[n].slip)] else DonesIn(packets[..n])
  {
    assert packets[..n + 1][..n] == packets[..n];
  }

  /**
   Each Done and each Full takes one off the load, which stops at zero; the kitchen is
   dead once its Shutdown has been read; who it is and what it can take never change.
   */
  lemma {:induction false} ReceivedMeans(h: Handle, packets: seq<Packet>)
    ensures var h', answers := Received(h, packets), |DonesIn(packets)| + Refusals(packets);
      && h'.load == (if h.load > answers then h.load - answers else 0)
      && h'.id == h.id && h'.capacity == h.capacity
      && (h'.alive <==> h.alive && !SaysGoodbye(packets))
  {
    if packets != [] {
      var n := |packets| - 1;
      ReceivedMeans(h, packets[..n]);
      if SaysGoodbye(packets[..n]) {
        var i :| 0 <= i < n && packets[..n][i].ShutdownPkt?;
        assert packets[i].ShutdownPkt?;
      }
      if SaysGoodbye(packets) && !packets[n].ShutdownPkt? {
        var i :| 0 <= i < |packets| && packets[i].ShutdownPkt?;
        assert packets[..n][i].ShutdownPkt?;
      }
    }
  }

  // ------------------------------------------------------------- whole floors

  type Inbox = nat -> seq<Packet>

  /** The handles when each living kitchen's queue has been drained. */
  function Drained(handles: seq<Handle>, inbox: Inbox): seq<Handle> {
    seq(|handles|, i requires 0 <= i < |handles| =>
      if handles[i].alive then Received(handles[i], inbox(handles[i].id)) else handles[i])
  }

  function Living(handles: seq<Handle>): seq<Handle> {
    if handles == [] then []
    else
      var h := handles[|handles| - 1];
      Living(handles[..|handles| - 1]) + if h.alive then [h] else []
  }

  /** Erasing the dead keeps exactly the living. */
  lemma {:induction false} LivingExactly(handles: seq<Handle>, h: Handle)
    ensures h in Living(handles) <==> h in handles && h.alive
  {
    if handles != [] {
      var n := |handles| - 1;
      LivingExactly(handles[..n], h);
      assert handles == handles[..n] + [handles[n]];
    }
  }

  lemma DrainedLive(handles: seq<Handle>, inbox: Inbox)
    ensures forall h :: h in Living(Drained(handles, inbox)) <==>
      h.alive && exists i :: 0 <= i < |handles| && handles[i].alive && h == Received(handles[i], inbox(handles[i].id))
  {
    hide Received, Living;
    var drained := Drained(handles, inbox);
    forall h
      ensures h in Living(drained) <==>
        h.alive && exists i :: 0 <= i < |handles| && handles[i].alive && h == Received(handles[i], inbox(handles[i].id))
    {
      LivingExactly(drained, h);
      if i :| 0 <= i < |handles| && handles[i].alive && h == Received(handles[i], inbox(handles[i].id)) {
        assert drained[i] == h;
      }
      if h in drained && h.alive {
        var i :| 0 <= i < |drained| && drained[i] == h;
        assert handles[i].alive && h == Received(handles[i], inbox(handles[i].id));
      }
    }
  }

  lemma DrainedOrderly(handles: seq<Handle>, inbox: Inbox, next: nat, outbox: seq<(nat, Packet)>, nCooks: nat)
    requires Orderly(Floor(handles, next, outbox), nCooks)
    ensures Orderly(Floor(Drained(handles, inbox), next, outbox), nCooks)
  {
    forall i | 0 <= i < |handles|
      ensures Drained(handles, inbox)[i].load <= Drained(handles, inbox)[i].capacity == 2 * nCooks
      ensures Drained(handles, inbox)[i].id == handles[i].id
    {
      ReceivedMeans(handles[i], inbox(handles[i].id));
    }
  }

  lemma OrderlyFront(handles: seq<Handle>, next: nat, outbox: seq<(nat, Packet)>, nCooks: nat)
    requires handles != [] && Orderly(Floor(handles, next, outbox), nCooks)
    ensures var n := |handles| - 1;
      && Orderly(Floor(handles[..n], next, outbox), nCooks)
      && handles[n].load <= handles[n].capacity == 2 * nCooks && handles[n].id < next
      && forall h :: h in handles[..n] ==> h.id != handles[n].id
  {
  }

  lemma OrderlyMore(handles: seq<Handle>, h: Handle, next: nat, outbox: seq<(nat, Packet)>, nCooks: nat)
    requires Orderly(Floor(handles, next, outbox), nCooks)
    requires h.load <= h.capacity == 2 * nCooks && h.id < next && forall g :: g in handles ==> g.id != h.id
    ensures Orderly(Floor(handles + [h], next, outbox), nCooks)
  {
  }

  lemma {:induction false} LivingOrderly(handles: seq<Handle>, next: nat, outbox: seq<(nat, Packet)>, nCooks: nat)
    requires Orderly(Floor(handles, next, outbox), nCooks)
    ensures Orderly(Floor(Living(handles), next, outbox), nCooks)
  {
    if handles != [] {
      hide Orderly;
      var n := |handles| - 1;
      OrderlyFront(handles, next, outbox, nCooks);
      LivingOrderly(handles[..n], next, outbox, nCooks);
      forall h | h in Living(handles[..n]) ensures h.id != handles[n].id {
        LivingExactly(handles[..n], h);
      }
      OrderlyMore(Living(handles[..n]), handles[n], next, outbox, nCooks);
      assert Living(handles[..n]) + [] == Living(handles[..n]);
    }
  }

  /** The calls of the Done callback that speak of one kitchen. */
  function About(calls: seq<(nat, Pizza)>, id: nat): seq<Pizza> {
    if calls == [] then []
    else
      var c := calls[|calls| - 1];
      About(calls[..|calls| - 1], id) + if c.0 == id then [c.1] else []
  }

  lemma AboutAppend(calls: seq<(nat, Pizza)>, call: (nat, Pizza), id: nat)
    ensures About(calls + [call], id) == About(calls, id) + if call.0 == id then [call.1] else []
  {
    assert (calls + [call])[..|calls|] == calls;
  }

  /** Between two states of the record the callback was called for these pizzas of one kitchen, and for no other. */
  ghost predicate Called(before: seq<(nat, Pizza)>, after: seq<(nat, Pizza)>, id: nat, pizzas: seq<Pizza>) {
    forall k :: About(after, k) == About(before, k) + if k == id then pizzas else []
  }

  lemma CalledOnceMore(before: seq<(nat, Pizza)>, calls: seq<(nat, Pizza)>, id: nat, pizzas: seq<Pizza>, pizza: Pizza)
    requires Called(before, calls, id, pizzas)
    ensures Called(before, calls + [(id, pizza)], id, pizzas + [pizza])
  {
    forall k ensures About(calls + [(id, pizza)], k) == About(before, k) + if k == id then pizzas + [pizza] else [] {
      AboutAppend(calls, (id, pizza), k);
    }
  }

  /** Every living kitchen's Dones were called out, and nothing else. */
  ghost predicate CalledOut(before: seq<(nat, Pizza)>, after: seq<(nat, Pizza)>, handles: seq<Handle>, inbox: Inbox) {
    && (forall i :: 0 <= i < |handles| && handles[i].alive ==>
          About(after, handles[i].id) == About(before, handles[i].id) + DonesIn(inbox(handles[i].id)))
    && (forall id :: (forall i :: 0 <= i < |handles| && handles[i].alive ==> handles[i].id != id) ==>
          About(after, id) == About(before, id))
  }

  lemma NobodyCalled(calls: seq<(nat, Pizza)>, inbox: Inbox)
    ensures CalledOut(calls, calls, [], inbox)
  {
  }

  lemma CalledOutMore(before: seq<(nat, Pizza)>, calls: seq<(nat, Pizza)>, after: seq<(nat, Pizza)>,
                      f: Floor, nCooks: nat, n: nat, inbox: Inbox)
    requires n < |f.handles| && Orderly(f, nCooks)
    requires CalledOut(before, calls, f.handles[..n], inbox)
    requires var h := f.handles[n];
      if h.alive then Called(calls, after, h.id, DonesIn(inbox(h.id))) else after == calls
    ensures CalledOut(before, after, f.handles[..n + 1], inbox)
  {
    var shorter, longer := f.handles[..n], f.handles[..n + 1];
    forall id | forall i :: 0 <= i < |longer| && longer[i].alive ==> longer[i].id != id
      ensures About(after, id) == About(before, id)
    {
      forall i | 0 <= i < n && shorter[i].alive ensures shorter[i].id != id {
        assert longer[i].alive;
      }
    }
    forall i | 0 <= i < |longer| && longer[i].alive
      ensures About(after, longer[i].id) == About(before, longer[i].id) + DonesIn(inbox(longer[i].id))
    {
      if i < n {
        assert shorter[i] == longer[i];
      } else {
        forall j | 0 <= j < n && shorter[j].alive ensures shorter[j].id != longer[n].id {
          assert f.handles[j].id != f.handles[n].id;
        }
      }
    }
  }

  lemma NothingReceived(h: Handle, calls: seq<(nat, Pizza)>)
    ensures Received(h, []) == h && DonesIn([]) == [] && Called(calls, calls, h.id, [])
  {
  }

  /** The pizzas of an order list one by one, in the sequence of the orders. */
  function Expanded(orders: seq<PizzaOrder>): seq<Pizza> {
    if orders == [] then []
    else
      var o := orders[|orders| - 1];
      Expanded(orders[..|orders| - 1]) + Copies(o.quantity, Pizza(o.kind, o.size))
  }

  function Copies(n: nat, pizza: Pizza): (s: seq<Pizza>)
    ensures |s| == n
  {
    seq(n, _ => pizza)
  }

  lemma ExpandedNext(orders: seq<PizzaOrder>, o: nat)
    requires o < |orders|
    ensures var next := orders[o];
      Expanded(orders[..o + 1]) == Expanded(orders[..o]) + Copies(next.quantity, Pizza(next.kind, next.size))
  {
    assert orders[..o + 1][..o] == orders[..o];
  }

  lemma FillNext(f: Floor, nCooks: nat, placed: seq<Pizza>, n: nat, pizza: Pizza)
    ensures Fill(f, nCooks, placed + Copies(n + 1, pizza)) ==
            Place(Fill(f, nCooks, placed + Copies(n, pizza)), nCooks, pizza)
    ensures placed + Copies(0, pizza) == placed
  {
    hide Place;
    var before, after := placed + Copies(n, pizza), placed + Copies(n + 1, pizza);
    assert after[..|after| - 1] == before;
    assert after[|after| - 1] == pizza;
  }

  lemma {:induction false} ExpandedCounts(orders: seq<PizzaOrder>)
    ensures |Expanded(orders)| == Quantity(orders)
  {
    if orders != [] { ExpandedCounts(orders[..|orders| - 1]); }
  }

  /** After the pizzas of the orders before it come as many as an order asks for, of its type and size. */
  lemma {:induction false} ExpandedAt(orders: seq<PizzaOrder>, o: nat, i: nat)
    requires o < |orders| && i < orders[o].quantity
    ensures Quantity(orders[..o]) + i < |Expanded(orders)|
    ensures var pizza := Expanded(orders)[Quantity(orders[..o]) + i];
      pizza.kind == orders[o].kind && pizza.size == orders[o].size
  {
    var n := |orders| - 1;
    ExpandedCounts(orders[..n]);
    if o < n {
      assert orders[..n][o] == orders[o] && orders[..n][..o] == orders[..o];
      ExpandedAt(orders[..n], o, i);
    }
  }

  function Requests(handles: seq<Handle>): seq<(nat, Packet)> {
    if handles == [] then []
    else
      var h := handles[|handles| - 1];
      Requests(handles[..|handles| - 1]) + if h.alive then [(h.id, StatusRequestPkt)] else []
  }

  function Dismissals(handles: seq<Handle>): seq<(nat, Packet)> {
    if handles == [] then []
    else
      var h := handles[|handles| - 1];
      Dismissals(handles[..|handles| - 1]) + if h.alive then [(h.id, ShutdownPkt)] else []
  }

  lemma DismissOne(sent: seq<(nat, Packet)>, handles: seq<Handle>, k: nat)
    requires k < |handles|
    ensures sent + Dismissals(handles[..k + 1]) ==
      if handles[k].alive then sent + Dismissals(handles[..k]) + [(handles[k].id, ShutdownPkt)]
      else sent + Dismissals(handles[..k])
  {
    assert handles[..k + 1][..k] == handles[..k];
  }

  /** The ids of the living. */
  function Respondents(handles: seq<Handle>): seq<nat> {
    if handles == [] then []
    else
      var h := handles[|handles| - 1];
      Respondents(handles[..|handles| - 1]) + if h.alive then [h.id] else []
  }

  lemma {:induction false} RespondentsLive(handles: seq<Handle>, id: nat)
    ensures id in Respondents(handles) <==> exists i :: 0 <= i < |handles| && handles[i].alive && handles[i].id == id
  {
    if handles != [] {
      var n := |handles| - 1;
      RespondentsLive(handles[..n], id);
      if i :| 0 <= i < |handles| && handles[i].alive && handles[i].id == id {
        if i < n { assert handles[..n][i] == handles[i]; }
      }
    }
  }

  lemma {:induction false} RespondentsDistinct(handles: seq<Handle>)
    requires forall i, j :: 0 <= i < j < |handles| ==> handles[i].id != handles[j].id
    ensures Distinct(Respondents(handles))
  {
    if handles != [] {
      var n := |handles| - 1;
      RespondentsDistinct(handles[..n]);
      RespondentsLive(handles[..n], handles[n].id);
    }
  }

  function Questioned(handles: seq<Handle>): seq<Handle> {
    seq(|handles|, i requires 0 <= i < |handles| =>
      if handles[i].alive then handles[i].(pendingCooks := []) else handles[i])
  }

  function Closed(handles: seq<Handle>): seq<Handle> {
    seq(|handles|, i requires 0 <= i < |handles| => handles[i].(alive := false))
  }

  lemma QuestionedOrderly(handles: seq<Handle>, next: nat, outbox: seq<(nat, Packet)>,
                          more: seq<(nat, Packet)>, nCooks: nat)
    requires Orderly(Floor(handles, next, outbox), nCooks)
    ensures Orderly(Floor(Questioned(handles), next, more), nCooks)
  {
  }

  lemma RequestOne(sent: seq<(nat, Packet)>, handles: seq<Handle>, k: nat)
    requires k < |handles|
    ensures sent + Requests(handles[..k + 1]) ==
      if handles[k].alive then sent + Requests(handles[..k]) + [(handles[k].id, StatusRequestPkt)]
      else sent + Requests(handles[..k])
    ensures Respondents(handles[..k + 1]) ==
      if handles[k].alive then Respondents(handles[..k]) + [handles[k].id] else Respondents(handles[..k])
  {
    assert handles[..k + 1][..k] == handles[..k];
  }

  lemma ClosedOrderly(handles: seq<Handle>, next: nat, outbox: seq<(nat, Packet)>,
                      more: seq<(nat, Packet)>, nCooks: nat)
    requires Orderly(Floor(handles, next, outbox), nCooks)
    ensures Orderly(Floor(Closed(handles), next, more), nCooks)
  {
  }

  /** Halfway through the loops of shutdown and of requestStatusForAll. */
  ghost function ClosedUpTo(handles: seq<Handle>, k: nat): seq<Handle> {
    seq(|handles|, i requires 0 <= i < |handles| => if i < k then handles[i].(alive := false) else handles[i])
  }

  ghost function QuestionedUpTo(handles: seq<Handle>, k: nat): seq<Handle> {
    seq(|handles|, i requires 0 <= i < |handles| =>
      if i < k && handles[i].alive then handles[i].(pendingCooks := []) else handles[i])
  }

  lemma ClosedEnds(handles: seq<Handle>)
    ensures ClosedUpTo(handles, 0) == handles && ClosedUpTo(handles, |handles|) == Closed(handles)
    ensures |Closed(handles)| == |handles|
  {
  }

  lemma ClosedNext(handles: seq<Handle>, k: nat)
    requires k < |handles|
    ensures |ClosedUpTo(handles, k)| == |handles| && ClosedUpTo(handles, k)[k] == handles[k]
    ensures ClosedUpTo(handles, k + 1) == ClosedUpTo(handles, k)[k := handles[k].(alive := false)]
  {
  }

  lemma QuestionedEnds(handles: seq<Handle>)
    ensures QuestionedUpTo(handles, 0) == handles && QuestionedUpTo(handles, |handles|) == Questioned(handles)
  {
  }

  lemma QuestionedNext(handles: seq<Handle>, k: nat)
    requires k < |handles|
    ensures |QuestionedUpTo(handles, k)| == |handles| && QuestionedUpTo(handles, k)[k] == handles[k]
    ensures QuestionedUpTo(handles, k + 1) ==
      if handles[k].alive then QuestionedUpTo(handles, k)[k := handles[k].(pendingCooks := [])]
      else QuestionedUpTo(handles, k)
  {
  }

  function Statuses(handles: seq<Handle>): seq<KitchenStatus> {
    if handles == [] then []
    else
      var h := handles[|handles| - 1];
      Statuses(handles[..|handles| - 1]) + if h.alive then [h.status] else []
  }

  /** How many of the first n handles are alive. */
  ghost function LivingAmong(handles: seq<Handle>, n: nat): nat
    requires n <= |handles|
  {
    if n == 0 then 0 else LivingAmong(handles, n - 1) + if handles[n - 1].alive then 1 else 0
  }

  /** A list with one entry for each living handle, in their order. */
  ghost predicate OnePerLiving<T>(handles: seq<Handle>, list: seq<T>, entry: Handle -> T) {
    && |list| == LivingAmong(handles, |handles|)
    && forall i :: 0 <= i < |handles| && handles[i].alive ==>
         LivingAmong(handles, i) < |list| && list[LivingAmong(handles, i)] == entry(handles[i])
  }

  lemma {:induction false} SameAmong(handles: seq<Handle>, m: nat, n: nat)
    requires n <= m <= |handles|
    ensures LivingAmong(handles[..m], n) == LivingAmong(handles, n) <= LivingAmong(handles, m)
  {
    if n > 0 { SameAmong(handles, m, n - 1); }
    FewerAmong(handles, n, m);
  }

  lemma {:induction false} FewerAmong(handles: seq<Handle>, n: nat, m: nat)
    requires n <= m <= |handles|
    ensures LivingAmong(handles, n) <= LivingAmong(handles, m)
  {
    if n < m { FewerAmong(handles, n, m - 1); }
  }

  lemma OneMoreLiving<T>(handles: seq<Handle>, list: seq<T>, more: seq<T>, entry: Handle -> T)
    requires handles != [] && OnePerLiving(handles[..|handles| - 1], list, entry)
    requires var h := handles[|handles| - 1]; more == list + if h.alive then [entry(h)] else []
    ensures OnePerLiving(handles, more, entry)
  {
    var n := |handles| - 1;
    SameAmong(handles, n, n);
    forall i | 0 <= i < n && handles[i].alive
      ensures LivingAmong(handles, i) < |list| && list[LivingAmong(handles, i)] == entry(handles[i])
    {
      SameAmong(handles, n, i);
      assert handles[..n][i] == handles[i];
    }
  }

  /** The lists that the loops over the vector put together. */
  lemma {:induction false} ListsOfTheLiving(handles: seq<Handle>)
    ensures OnePerLiving(handles, Living(handles), (h: Handle) => h)
    ensures OnePerLiving(handles, Statuses(handles), (h: Handle) => h.status)
    ensures OnePerLiving(handles, Respondents(handles), (h: Handle) => h.id)
    ensures OnePerLiving(handles, Requests(handles), (h: Handle) => (h.id, StatusRequestPkt))
    ensures OnePerLiving(handles, Dismissals(handles), (h: Handle) => (h.id, ShutdownPkt))
  {
    if handles != [] {
      hide OnePerLiving;
      var front := handles[..|handles| - 1];
      ListsOfTheLiving(front);
      OneMoreLiving(handles, Living(front), Living(handles), (h: Handle) => h);
      OneMoreLiving(handles, Statuses(front), Statuses(handles), (h: Handle) => h.status);
      OneMoreLiving(handles, Respondents(front), Respondents(handles), (h: Handle) => h.id);
      OneMoreLiving(handles, Requests(front), Requests(handles), (h: Handle) => (h.id, StatusRequestPkt));
      OneMoreLiving(handles, Dismissals(front), Dismissals(handles), (h: Handle) => (h.id, ShutdownPkt));
    }
  }

  // ------------------------------------------------------------------ surveys

  /** What each kitchen's queue yields in each round of polling. */
  type Replies = (nat, nat) -> seq<Packet>

  /** All packets of one kitchen in the first rounds. */
  function Transcript(replies: Replies, id: nat, rounds: nat): seq<Packet> {
    if rounds == 0 then [] else Transcript(replies, id, rounds - 1) + replies(rounds - 1, id)
  }

  ghost predicate Quiet(replies: Replies, id: nat, rounds: nat) {
    forall r: nat :: r < rounds ==> !Answers(replies(r, id))
  }

  /** The kitchen's answer comes in this round and not before. */
  ghost predicate AnswersIn(replies: Replies, id: nat, round: nat) {
    Quiet(replies, id, round) && Answers(replies(round, id))
  }

  type Calls = seq<(nat, Pizza)>

  /** A handle after so many rounds of its kitchen's packets; `past` and `calls` are the record before and after. */
  ghost predicate Heard(h: Handle, h': Handle, rounds: nat, replies: Replies, past: Calls, calls: Calls) {
    && h' == Received(h, Transcript(replies, h.id, rounds))
    && About(calls, h.id) == About(past, h.id) + DonesIn(Transcript(replies, h.id, rounds))
  }

  /** The survey has taken everything up to and including the round of the first answer, and nothing after it. */
  ghost predicate Surveyed(h: Handle, h': Handle, replies: Replies, past: Calls, calls: Calls) {
    exists round: nat :: AnswersIn(replies, h.id, round) && Heard(h, h', round + 1, replies, past, calls)
  }

  /** Halfway through a round: `served` still waits after this round, `waiting` has yet to be polled in it. */
  ghost predicate Standing(h: Handle, h': Handle, served: seq<nat>, waiting: seq<nat>, round: nat,
                           replies: Replies, past: Calls, calls: Calls)
  {
    if !h.alive then h' == h && About(calls, h.id) == About(past, h.id)
    else if h.id in served then Quiet(replies, h.id, round + 1) && Heard(h, h', round + 1, replies, past, calls)
    else if h.id in waiting then Quiet(replies, h.id, round) && Heard(h, h', round, replies, past, calls)
    else Surveyed(h, h', replies, past, calls)
  }

  lemma HeardMore(h: Handle, h': Handle, round: nat, replies: Replies, past: Calls, calls: Calls, more: Calls)
    requires Heard(h, h', round, replies, past, calls)
    requires Called(calls, more, h.id, DonesIn(replies(round, h.id)))
    ensures Heard(h, Received(h', replies(round, h.id)), round + 1, replies, past, more)
  {
    var before, now := Transcript(replies, h.id, round), replies(round, h.id);
    ReceivedAppend(h, before, now);
    assert About(more, h.id) == About(calls, h.id) + DonesIn(now);
    assert Transcript(replies, h.id, round + 1) == before + now;
    hide Received, DonesIn, About, Transcript, Called;
  }

  /** The kitchen polled next moves on: it has answered, or it waits for the next round. */
  lemma PolledMovesOn(h: Handle, h': Handle, served: seq<nat>, waiting: seq<nat>, round: nat,
                      replies: Replies, past: Calls, calls: Calls, more: Calls)
    requires waiting != [] && waiting[0] == h.id && h.alive && h.id !in served
    requires h.id !in waiting[1..]
    requires Standing(h, h', served, waiting, round, replies, past, calls)
    requires Called(calls, more, h.id, DonesIn(replies(round, h.id)))
    ensures var served' := if Answers(replies(round, h.id)) then served else served + [h.id];
      Standing(h, Received(h', replies(round, h.id)), served', waiting[1..], round, replies, past, more)
  {
    HeardMore(h, h', round, replies, past, calls, more);
    if Answers(replies(round, h.id)) {
      assert AnswersIn(replies, h.id, round);
    }
  }

  /** The others stay as they are. */
  lemma OthersStay(h: Handle, h': Handle, id: nat, served: seq<nat>, waiting: seq<nat>, round: nat,
                   replies: Replies, past: Calls, calls: Calls, more: Calls)
    requires waiting != [] && waiting[0] == id && h.id != id
    requires Standing(h, h', served, waiting, round, replies, past, calls)
    requires Called(calls, more, id, DonesIn(replies(round, id)))
    ensures Standing(h, h', served, waiting[1..], round, replies, past, more)
    ensures Standing(h, h', served + [id], waiting[1..], round, replies, past, more)
  {
    assert waiting == [waiting[0]] + waiting[1..];
    assert About(more, h.id) == About(calls, h.id);
  }

  lemma {:induction false} QuietIsAlive(h: Handle, replies: Replies, rounds: nat)
    requires h.alive && Quiet(replies, h.id, rounds)
    ensures Received(h, Transcript(replies, h.id, rounds)).alive
    ensures Received(h, Transcript(replies, h.id, rounds)).id == h.id
  {
    if rounds > 0 {
      QuietIsAlive(h, replies, rounds - 1);
      assert !Answers(replies(rounds - 1, h.id));
      var before := Transcript(replies, h.id, rounds - 1);
      ReceivedAppend(h, before, replies(rounds - 1, h.id));
      ReceivedMeans(Received(h, before), replies(rounds - 1, h.id));
    }
  }

  lemma StandingKeepsId(h: Handle, h': Handle, served: seq<nat>, waiting: seq<nat>, round: nat,
                        replies: Replies, past: Calls, calls: Calls)
    requires Standing(h, h', served, waiting, round, replies, past, calls)
    ensures h'.id == h.id
    ensures h.alive && h.id in waiting && h.id !in served ==> h'.alive
  {
    if h.alive {
      if h.id in served {
        ReceivedMeans(h, Transcript(replies, h.id, round + 1));
      } else if h.id in waiting {
        QuietIsAlive(h, replies, round);
      } else {
        var r: nat :| AnswersIn(replies, h.id, r) && Heard(h, h', r + 1, replies, past, calls);
        ReceivedMeans(h, Transcript(replies, h.id, r + 1));
      }
    }
  }

  lemma RoundOver(h: Handle, h': Handle, served: seq<nat>, round: nat, replies: Replies, past: Calls, calls: Calls)
    requires Standing(h, h', served, [], round, replies, past, calls)
    ensures Standing(h, h', [], served, round + 1, replies, past, calls)
  {
  }

  lemma FindRespondent(asked: seq<Handle>, handles: seq<Handle>, served: seq<nat>, waiting: seq<nat>, round: nat,
                       replies: Replies, past: Calls, calls: Calls) returns (k: nat)
    requires |asked| == |handles| && waiting != []
    requires waiting[0] in Respondents(asked) && waiting[0] !in served
    requires forall i :: 0 <= i < |asked| ==> Standing(asked[i], handles[i], served, waiting, round, replies, past, calls)
    ensures k < |asked| && asked[k].alive && asked[k].id == waiting[0]
    ensures handles[k].alive && handles[k].id == waiting[0]
  {
    hide Standing;
    RespondentsLive(asked, waiting[0]);
    k :| k < |asked| && asked[k].alive && asked[k].id == waiting[0];
    StandingKeepsId(asked[k], handles[k], served, waiting, round, replies, past, calls);
  }

  lemma OrderlyIds(f: Floor, nCooks: nat)
    requires Orderly(f, nCooks)
    ensures forall i, j :: 0 <= i < j < |f.handles| ==> f.handles[i].id != f.handles[j].id
  {
  }

  /** Polling the kitchen next in line moves it on and leaves the others where they are. */
  lemma OneMovesOn(asked: seq<Handle>, handles: seq<Handle>, k: nat, served: seq<nat>, waiting: seq<nat>, round: nat,
                   replies: Replies, past: Calls, calls: Calls, more: Calls)
    requires |asked| == |handles| && k < |asked| && asked[k].alive
    requires forall i, j :: 0 <= i < j < |handles| ==> handles[i].id != handles[j].id
    requires waiting != [] && waiting[0] == asked[k].id && asked[k].id !in served && asked[k].id !in waiting[1..]
    requires forall i :: 0 <= i < |asked| ==> Standing(asked[i], handles[i], served, waiting, round, replies, past, calls)
    requires Called(calls, more, asked[k].id, DonesIn(replies(round, asked[k].id)))
    ensures var id := asked[k].id;
      var handles' := handles[k := Received(handles[k], replies(round, id))];
      var served' := if Answers(replies(round, id)) then served else served + [id];
      forall i :: 0 <= i < |asked| ==> Standing(asked[i], handles'[i], served', waiting[1..], round, replies, past, more)
  {
    hide Standing, Called, Received, Answers, DonesIn;
    var id := asked[k].id;
    StandingKeepsId(asked[k], handles[k], served, waiting, round, replies, past, calls);
    PolledMovesOn(asked[k], handles[k], served, waiting, round, replies, past, calls, more);
    forall i | 0 <= i < |asked| && i != k
      ensures Standing(asked[i], handles[i], served, waiting[1..], round, replies, past, more)
      ensures Standing(asked[i], handles[i], served + [id], waiting[1..], round, replies, past, more)
    {
      StandingKeepsId(asked[i], handles[i], served, waiting, round, replies, past, calls);
      OthersStay(asked[i], handles[i], id, served, waiting, round, replies, past, calls, more);
    }
  }

  lemma {:induction false} SameRespondents(handles: seq<Handle>)
    ensures Respondents(Questioned(handles)) == Respondents(handles)
  {
    if handles != [] {
      var n := |handles| - 1;
      assert Questioned(handles)[..n] == Questioned(handles[..n]);
      SameRespondents(handles[..n]);
    }
  }

  lemma AtTheStart(asked: seq<Handle>, i: nat, pending: seq<nat>, replies: Replies, calls: Calls)
    requires i < |asked| && pending == Respondents(asked)
    ensures Standing(asked[i], asked[i], [], pending, 0, replies, calls, calls)
  {
    RespondentsLive(asked, asked[i].id);
    assert Transcript(replies, asked[i].id, 0) == [];
  }

  /** What has become of a kitchen after so many rounds: it has answered in one of them, or been quiet in all. */
  ghost predicate PolledFor(h: Handle, h': Handle, rounds: nat, replies: Replies, past: Calls, calls: Calls) {
    if !h.alive then h' == h
    else if Quiet(replies, h.id, rounds) then Heard(h, h', rounds, replies, past, calls)
    else Surveyed(h, h', replies, past, calls)
  }

  lemma AtTheEnd(h: Handle, h': Handle, pending: seq<nat>, round: nat, rounds: nat,
                 replies: Replies, past: Calls, calls: Calls)
    requires Standing(h, h', [], pending, round, replies, past, calls)
    requires round <= rounds && (pending == [] || round == rounds)
    requires h.alive && h.id !in pending ==> !Quiet(replies, h.id, round)
    ensures PolledFor(h, h', rounds, replies, past, calls)
    ensures h.alive ==> (Quiet(replies, h.id, rounds) <==> h.id in pending)
  {
    hide Heard, Surveyed, Answers;
  }

  lemma NotQuiet(replies: Replies, id: nat, round: nat)
    requires !Quiet(replies, id, round) || Answers(replies(round, id))
    ensures !Quiet(replies, id, round + 1)
  {
  }

  /** Who has not been erased from the list has not answered. */
  lemma SomeoneIsQuiet(before: seq<Handle>, asked: seq<Handle>, pending: seq<nat>, replies: Replies, rounds: nat)
    requires asked == Questioned(before) && pending != [] && pending[0] in Respondents(asked)
    requires forall i :: 0 <= i < |asked| && asked[i].alive ==>
      (Quiet(replies, asked[i].id, rounds) <==> asked[i].id in pending)
    ensures exists h :: h in before && h.alive && Quiet(replies, h.id, rounds)
  {
    hide Quiet;
    RespondentsLive(asked, pending[0]);
    var k :| 0 <= k < |asked| && asked[k].alive && asked[k].id == pending[0];
    assert before[k] in before && before[k].alive && before[k].id == asked[k].id;
  }

  lemma NobodyIsQuiet(before: seq<Handle>, asked: seq<Handle>, replies: Replies, rounds: nat)
    requires asked == Questioned(before)
    requires forall i :: 0 <= i < |asked| && asked[i].alive ==> !Quiet(replies, asked[i].id, rounds)
    ensures forall h :: h in before && h.alive ==> !Quiet(replies, h.id, rounds)
  {
    hide Quiet;
    forall h | h in before && h.alive ensures !Quiet(replies, h.id, rounds) {
      var i :| 0 <= i < |before| && before[i] == h;
      assert asked[i].alive && asked[i].id == h.id;
    }
  }

  // ----------------------------------------------------------------- the class

  class LoadBalancer {
    const nCooks: nat
    var kitchens: seq<Handle>
    var nextKitchenId: nat
    var outbox: seq<(nat, Packet)>
    var doneCalls: seq<(nat, Pizza)>

    ghost function View(): Floor
      reads this
    {
      Floor(kitchens, nextKitchenId, outbox)
    }

    ghost predicate Valid()
      reads this
    {
      nCooks > 0 && Orderly(View(), nCooks)
    }

    constructor (nCooks: nat)
      requires nCooks > 0
      ensures Valid() && this.nCooks == nCooks && View() == Floor([], 0, []) && doneCalls == []
    {
      this.nCooks := nCooks;
      kitchens, nextKitchenId, outbox, doneCalls := [], 0, [], [];
    }

    /** Updates one handle in place; a Done also goes to the callback. */
    method HandlePacket(k: nat, packet: Packet)
      requires Valid() && k < |kitchens|
      modifies this`kitchens, this`doneCalls
      ensures Valid()
      ensures kitchens == old(kitchens)[k := Handled(old(kitchens)[k], packet)]
      ensures doneCalls ==
        if packet.DonePkt? then old(doneCalls) + [(old(kitchens)[k].id, Read(packet.slip))] else old(doneCalls)
    {
      var h := kitchens[k];
      match packet {
        case DonePkt(slip) =>
          if h.load > 0 { kitchens := kitchens[k := h.(load := h.load - 1)]; }
          doneCalls := doneCalls + [(h.id, Read(slip))];
        case CookPkt(report) =>
          kitchens := kitchens[k := h.(pendingCooks := h.pendingCooks + [report])];
        case StatusReplyPkt(load, capacity, stock) =>
          h := h.(status := h.status.(load := load as nat, capacity := capacity as nat));
          h := h.(status := h.status.(cooks := h.pendingCooks), pendingCooks := []);
          kitchens := kitchens[k := h.(status := h.status.(stock := Some(stock)))];
        case ShutdownPkt =>
          kitchens := kitchens[k := h.(alive := false)];
        case FullPkt(_) =>
          if h.load > 0 { kitchens := kitchens[k := h.(load := h.load - 1)]; }
        case _ =>
      }
    }

    /** Hands over packets as long as the queue yields any. */
    method Drain(k: nat, packets: seq<Packet>) returns (replied: bool)
      requires Valid() && k < |kitchens|
      modifies this`kitchens, this`doneCalls
      ensures Valid()
      ensures kitchens == old(kitchens)[k := Received(old(kitchens)[k], packets)]
      ensures Called(old(doneCalls), doneCalls, old(kitchens)[k].id, DonesIn(packets))
      ensures replied <==> exists i :: 0 <= i < |packets| && packets[i].StatusReplyPkt?
    {
      hide Orderly, Handled, Called, Received, DonesIn;
      replied := false;
      ghost var h := kitchens[k];
      NothingReceived(h, doneCalls);
      assert packets[..0] == [];
      for i := 0 to |packets|
        invariant Valid()
        invariant kitchens == old(kitchens)[k := Received(h, packets[..i])]
        invariant kitchens[k].id == h.id
        invariant Called(old(doneCalls), doneCalls, h.id, DonesIn(packets[..i]))
        invariant replied <==> exists j :: 0 <= j < i && packets[j].StatusReplyPkt?
      {
        if packets[i].StatusReplyPkt? { replied := true; }
        ReceivedNext(h, packets, i);
        if packets[i].DonePkt? {
          CalledOnceMore(old(doneCalls), doneCalls, h.id, DonesIn(packets[..i]), Read(packets[i].slip));
        }
        HandlePacket(k, packets[i]);
      }
      assert packets[..|packets|] == packets;
    }

    /** Drains the living kitchens in turn, then erases those found dead. */
    method UpdateKitchens(inbox: Inbox)
      requires Valid()
      modifies this`kitchens, this`doneCalls
      ensures Valid()
      ensures kitchens == Living(Drained(old(kitchens), inbox))
      ensures forall h :: h in kitchens <==>
        h.alive && exists i :: 0 <= i < |old(kitchens)| && old(kitchens)[i].alive
                               && h == Received(old(kitchens)[i], inbox(old(kitchens)[i].id))
      ensures CalledOut(old(doneCalls), doneCalls, old(kitchens), inbox)
    {
      DrainedLive(kitchens, inbox);
      hide Orderly, CalledOut, Called, Received, Living, About;
      ghost var before := kitchens;
      NobodyCalled(doneCalls, inbox);
      assert before[..0] == [];
      DrainedOrderly(before, inbox, nextKitchenId, outbox, nCooks);
      for k := 0 to |kitchens|
        invariant Valid() && |kitchens| == |before|
        invariant forall i :: 0 <= i < |before| ==> kitchens[i] == if i < k then Drained(before, inbox)[i] else before[i]
        invariant CalledOut(old(doneCalls), doneCalls, before[..k], inbox)
      {
        ghost var calls := doneCalls;
        assert kitchens[k] == before[k];
        if kitchens[k].alive {
          var _ := Drain(k, inbox(kitchens[k].id));
        }
        CalledOutMore(old(doneCalls), calls, doneCalls, Floor(before, nextKitchenId, outbox), nCooks, k, inbox);
      }
      assert before[..|before|] == before;
      assert kitchens == Drained(before, inbox);
      EraseDead();
    }

    /** The erase and remove_if of the vector. */
    method EraseDead()
      requires Valid()
      modifies this`kitchens
      ensures Valid() && kitchens == Living(old(kitchens))
      ensures OnePerLiving(old(kitchens), kitchens, (h: Handle) => h)
    {
      ListsOfTheLiving(kitchens);
      LivingOrderly(kitchens, nextKitchenId, outbox, nCooks);
      var kept := [];
      for i := 0 to |kitchens|
        invariant kept == Living(kitchens[..i])
      {
        assert kitchens[..i + 1][..i] == kitchens[..i];
        if kitchens[i].alive { kept := kept + [kitchens[i]]; }
      }
      assert kitchens[..|kitchens|] == kitchens;
      kitchens := kept;
    }

    /** The loop that looks for the best kitchen. */
    method SelectKitchen() returns (best: Option<nat>)
      ensures best == Best(kitchens)
      ensures best.Some? ==> IsBest(kitchens, best.value)
      ensures best.None? ==> forall j :: 0 <= j < |kitchens| ==> !HasRoom(kitchens[j])
    {
      best := None;
      for i := 0 to |kitchens|
        invariant best == Best(kitchens[..i])
        invariant best.Some? ==> best.value < i
      {
        assert kitchens[..i + 1][..i] == kitchens[..i];
        if kitchens[i].alive && kitchens[i].load < kitchens[i].capacity {
          if best == None || kitchens[i].load < kitchens[best.value].load {
            best := Some(i);
          }
        }
      }
      assert kitchens[..|kitchens|] == kitchens;
      BestIsBest(kitchens);
    }

    method SpawnKitchen()
      requires Valid()
      modifies this`kitchens, this`nextKitchenId
      ensures Valid()
      ensures kitchens == old(kitchens) + [NewHandle(old(nextKitchenId), nCooks)]
      ensures nextKitchenId == old(nextKitchenId) + 1
      ensures var h := kitchens[|old(kitchens)|];
        && h.id == old(nextKitchenId) && h.alive && h.load == 0 && h.capacity == 2 * nCooks && h.pendingCooks == []
        && h.status.id == old(nextKitchenId) && h.status.load == 0 && h.status.capacity == 2 * nCooks
        && h.status.cooks == []
    {
      var id := nextKitchenId;
      nextKitchenId := nextKitchenId + 1;
      kitchens := kitchens + [Handle(id, 0, 2 * nCooks, true, KitchenStatus(id, 0, 2 * nCooks, [], None), [])];
    }

    /** One turn of the allocation loop. */
    method Allocate(pizza: Pizza)
      requires Valid()
      modifies this`kitchens, this`nextKitchenId, this`outbox
      ensures Valid() && View() == Place(old(View()), nCooks, pizza)
    {
      PlaceKeepsOrder(View(), nCooks, pizza);
      BestIsBest(kitchens);
      hide Orderly, IsBest, Best;
      var best := SelectKitchen();
      if best == None {
        SpawnKitchen();
        best := Some(|kitchens| - 1);
      }
      var b := best.value;
      outbox := outbox + [(kitchens[b].id, PizzaPkt(Pack(pizza)))];
      kitchens := kitchens[b := kitchens[b].(load := kitchens[b].load + 1)];
    }

    /** After the update, the pizzas one by one, in the sequence of the orders. */
    method Dispatch(orders: seq<PizzaOrder>, inbox: Inbox)
      requires Valid()
      modifies this
      ensures Valid()
      ensures View() == Fill(Floor(Living(Drained(old(kitchens), inbox)), old(nextKitchenId), old(outbox)),
                             nCooks, Expanded(orders))
      ensures CalledOut(old(doneCalls), doneCalls, old(kitchens), inbox)
    {
      hide Orderly, Place, Drained, Living, CalledOut, Received, Copies;
      UpdateKitchens(inbox);
      ghost var start := View();
      for o := 0 to |orders|
        invariant Valid() && View() == Fill(start, nCooks, Expanded(orders[..o]))
        invariant CalledOut(old(doneCalls), doneCalls, old(kitchens), inbox)
      {
        ExpandedNext(orders, o);
        hide Expanded, Fill;
        var pizza := Pizza(orders[o].kind, orders[o].size);
        ghost var placed := Expanded(orders[..o]);
        FillNext(start, nCooks, placed, 0, pizza);
        for i := 0 to orders[o].quantity
          invariant Valid() && View() == Fill(start, nCooks, placed + Copies(i, pizza))
          invariant CalledOut(old(doneCalls), doneCalls, old(kitchens), inbox)
        {
          FillNext(start, nCooks, placed, i, pizza);
          Allocate(pizza);
        }
      }
      assert orders[..|orders|] == orders;
    }

    method AskKitchen(k: nat)
      requires k < |kitchens|
      modifies this`kitchens, this`outbox
      ensures kitchens == old(kitchens)[k := old(kitchens)[k].(pendingCooks := [])]
      ensures outbox == old(outbox) + [(old(kitchens)[k].id, StatusRequestPkt)]
    {
      kitchens := kitchens[k := kitchens[k].(pendingCooks := [])];
      outbox := outbox + [(kitchens[k].id, StatusRequestPkt)];
    }

    method RequestStatusForAll() returns (pendingIDs: seq<nat>)
      requires Valid()
      modifies this`kitchens, this`outbox
      ensures Valid()
      ensures kitchens == Questioned(old(kitchens)) && outbox == old(outbox) + Requests(old(kitchens))
      ensures pendingIDs == Respondents(old(kitchens))
      ensures OnePerLiving(old(kitchens), outbox[|old(outbox)|..], (h: Handle) => (h.id, StatusRequestPkt))
      ensures OnePerLiving(old(kitchens), pendingIDs, (h: Handle) => h.id)
    {
      ListsOfTheLiving(kitchens);
      assert Requests([]) == [] && Respondents([]) == [];
      hide Orderly, Requests, Respondents, Questioned, QuestionedUpTo, OnePerLiving;
      ghost var before, sent := kitchens, outbox;
      QuestionedOrderly(before, nextKitchenId, outbox, outbox + Requests(before), nCooks);
      QuestionedEnds(before);
      assert before[..0] == [] && sent + [] == sent;
      pendingIDs := [];
      for k := 0 to |kitchens|
        invariant |kitchens| == |before| && kitchens == QuestionedUpTo(before, k)
        invariant outbox == sent + Requests(before[..k])
        invariant pendingIDs == Respondents(before[..k])
      {
        RequestOne(sent, before, k);
        QuestionedNext(before, k);
        if kitchens[k].alive {
          AskKitchen(k);
          pendingIDs := pendingIDs + [kitchens[k].id];
        }
      }
      assert before[..|before|] == before;
    }

    /** Takes what one kitchen has sent; says whether it need not be polled again. */
    method ProcessPendingKitchen(id: nat, packets: seq<Packet>) returns (remove: bool)
      requires Valid()
      modifies this`kitchens, this`doneCalls
      ensures Valid()
      ensures (forall k :: 0 <= k < |old(kitchens)| && old(kitchens)[k].id == id ==> !old(kitchens)[k].alive) ==>
        remove && kitchens == old(kitchens) && doneCalls == old(doneCalls)
      ensures forall k :: 0 <= k < |old(kitchens)| && old(kitchens)[k].id == id && old(kitchens)[k].alive ==>
        && kitchens == old(kitchens)[k := Received(old(kitchens)[k], packets)]
        && Called(old(doneCalls), doneCalls, id, DonesIn(packets))
        && (remove <==> Answers(packets))
    {
      hide Called, Received, DonesIn;
      var k := 0;
      while k < |kitchens| && kitchens[k].id != id
        invariant k <= |kitchens|
        invariant forall i :: 0 <= i < k ==> kitchens[i].id != id
      {
        k := k + 1;
      }
      if k == |kitchens| || !kitchens[k].alive { return true; }
      ReceivedMeans(kitchens[k], packets);
      var gotReply := Drain(k, packets);
      return gotReply || !kitchens[k].alive;
    }

    /** One round over the kitchens that have not answered; those that answer now are erased from the list. */
    method PollPending(pending: seq<nat>, round: nat, replies: Replies, ghost asked: seq<Handle>, ghost past: Calls)
      returns (left: seq<nat>)
      requires Valid() && Distinct(pending) && |asked| == |kitchens|
      requires forall id :: id in pending ==> id in Respondents(asked)
      requires forall i :: 0 <= i < |asked| ==>
        Standing(asked[i], kitchens[i], [], pending, round, replies, past, doneCalls)
      modifies this`kitchens, this`doneCalls
      ensures Valid() && Distinct(left) && |asked| == |kitchens|
      ensures forall id :: id in left ==> id in pending
      ensures forall id :: id in pending && id !in left ==> Answers(replies(round, id))
      ensures forall i :: 0 <= i < |asked| ==>
        Standing(asked[i], kitchens[i], [], left, round + 1, replies, past, doneCalls)
    {
      hide Orderly, Standing, Called, Received, Answers, DonesIn, Respondents;
      left := pending;
      var j := 0;
      while j < |left|
        invariant Valid() && Distinct(left) && |asked| == |kitchens| && j <= |left|
        invariant forall id :: id in left ==> id in pending
        invariant forall id :: id in pending && id !in left ==> Answers(replies(round, id))
        invariant forall i :: 0 <= i < |asked| ==>
          Standing(asked[i], kitchens[i], left[..j], left[j..], round, replies, past, doneCalls)
        decreases |left| - j
      {
        ghost var handles, calls := kitchens, doneCalls;
        ghost var served, waiting := left[..j], left[j..];
        var id := left[j];
        ghost var k := FindRespondent(asked, handles, served, waiting, round, replies, past, calls);
        OrderlyIds(View(), nCooks);
        var remove := ProcessPendingKitchen(id, replies(round, id));
        assert waiting[1..] == left[j + 1..];
        OneMovesOn(asked, handles, k, served, waiting, round, replies, past, calls, doneCalls);
        if remove {
          left := left[..j] + left[j + 1..];
          assert left[..j] == served && left[j..] == waiting[1..];
        } else {
          j := j + 1;
          assert left[..j] == served + [id];
        }
      }
      assert left[..j] == left && left[j..] == [];
      forall i | 0 <= i < |asked| ensures Standing(asked[i], kitchens[i], [], left, round + 1, replies, past, doneCalls) {
        RoundOver(asked[i], kitchens[i], left, round, replies, past, doneCalls);
      }
    }

    /** The last loop of getStatus. */
    method ReportLiving() returns (result: seq<KitchenStatus>)
      ensures result == Statuses(kitchens) && |result| == LivingAmong(kitchens, |kitchens|)
      ensures forall i :: 0 <= i < |kitchens| && kitchens[i].alive ==>
        LivingAmong(kitchens, i) < |result| && result[LivingAmong(kitchens, i)] == kitchens[i].status
    {
      result := [];
      for i := 0 to |kitchens|
        invariant result == Statuses(kitchens[..i])
      {
        assert kitchens[..i + 1][..i] == kitchens[..i];
        if kitchens[i].alive { result := result + [kitchens[i].status]; }
      }
      assert kitchens[..|kitchens|] == kitchens;
      ListsOfTheLiving(kitchens);
    }

    /**
     Asks every living kitchen and polls until each has answered, as far as these rounds go: there is a result
     exactly if nobody is quiet through all of them. Every kitchen's packets are taken up to the round of its
     answer and no further, Dones included.
     */
    method GetStatus(replies: Replies, rounds: nat) returns (result: Option<seq<KitchenStatus>>)
      requires Valid()
      modifies this`kitchens, this`outbox, this`doneCalls
      ensures Valid()
      ensures outbox == old(outbox) + Requests(old(kitchens)) && |kitchens| == |old(kitchens)|
      ensures forall i :: 0 <= i < |kitchens| ==>
        var asked := if old(kitchens)[i].alive then old(kitchens)[i].(pendingCooks := []) else old(kitchens)[i];
        PolledFor(asked, kitchens[i], rounds, replies, old(doneCalls), doneCalls)
      ensures result.Some? <==> forall h :: h in old(kitchens) && h.alive ==> !Quiet(replies, h.id, rounds)
      ensures result.Some? ==> result.value == Statuses(kitchens)
      ensures result.Some? ==> |result.value| == LivingAmong(kitchens, |kitchens|)
      ensures result.Some? ==> forall i :: 0 <= i < |kitchens| && kitchens[i].alive ==>
        LivingAmong(kitchens, i) < |result.value| && result.value[LivingAmong(kitchens, i)] == kitchens[i].status
    {
      hide Orderly, Standing, Received, Answers, DonesIn, Requests, Quiet, Surveyed, Heard, PolledFor;
      hide Statuses, LivingAmong, OnePerLiving;
      ghost var before, past := kitchens, doneCalls;
      OrderlyIds(View(), nCooks);
      RespondentsDistinct(before);
      var pendingIDs := RequestStatusForAll();
      ghost var asked := kitchens;
      SameRespondents(before);
      forall i | 0 <= i < |asked| ensures Standing(asked[i], kitchens[i], [], pendingIDs, 0, replies, past, doneCalls) {
        AtTheStart(asked, i, pendingIDs, replies, past);
      }
      forall h | h in asked && h.alive ensures h.id in pendingIDs { RespondentsLive(asked, h.id); }
      var round := 0;
      while pendingIDs != [] && round < rounds
        invariant Valid() && Distinct(pendingIDs) && |asked| == |kitchens| && round <= rounds
        invariant outbox == old(outbox) + Requests(before)
        invariant forall id :: id in pendingIDs ==> id in Respondents(asked)
        invariant forall h :: h in asked && h.alive && h.id !in pendingIDs ==> !Quiet(replies, h.id, round)
        invariant forall i :: 0 <= i < |asked| ==>
          Standing(asked[i], kitchens[i], [], pendingIDs, round, replies, past, doneCalls)
        decreases rounds - round
      {
        ghost var waiting := pendingIDs;
        pendingIDs := PollPending(pendingIDs, round, replies, asked, past);
        forall h | h in asked && h.alive && h.id !in pendingIDs ensures !Quiet(replies, h.id, round + 1) {
          NotQuiet(replies, h.id, round);
        }
        round := round + 1;
      }
      forall i | 0 <= i < |asked|
        ensures PolledFor(asked[i], kitchens[i], rounds, replies, past, doneCalls)
        ensures asked[i].alive ==> (Quiet(replies, asked[i].id, rounds) <==> asked[i].id in pendingIDs)
      {
        AtTheEnd(asked[i], kitchens[i], pendingIDs, round, rounds, replies, past, doneCalls);
      }
      if pendingIDs != [] {
        SomeoneIsQuiet(before, asked, pendingIDs, replies, rounds);
        return None;
      }
      NobodyIsQuiet(before, asked, replies, rounds);
      var statuses := ReportLiving();
      return Some(statuses);
    }

    /** One turn of the loop of shutdown; the wait for the process is not modelled here. */
    method CloseKitchen(k: nat)
      requires k < |kitchens|
      modifies this`kitchens, this`outbox
      ensures kitchens == old(kitchens)[k := old(kitchens)[k].(alive := false)]
      ensures outbox ==
        if old(kitchens)[k].alive then old(outbox) + [(old(kitchens)[k].id, ShutdownPkt)] else old(outbox)
    {
      if kitchens[k].alive {
        outbox := outbox + [(kitchens[k].id, ShutdownPkt)];
        kitchens := kitchens[k := kitchens[k].(alive := false)];
      }
    }

    /** Tells every living kitchen to close and waits for it. */
    method Shutdown()
      requires Valid()
      modifies this`kitchens, this`outbox
      ensures Valid()
      ensures kitchens == Closed(old(kitchens)) && outbox == old(outbox) + Dismissals(old(kitchens))
      ensures OnePerLiving(old(kitchens), outbox[|old(outbox)|..], (h: Handle) => (h.id, ShutdownPkt))
    {
      ListsOfTheLiving(kitchens);
      assert Dismissals([]) == [];
      hide Orderly, Dismissals, Closed, ClosedUpTo, OnePerLiving;
      ghost var before, sent := kitchens, outbox;
      ClosedOrderly(before, nextKitchenId, outbox, outbox + Dismissals(before), nCooks);
      ClosedEnds(before);
      assert before[..0] == [] && sent + [] == sent;
      for k := 0 to |kitchens|
        invariant |kitchens| == |before| && kitchens == ClosedUpTo(before, k)
        invariant outbox == sent + Dismissals(before[..k])
      {
        DismissOne(sent, before, k);
        ClosedNext(before, k);
        CloseKitchen(k);
      }
      assert before[..|before|] == before;
    }
  }
}
