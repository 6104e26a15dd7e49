/**
 What a status report means. An entry says that a cook is at work exactly while it has a pizza in hand, from
 cookPizza's first statement to its last; and what getStatus returns is a list of such reports.
 */
module Reports {
  import opened Menu
  import opened Kitchen
  import opened KitchenSafety
  import opened Protocol
  import opened LinkSafety
  import opened LinkTheorems
  import opened Refusals
  import opened Pizzeria
  import opened PizzeriaSafety
  import opened PizzeriaTheorems
  import opened Reception
  import opened Snapshots
  import opened Surveys

  // ------------------------------------------------------------------- at work

  /** Of the times at which cook i began and ended a pizza, the last is one at which it began. */
  ghost predicate PizzaInHand(events: seq<Event>, i: nat) {
    if events == [] then false
    else
      var e := events[|events| - 1];
      if e == Inside(CookStart(i)) then true
      else if e == Inside(Clear(i)) then false
      else PizzaInHand(events[..|events| - 1], i)
  }

  lemma NobodyIsBusyYet(id: nat, nCooks: nat, i: nat)
    requires i < nCooks
    ensures |NewLink(id, nCooks).k.cooks| == nCooks && !NewLink(id, nCooks).k.cooks[i].Busy()
  {
  }

  lemma CookChangesBusy(k: Kitchen, m: Move, i: nat)
    requires m.OfCook() && CanCook(k, m) && i < |k.cooks| && (m == StockTry(i) ==> k.pantry.open)
    ensures |DoCook(k, m).cooks| == |k.cooks|
    ensures DoCook(k, m).cooks[i].Busy() <==> m == CookStart(i) || (m != Clear(i) && k.cooks[i].Busy())
  {
    hide AllAvailable, Needs, Without;
  }

  lemma OthersLeaveBusy(k: Kitchen, m: Move, i: nat)
    requires !m.OfCook() && CanWork(k, m) && i < |k.cooks|
    ensures |Work(k, m).cooks| == |k.cooks| && (Work(k, m).cooks[i].Busy() <==> k.cooks[i].Busy())
  {
    hide Regenerated, IsFull, Slumber;
  }

  lemma OutsideLeavesBusy(l: Link, e: Event, i: nat)
    requires Enabled(l, e) && !e.Inside? && i < |l.k.cooks|
    ensures |Next(l, e).k.cooks| == |l.k.cooks| && (Next(l, e).k.cooks[i].Busy() <==> l.k.cooks[i].Busy())
  {
    OutsideEffect(l, e);
    if e.Announce? { assert Enabled(l, e) ==> l.k.cooks[e.i].Baking?; }
    hide Next;
  }

  /** Beginning to cook makes a cook busy, clearing its fields ends that, and nothing else changes it. */
  lemma BusyChanges(l: Link, e: Event, i: nat, nCooks: nat)
    requires nCooks > 0 && Reachable(l, nCooks) && Enabled(l, e) && i < |l.k.cooks|
    ensures |Next(l, e).k.cooks| == |l.k.cooks|
    ensures Next(l, e).k.cooks[i].Busy() <==>
            e == Inside(CookStart(i)) || (e != Inside(Clear(i)) && l.k.cooks[i].Busy())
  {
    if e.Inside? {
      if e == Inside(StockTry(i)) { OpenWhenTried(l, i, nCooks); }
      if e.m.OfCook() { CookChangesBusy(l.k, e.m, i); } else { OthersLeaveBusy(l.k, e.m, i); }
      hide Reachable, CanCook, CanWork, DoCook, Work;
    } else {
      OutsideLeavesBusy(l, e, i);
      hide Reachable, Next, Enabled;
    }
  }

  lemma OpenWhenTried(l: Link, i: nat, nCooks: nat)
    requires nCooks > 0 && Reachable(l, nCooks) && Enabled(l, Inside(StockTry(i)))
    ensures l.k.pantry.open
  {
    hide Reachable, Conserved, Counted, LinkEnds.OrdersEnd, LinkEnds.ResultsEnd, LinkStatus.StatusInv, KitchenInv;
    ReachableInv(l, nCooks);
    StockOutlivesCooks(l.k, i);
  }

  /** In every run, a cook is shown at work exactly while it has a pizza in hand. */
  lemma {:induction false} BusyExactly(id: nat, nCooks: nat, events: seq<Event>, i: nat)
    requires nCooks > 0 && i < nCooks && Run(NewLink(id, nCooks), events).Some?
    ensures var k := Run(NewLink(id, nCooks), events).value.k;
      |k.cooks| == nCooks && (k.cooks[i].Busy() <==> PizzaInHand(events, i))
  {
    hide NewLink, Next, Enabled, Reachable;
    if events == [] {
      NobodyIsBusyYet(id, nCooks, i);
    } else {
      var n := |events| - 1;
      BusyExactly(id, nCooks, events[..n], i);
      RunReaches(id, nCooks, events[..n]);
      BusyChanges(Run(NewLink(id, nCooks), events[..n]).value, events[n], i, nCooks);
    }
  }

  // --------------------------------------------------------------- what an entry says

  /** In some state of the path, whatever run led there, cook i had a pizza in hand or had none. */
  ghost predicate HandWas(path: Path, nCooks: nat, i: nat, busy: bool) {
    exists j, id, events ::
      && 0 <= j < |path| && Run(NewLink(id, nCooks), events) == Some(path[j])
      && (busy <==> PizzaInHand(events, i))
  }

  ghost predicate HandsShown(path: Path, nCooks: nat, cooks: seq<CookReport>) {
    forall p :: 0 <= p < |cooks| ==> EntryShown(path, nCooks, p, cooks[p])
  }

  ghost predicate EntryShown(path: Path, nCooks: nat, p: nat, report: CookReport) {
    p < nCooks && HandWas(path, nCooks, p, report.busy)
  }

  ghost predicate LoadShown(path: Path, load: nat) {
    exists j :: 0 <= j < |path| && load == path[j].k.pool.load % 256
  }

  ghost predicate ShelfShown(path: Path, shown: Stock) {
    exists j :: 0 <= j < |path|
      && forall x :: x in ALL_INGREDIENTS ==> shown[x] == path[j].k.pantry.stock[x] % 0x1_0000_0000
  }

  /** Entry by entry: who had a pizza in hand, how many pizzas the pool held, what was on the shelf. */
  ghost predicate Means(path: Path, nCooks: nat, status: KitchenStatus) {
    && HandsShown(path, nCooks, status.cooks)
    && LoadShown(path, status.load)
    && status.stock.Some? && ShelfShown(path, status.stock.value)
  }

  ghost predicate AllReachable(path: Path, nCooks: nat) {
    forall j :: 0 <= j < |path| ==> Reachable(path[j], nCooks)
  }

  lemma HandAtWork(path: Path, nCooks: nat, i: nat, busy: bool)
    requires nCooks > 0 && AllReachable(path, nCooks) && BusyWas(path, i, busy)
    ensures i < nCooks && HandWas(path, nCooks, i, busy)
  {
    hide Run, NewLink, PizzaInHand;
    var j :| 0 <= j < |path| && BusyAt(path[j], i, busy);
    assert Reachable(path[j], nCooks);
    var id, events :| Run(NewLink(id, nCooks), events) == Some(path[j]);
    BusyExactly(id, nCooks, events, 0);
    BusyExactly(id, nCooks, events, i);
  }

  lemma HandsMean(path: Path, nCooks: nat, cooks: seq<CookReport>)
    requires nCooks > 0 && AllReachable(path, nCooks) && ReportsTrue(path, cooks)
    ensures HandsShown(path, nCooks, cooks)
  {
    hide AllReachable, BusyWas, EntryShown;
    forall p | 0 <= p < |cooks| ensures EntryShown(path, nCooks, p, cooks[p]) {
      EntryMeans(path, nCooks, p, cooks[p]);
    }
  }

  lemma EntryMeans(path: Path, nCooks: nat, p: nat, report: CookReport)
    requires nCooks > 0 && AllReachable(path, nCooks) && BusyWas(path, p, report.busy)
    ensures EntryShown(path, nCooks, p, report)
  {
    hide AllReachable, BusyWas, HandWas;
    HandAtWork(path, nCooks, p, report.busy);
  }

  lemma LoadMeans(path: Path, load: nat)
    requires LoadWas(path, load)
    ensures LoadShown(path, Narrow(load) as nat)
  {
    var j :| 0 <= j < |path| && path[j].k.pool.load == load;
    assert Narrow(load) as nat == path[j].k.pool.load % 256;
  }

  lemma ShelfMeans(path: Path, stock: Stock)
    requires StockWas(path, stock)
    ensures ShelfShown(path, NarrowStock(stock))
  {
    var j :| 0 <= j < |path| && path[j].k.pantry.stock == stock;
    forall x | x in ALL_INGREDIENTS ensures NarrowStock(stock)[x] == path[j].k.pantry.stock[x] % 0x1_0000_0000 {}
  }

  lemma StatusMeans(path: Path, nCooks: nat, status: KitchenStatus)
    requires nCooks > 0 && AllReachable(path, nCooks) && StatusTrue(path, status)
    ensures Means(path, nCooks, status)
  {
    hide AllReachable, HandsShown, ReportsTrue, LoadWas, StockWas, LoadShown, ShelfShown, Narrow, NarrowStock;
    HandsMean(path, nCooks, status.cooks);
    var load :| LoadWas(path, load) && status.load == Narrow(load) as nat;
    LoadMeans(path, load);
    var stock :| StockWas(path, stock) && status.stock == Some(NarrowStock(stock));
    ShelfMeans(path, stock);
  }

  // ------------------------------------------------------------ what getStatus returns

  lemma {:induction false} TrailReachable(s: System, steps: seq<Step>, i: nat, nCooks: nat)
    requires nCooks > 0 && Arises(s, nCooks) && SurveyRun(s, steps) && i < |s.links|
    ensures AllReachable(Trail(s, steps, i), nCooks)
  {
    hide Arises, Reachable, Allowed, Perform;
    RunArises(s, steps, nCooks);
    InLinks(Story(s, steps).value, i, nCooks);
    if steps != [] { TrailReachable(s, steps[..|steps| - 1], i, nCooks); }
  }

  lemma PartReachable(path: Path, a: nat, b: nat, nCooks: nat)
    requires AllReachable(path, nCooks) && a < b <= |path|
    ensures AllReachable(path[a..b], nCooks)
  {
    hide Reachable;
  }

  /** The report was asked for in step a and taken in step b, and its entries were true in between. */
  ghost predicate MeantBetween(
    s: System, steps: seq<Step>, i: nat, a: nat, b: nat, nCooks: nat, status: KitchenStatus)
    requires SurveyRun(s, steps)
  {
    && AskedBy(s, steps, i, a) && a < b <= |steps| && steps[b - 1] == Take(i)
    && Means(Trail(s, steps, i)[a..b + 1], nCooks, status)
  }

  /**
   What getStatus returns: for each living kitchen one report, in the order of the kitchens, under the kitchen's
   own id, with every cook once; and every entry of it was true between the request and the answer of this survey.
   */
  lemma ReportsAreTrue(s: System, steps: seq<Step>, i: nat, nCooks: nat)
    requires nCooks > 0 && Arises(s, nCooks) && s.desk == Asking(0) && SurveyRun(s, steps) && i < |s.links|
    requires var t := Story(s, steps).value;
      t.desk.Surveying? && Allowed(t, EndSurvey) && i < |t.links| && t.links[i].h.alive
    ensures var handles := Handles(Story(s, steps).value.links);
      var report := Statuses(handles);
      && |report| == LivingAmong(handles, |handles|)
      && LivingAmong(handles, i) < |report| && report[LivingAmong(handles, i)].id == handles[i].id
      && |report[LivingAmong(handles, i)].cooks| == nCooks
      && exists a: nat, b: nat :: MeantBetween(s, steps, i, a, b, nCooks, report[LivingAmong(handles, i)])
  {
    hide Arises, Allowed, Perform, Means, AskedBy, LivingAmong, StatusTrue, AllReachable, Story, Trail;
    var t := Story(s, steps).value;
    RunArises(s, steps, nCooks);
    ListsOfTheLiving(Handles(t.links));
    hide Statuses;
    InLinks(t, i, nCooks);
    SurveyIsComplete(t, nCooks, i);
    SurveyIsTrue(s, steps, i, nCooks);
    var status := t.links[i].h.status;
    var a: nat, b: nat :| TrueBetween(s, steps, i, a, b, LinkAt(t, i).h.status);
    TrailReachable(s, steps, i, nCooks);
    PartReachable(Trail(s, steps, i), a, b + 1, nCooks);
    StatusMeans(Trail(s, steps, i)[a..b + 1], nCooks, status);
    assert MeantBetween(s, steps, i, a, b, nCooks, status);
  }
}
