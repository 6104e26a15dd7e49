/**
 What a status report is worth. It is not taken at one moment: the load is read first,
 the stock later, each cook later still, and cooks and stock go on meanwhile. But every
 single entry that the reception ends up with was true at some moment since it asked.
 */
module Snapshots {
  import opened Menu
  import opened Sums
  import opened Kitchen
  import opened KitchenSafety
  import opened Protocol
  import opened LinkEnds
  import opened LinkStatus
  import opened LinkTheorems

  // ------------------------------------------------------------------- what was

  /** States of one link in the order of time. */
  type Path = p: seq<Link> | p != [] witness [NewLink(0, 1)]

  ghost predicate LoadWas(path: Path, load: nat) {
    exists j :: 0 <= j < |path| && path[j].k.pool.load == load
  }

  ghost predicate StockWas(path: Path, stock: Stock) {
    exists j :: 0 <= j < |path| && path[j].k.pantry.stock == stock
  }

  ghost predicate BusyAt(l: Link, i: nat, busy: bool) {
    i < |l.k.cooks| && l.k.cooks[i].Busy() == busy
  }

  ghost predicate BusyWas(path: Path, i: nat, busy: bool) {
    exists j :: 0 <= j < |path| && BusyAt(path[j], i, busy)
  }

  /** The entries of cooks 0, 1, 2, ..., each true at some moment. */
  ghost predicate ReportsTrue(path: Path, reports: seq<CookReport>) {
    forall p :: 0 <= p < |reports| ==> reports[p].id == Narrow(p) && BusyWas(path, p, reports[p].busy)
  }

  /** A load and a stock as they once were, in the widths they travel in. */
  ghost predicate CountsTrue(path: Path, load: byte, shown: Stock) {
    && (exists n :: LoadWas(path, n) && load == Narrow(n))
    && (exists stock :: StockWas(path, stock) && shown == NarrowStock(stock))
  }

  /** The status the reception keeps of a kitchen is made of such entries. */
  ghost predicate StatusTrue(path: Path, status: KitchenStatus) {
    && ReportsTrue(path, status.cooks)
    && (exists n :: LoadWas(path, n) && status.load == Narrow(n) as nat)
    && (exists stock :: StockWas(path, stock) && status.stock == Some(NarrowStock(stock)))
  }

  // ---------------------------------------------------------- on their way back

  ghost function ReportsIn(s: seq<Packet>): seq<CookReport> {
    if s == [] then []
    else
      var p := s[|s| - 1];
      ReportsIn(s[..|s| - 1]) + if p.CookPkt? then [p.report] else []
  }

  lemma ReportsInAppend(s: seq<Packet>, p: Packet)
    ensures ReportsIn(s + [p]) == if p.CookPkt? then ReportsIn(s) + [p.report] else ReportsIn(s)
  {
    assert (s + [p])[..|s|] == s;
  }

  lemma {:induction false} ReportsInTail(s: seq<Packet>)
    requires s != []
    ensures ReportsIn(s) == (if s[0].CookPkt? then [s[0].report] else []) + ReportsIn(s[1..])
  {
    if |s| > 1 {
      ReportsInTail(s[..|s| - 1]);
      assert s[..|s| - 1][1..] == s[1..][..|s| - 2];
    }
  }

  lemma {:induction false} SameNumberOfIds(s: seq<Packet>)
    ensures |ReportsIn(s)| == |ReportIds(s)|
  {
    if s != [] { SameNumberOfIds(s[..|s| - 1]); }
  }

  function Gathered(w: Worker): seq<CookReport> {
    match w
    case Sampling(_, _, seen) => seen
    case Sending(_, _, todo) => todo
    case _ => []
  }

  /** All entries of the survey that is open, in the order of the cooks. */
  ghost function Entries(l: Link): seq<CookReport> {
    l.h.pendingCooks + ReportsIn(l.results) + Gathered(l.k.worker)
  }

  ghost predicate WorkerTrue(path: Path, w: Worker) {
    match w
    case Sampling(load, shelf, _) => LoadWas(path, load) && (shelf.Some? ==> StockWas(path, shelf.value))
    case Sending(load, stock, _) => LoadWas(path, load) && StockWas(path, stock)
    case _ => true
  }

  ghost predicate RepliesTrue(path: Path, results: seq<Packet>) {
    forall i :: 0 <= i < |results| && results[i].StatusReplyPkt? ==> CountsTrue(path, results[i].load, results[i].stock)
  }

  /** Everything of the open survey, wherever it is, was true since the path began. */
  ghost predicate Traced(path: Path, l: Link) {
    ReportsTrue(path, Entries(l)) && WorkerTrue(path, l.k.worker) && RepliesTrue(path, l.results)
  }

  // -------------------------------------------------------------- time goes on

  lemma CountsStay(path: Path, l: Link, load: byte, shown: Stock)
    requires CountsTrue(path, load, shown)
    ensures CountsTrue(path + [l], load, shown)
  {
    hide NarrowStock;
    var n :| LoadWas(path, n) && load == Narrow(n);
    var stock :| StockWas(path, stock) && shown == NarrowStock(stock);
    LoadStays(path, l, n);
    StockStays(path, l, stock);
  }

  lemma LoadStays(path: Path, l: Link, load: nat)
    requires LoadWas(path, load)
    ensures LoadWas(path + [l], load)
  {
    var j :| 0 <= j < |path| && path[j].k.pool.load == load;
    assert (path + [l])[j] == path[j];
  }

  lemma StockStays(path: Path, l: Link, stock: Stock)
    requires StockWas(path, stock)
    ensures StockWas(path + [l], stock)
  {
    var j :| 0 <= j < |path| && path[j].k.pantry.stock == stock;
    assert (path + [l])[j] == path[j];
  }

  lemma ReportsStay(path: Path, l: Link, reports: seq<CookReport>)
    requires ReportsTrue(path, reports)
    ensures ReportsTrue(path + [l], reports)
  {
    hide BusyAt;
    forall p | 0 <= p < |reports| ensures BusyWas(path + [l], p, reports[p].busy) {
      var j :| 0 <= j < |path| && BusyAt(path[j], p, reports[p].busy);
      assert (path + [l])[j] == path[j];
    }
  }

  lemma TraceStays(path: Path, l: Link, more: Link)
    requires Traced(path, l)
    ensures Traced(path + [more], l)
  {
    hide LoadWas, StockWas, CountsTrue, Entries;
    ReportsStay(path, more, Entries(l));
    forall i | 0 <= i < |l.results| && l.results[i].StatusReplyPkt?
      ensures CountsTrue(path + [more], l.results[i].load, l.results[i].stock)
    {
      CountsStay(path, more, l.results[i].load, l.results[i].stock);
    }
    match l.k.worker {
      case Sampling(load, shelf, _) =>
        LoadStays(path, more, load);
        if shelf.Some? { StockStays(path, more, shelf.value); }
      case Sending(load, stock, _) =>
        LoadStays(path, more, load);
        StockStays(path, more, stock);
      case _ =>
    }
  }

  // ------------------------------------------------------------ every event keeps it

  /** What belongs to the survey is unchanged. */
  lemma QuietKeepsTrace(path: Path, l: Link, l': Link)
    requires Traced(path, l) && l'.h.pendingCooks == l.h.pendingCooks && l'.results == l.results
    requires Gathered(l'.k.worker) == Gathered(l.k.worker) && WorkerTrue(path, l'.k.worker)
    ensures Traced(path, l')
  {
    hide ReportsTrue, RepliesTrue, WorkerTrue;
  }

  lemma OtherPacketKeepsTrace(path: Path, l: Link, l': Link, p: Packet)
    requires Traced(path, l) && l'.h.pendingCooks == l.h.pendingCooks && l'.results == l.results + [p]
    requires !p.CookPkt? && !p.StatusReplyPkt?
    requires Gathered(l'.k.worker) == Gathered(l.k.worker) && WorkerTrue(path, l'.k.worker)
    ensures Traced(path, l')
  {
    hide ReportsTrue, WorkerTrue, CountsTrue;
    ReportsInAppend(l.results, p);
  }

  /** Until the first entry is sent there is none on its way. */
  lemma NothingOnItsWay(l: Link, nCooks: nat)
    requires nCooks > 0 && Reachable(l, nCooks) && (l.k.worker.Replying? || l.k.worker.Sampling?)
    ensures Entries(l) == Gathered(l.k.worker)
    ensures l.k.worker.Sampling? ==> |l.k.worker.seen| < |l.k.cooks|
  {
    hide Reachable, LinkSafety.Conserved, LinkSafety.Counted, OrdersEnd, ResultsEnd;
    hide KitchenInv, ReportInv, SnapshotInv, Ids;
    ReachableInv(l, nCooks);
    NothingReported(l);
    SameNumberOfIds(l.results);
    NoIdsNoReports(l.h.pendingCooks);
    assert [] + [] + Gathered(l.k.worker) == Gathered(l.k.worker);
  }

  lemma NoIdsNoReports(reports: seq<CookReport>)
    requires Ids(reports) == []
    ensures reports == []
  {
    assert |Ids(reports)| == |reports|;
  }

  lemma SampleKeepsTrace(path: Path, l: Link, m: Move, nCooks: nat)
    requires nCooks > 0 && Reachable(l, nCooks) && Traced(path, l) && path[|path| - 1] == l
    requires Samples(m) && Can(l.k, m)
    ensures Traced(path, l.(k := Do(l.k, m)))
  {
    hide Reachable, ReportsTrue, WorkerTrue, RepliesTrue, Entries, Can, Do;
    var l' := l.(k := Do(l.k, m));
    assert Can(l.k, m) && (l.k.worker.Replying? || l.k.worker.Sampling?) by { OnlyThenSamples(l.k, m); }
    NothingOnItsWay(l, nCooks);
    SameBefore(l, l');
    SampledIsTrue(path, l, m);
  }

  lemma OnlyThenSamples(k: Kitchen, m: Move)
    requires Samples(m) && Can(k, m)
    ensures k.worker.Replying? || k.worker.Sampling?
  {
  }

  lemma SampledIsTrue(path: Path, l: Link, m: Move)
    requires path[|path| - 1] == l && Samples(m) && Can(l.k, m)
    requires ReportsTrue(path, Gathered(l.k.worker)) && WorkerTrue(path, l.k.worker)
    ensures ReportsTrue(path, Gathered(Do(l.k, m).worker)) && WorkerTrue(path, Do(l.k, m).worker)
  {
    NowIsTrue(path, l);
    if m.SampleLoad? {
      hide LoadWas, StockWas, BusyWas;
    } else if m.SampleStock? {
      hide LoadWas, StockWas, BusyWas, ReportsTrue;
    } else {
      CookSampledIsTrue(path, l, |l.k.worker.seen|);
      hide LoadWas, StockWas, ReportsTrue, BusyWas;
    }
  }

  lemma NowIsTrue(path: Path, l: Link)
    requires path[|path| - 1] == l
    ensures LoadWas(path, l.k.pool.load) && StockWas(path, l.k.pantry.stock)
  {
  }

  lemma CookSampledIsTrue(path: Path, l: Link, i: nat)
    requires path[|path| - 1] == l && l.k.worker.Sampling? && i == |l.k.worker.seen| < |l.k.cooks|
    requires ReportsTrue(path, l.k.worker.seen)
    ensures ReportsTrue(path, l.k.worker.seen + [CookReport((i % 256) as byte, l.k.cooks[i].Busy())])
  {
    assert BusyAt(path[|path| - 1], i, l.k.cooks[i].Busy());
    assert BusyWas(path, i, l.k.cooks[i].Busy());
    hide BusyWas, BusyAt;
  }

  lemma SameBefore(l: Link, l': Link)
    requires l'.h == l.h && l'.results == l.results && Entries(l) == Gathered(l.k.worker)
    ensures Entries(l') == Gathered(l'.k.worker)
  {
    var front := l.h.pendingCooks + ReportsIn(l.results);
    assert |front| + |Gathered(l.k.worker)| == |Entries(l)|;
    assert front == [];
    assert [] + Gathered(l'.k.worker) == Gathered(l'.k.worker);
  }

  /** An entry moves from the main thread to the queue. */
  lemma EntrySent(pending: seq<CookReport>, results: seq<Packet>, todo: seq<CookReport>)
    requires todo != []
    ensures pending + ReportsIn(results + [CookPkt(todo[0])]) + todo[1..] == pending + ReportsIn(results) + todo
  {
    ReportsInAppend(results, CookPkt(todo[0]));
    hide ReportsIn;
    var b := ReportsIn(results);
    assert pending + (b + [todo[0]]) + todo[1..] == pending + b + todo;
  }

  lemma NoReplyMore(path: Path, results: seq<Packet>, p: Packet)
    requires RepliesTrue(path, results) && !p.StatusReplyPkt?
    ensures RepliesTrue(path, results + [p])
  {
    hide CountsTrue;
  }

  /** What the main thread has sampled stays the same while it sends. */
  lemma SendCookEffect(path: Path, l: Link)
    requires Enabled(l, SendCook) && WorkerTrue(path, l.k.worker)
    ensures l.k.worker.Sending? && l.k.worker.todo != []
    ensures var l' := Next(l, SendCook);
      && l'.h == l.h && l'.results == l.results + [CookPkt(l.k.worker.todo[0])]
      && l'.k.worker.Sending? && l'.k.worker.todo == l.k.worker.todo[1..] && WorkerTrue(path, l'.k.worker)
  {
    hide LoadWas, StockWas;
  }

  lemma SendCookKeepsTrace(path: Path, l: Link)
    requires Traced(path, l) && Enabled(l, SendCook)
    ensures Traced(path, Next(l, SendCook))
  {
    hide ReportsTrue, RepliesTrue, WorkerTrue, ReportsIn, Next, Enabled;
    SendCookEffect(path, l);
    EntrySent(l.h.pendingCooks, l.results, l.k.worker.todo);
    NoReplyMore(path, l.results, CookPkt(l.k.worker.todo[0]));
  }

  lemma SendReplyKeepsTrace(path: Path, l: Link)
    requires Traced(path, l) && Enabled(l, SendReply)
    ensures Traced(path, Next(l, SendReply))
  {
    hide ReportsTrue, LoadWas, StockWas, NarrowStock;
    var p := Next(l, SendReply).results[|l.results|];
    ReportsInAppend(l.results, p);
    assert CountsTrue(path, p.load, p.stock);
    hide CountsTrue;
  }

  /** An entry moves from the queue to the handle; other packets are no entries. */
  lemma EntryTaken(pending: seq<CookReport>, results: seq<Packet>, rest: seq<CookReport>)
    requires results != []
    ensures var taken := if results[0].CookPkt? then pending + [results[0].report] else pending;
      taken + ReportsIn(results[1..]) + rest == pending + ReportsIn(results) + rest
  {
    ReportsInTail(results);
    hide ReportsIn;
    var b := ReportsIn(results[1..]);
    if results[0].CookPkt? {
      var x := results[0].report;
      assert pending + ([x] + b) + rest == (pending + [x]) + b + rest;
    } else {
      assert [] + b == b;
    }
  }

  lemma FewerReplies(path: Path, results: seq<Packet>)
    requires RepliesTrue(path, results) && results != []
    ensures RepliesTrue(path, results[1..])
  {
    hide CountsTrue;
  }

  lemma ReceiveEffectOnTrace(l: Link)
    requires Enabled(l, Receive) && !l.results[0].StatusReplyPkt?
    ensures var l' := Next(l, Receive);
      && l'.k == l.k && l'.results == l.results[1..]
      && l'.h.pendingCooks ==
         if l.results[0].CookPkt? then l.h.pendingCooks + [l.results[0].report] else l.h.pendingCooks
  {
  }

  lemma ReceiveKeepsTrace(path: Path, l: Link)
    requires Traced(path, l) && Enabled(l, Receive) && !l.results[0].StatusReplyPkt?
    ensures Traced(path, Next(l, Receive))
  {
    ReceiveEffectOnTrace(l);
    hide ReportsTrue, RepliesTrue, WorkerTrue, ReportsIn, Gathered, Next;
    EntryTaken(l.h.pendingCooks, l.results, Gathered(l.k.worker));
    FewerReplies(path, l.results);
  }

  /** The reply completes the status. */
  lemma ReplyIsTrue(path: Path, l: Link)
    requires Traced(path, l) && Enabled(l, Receive) && l.results[0].StatusReplyPkt?
    ensures StatusTrue(path, Next(l, Receive).h.status)
  {
    hide LoadWas, StockWas, BusyWas, NarrowStock;
    var p := l.results[0];
    assert CountsTrue(path, p.load, p.stock);
    forall i | 0 <= i < |l.h.pendingCooks| ensures l.h.pendingCooks[i] == Entries(l)[i] {}
  }

  /** Moves other than those of the survey. */
  lemma MoveKeepsTrace(path: Path, l: Link, m: Move)
    requires Traced(path, l) && Can(l.k, m) && !Samples(m)
    ensures Traced(path, l.(k := Do(l.k, m)))
  {
    hide Traced, WorkerTrue, Can, Do;
    MovesLeaveSurvey(l.k, m);
    ThreadTrue(path, l, l.(k := Do(l.k, m)));
  }

  lemma ThreadTrue(path: Path, l: Link, l': Link)
    requires Traced(path, l) && l'.h == l.h && l'.results == l.results
    requires InSurvey(l.k.worker) || InSurvey(l'.k.worker) ==> l'.k.worker == l.k.worker
    ensures Traced(path, l')
  {
    hide ReportsTrue, RepliesTrue;
    QuietKeepsTrace(path, l, l');
  }

  lemma SpeakingKeepsTrace(path: Path, l: Link, e: Event)
    requires Traced(path, l) && Enabled(l, e) && (e.Refuse? || e.Announce? || e.Goodbye?)
    ensures Traced(path, Next(l, e))
  {
    hide ReportsTrue, RepliesTrue, LoadWas, StockWas, Entries, Do, Can;
    OtherPacketKeepsTrace(path, l, Next(l, e), Next(l, e).results[|l.results|]);
  }

  lemma RestKeepsTrace(path: Path, l: Link, e: Event)
    requires Traced(path, l) && Enabled(l, e) && (e.Poll? || e.Deliver? || e.Quit? || e.Reap?)
    ensures Traced(path, Next(l, e))
  {
    hide ReportsTrue, RepliesTrue, LoadWas, StockWas, Entries, Do, Can, Ticket;
    QuietKeepsTrace(path, l, Next(l, e));
  }

  lemma EventKeepsTrace(path: Path, l: Link, e: Event, nCooks: nat)
    requires nCooks > 0 && Reachable(l, nCooks) && Enabled(l, e) && path[|path| - 1] == l && Traced(path, l)
    requires !e.Ask? && (e.Receive? ==> !l.results[0].StatusReplyPkt?)
    ensures Traced(path + [Next(l, e)], Next(l, e))
  {
    hide Reachable, Traced, Can, Do, Polled, Handled, Noted, NarrowStock;
    assert Traced(path, Next(l, e)) by {
      match e
      case Inside(m) => if Samples(m) { SampleKeepsTrace(path, l, m, nCooks); } else { MoveKeepsTrace(path, l, m); }
      case SendCook => SendCookKeepsTrace(path, l);
      case SendReply => SendReplyKeepsTrace(path, l);
      case Receive => ReceiveKeepsTrace(path, l);
      case Refuse => SpeakingKeepsTrace(path, l, e);
      case Announce(_) => SpeakingKeepsTrace(path, l, e);
      case Goodbye => SpeakingKeepsTrace(path, l, e);
      case _ => RestKeepsTrace(path, l, e);
    }
    TraceStays(path, Next(l, e), Next(l, e));
  }

  lemma NothingLeft(l: Link, nCooks: nat)
    requires nCooks > 0 && Reachable(l, nCooks) && !l.log.asked
    ensures ReportsIn(l.results) == [] && !InSurvey(l.k.worker)
    ensures forall i :: 0 <= i < |l.results| ==> !l.results[i].StatusReplyPkt?
  {
    hide Reachable, LinkSafety.Conserved, LinkSafety.Counted, OrdersEnd, ResultsEnd, KitchenInv;
    ReachableInv(l, nCooks);
    hide SampleInv, SnapshotInv, ReportInv;
    NothingReported(l);
    SameNumberOfIds(l.results);
    forall i | 0 <= i < |l.results| ensures !l.results[i].StatusReplyPkt? {
      SumMember(l.results, i, ReplyIn);
    }
  }

  /** A survey opens with nothing of an earlier one left anywhere. */
  lemma AskTraced(l: Link, nCooks: nat)
    requires nCooks > 0 && Reachable(l, nCooks) && Enabled(l, Ask)
    ensures Traced([Next(l, Ask)], Next(l, Ask))
  {
    hide Reachable, Do, Can, Handled, NarrowStock, ReportsIn;
    NothingLeft(l, nCooks);
    assert Gathered(l.k.worker) == [];
  }
}
