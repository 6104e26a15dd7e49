/** A status survey of one kitchen, from the request to the snapshot in its handle. */
module LinkStatus {
  import opened Menu
  import opened Sums
  import opened Kitchen
  import opened KitchenSafety
  import opened Protocol
  import opened LinkEnds

  function RequestIn(p: Packet): nat {
    if p.StatusRequestPkt? then 1 else 0
  }

  function ReplyIn(p: Packet): nat {
    if p.StatusReplyPkt? then 1 else 0
  }

  /** The ids 0, 1, 2, ... as they fit in one byte each. */
  function Roster(n: nat): (ids: seq<byte>) {
    seq(n, i requires 0 <= i < n => Narrow(i))
  }

  function Ids(reports: seq<CookReport>): seq<byte> {
    seq(|reports|, i requires 0 <= i < |reports| => reports[i].id)
  }

  /** The cook ids in the status packets of a queue, in order. */
  ghost function ReportIds(s: seq<Packet>): seq<byte> {
    if s == [] then []
    else
      var p := s[|s| - 1];
      ReportIds(s[..|s| - 1]) + if p.CookPkt? then [p.report.id] else []
  }

  lemma ReportIdsAppend(s: seq<Packet>, p: Packet)
    ensures ReportIds(s + [p]) == ReportIds(s) + if p.CookPkt? then [p.report.id] else []
  {
    assert (s + [p])[..|s|] == s;
  }

  lemma {:induction false} ReportIdsTail(s: seq<Packet>)
    requires s != []
    ensures ReportIds(s) == (if s[0].CookPkt? then [s[0].report.id] else []) + ReportIds(s[1..])
  {
    if |s| > 1 {
      ReportIdsTail(s[..|s| - 1]);
      assert s[..|s| - 1][1..] == s[1..][..|s| - 2];
    }
  }

  lemma {:induction false} NoReports(s: seq<Packet>)
    requires forall i :: 0 <= i < |s| ==> !s[i].CookPkt?
    ensures ReportIds(s) == []
  {
    if s != [] {
      NoReports(s[..|s| - 1]);
    }
  }

  ghost function ToSend(w: Worker): seq<byte> {
    if w.Sending? then Ids(w.todo) else []
  }

  /** A reply tells the capacity, and a load within it, as long as both fit in one byte. */
  predicate Fair(load: nat, capacity: nat, nCooks: nat) {
    capacity == 2 * nCooks % 256 && (nCooks <= 127 ==> load <= 2 * nCooks)
  }

  /** The main thread is answering a status request. */
  predicate InSurvey(w: Worker) {
    w.Replying? || w.Sampling? || w.Sending?
  }

  /** One unanswered request is in exactly one place: asked for, being answered, or replied to. */
  ghost predicate SurveyInv(l: Link) {
    && Sum(l.orders, RequestIn) + (if InSurvey(l.k.worker) then 1 else 0)
       + Sum(l.results, ReplyIn) == (if l.log.asked then 1 else 0)
    && (l.log.asked ==> l.log.everAsked)
  }

  ghost predicate SampleInv(k: Kitchen) {
    && (k.worker.Sampling? ==> |k.worker.seen| < |k.cooks| && Ids(k.worker.seen) == Roster(|k.worker.seen|))
    && (k.worker.Sampling? || k.worker.Sending? ==> k.worker.load <= Capacity(k))
  }

  /** No cook's entry comes after the reply that closes the report, and every reply is fair. */
  ghost predicate WellClosed(results: seq<Packet>, nCooks: nat) {
    && (forall i, j :: 0 <= i < j < |results| && results[i].StatusReplyPkt? ==> !results[j].CookPkt?)
    && (forall i :: 0 <= i < |results| && results[i].StatusReplyPkt? ==>
          Fair(results[i].load as nat, results[i].capacity as nat, nCooks))
  }

  lemma TailWellClosed(results: seq<Packet>, nCooks: nat)
    requires results != [] && WellClosed(results, nCooks)
    ensures WellClosed(results[1..], nCooks)
    ensures results[0].StatusReplyPkt? ==> ReportIds(results[1..]) == []
    ensures results[0].StatusReplyPkt? ==> Fair(results[0].load as nat, results[0].capacity as nat, nCooks)
  {
    hide Fair;
    if results[0].StatusReplyPkt? { NoReports(results[1..]); }
  }

  lemma MoreWellClosed(results: seq<Packet>, p: Packet, nCooks: nat)
    requires WellClosed(results, nCooks)
    requires p.CookPkt? ==> Sum(results, ReplyIn) == 0
    requires p.StatusReplyPkt? ==> Fair(p.load as nat, p.capacity as nat, nCooks)
    ensures WellClosed(results + [p], nCooks)
  {
    hide Fair;
    forall i | 0 <= i < |results| && results[i].StatusReplyPkt? ensures Sum(results, ReplyIn) > 0 {
      SumMember(results, i, ReplyIn);
    }
  }

  /** The report of one survey: cooks in id order, each once, and then the reply. */
  ghost predicate Reporting(pending: seq<CookReport>, results: seq<Packet>, w: Worker, nCooks: nat) {
    && Ids(pending) + ReportIds(results) + ToSend(w)
       == (if w.Sending? || Sum(results, ReplyIn) > 0 then Roster(nCooks) else [])
    && WellClosed(results, nCooks)
  }

  ghost predicate ReportInv(l: Link) {
    Reporting(l.h.pendingCooks, l.results, l.k.worker, |l.k.cooks|)
  }

  /** What the handle shows once a survey has been answered. */
  ghost predicate Snapshot(h: Handle, nCooks: nat) {
    && Ids(h.status.cooks) == Roster(nCooks)
    && Fair(h.status.load, h.status.capacity, nCooks)
    && h.status.stock.Some?
  }

  ghost predicate SnapshotInv(l: Link) {
    l.log.everAsked && !l.log.asked ==> Snapshot(l.h, |l.k.cooks|)
  }

  ghost predicate StatusInv(l: Link) {
    SurveyInv(l) && SampleInv(l.k) && ReportInv(l) && SnapshotInv(l)
  }

  // -------------------------------------------------------------- preservation

  predicate Samples(m: Move) {
    m.SampleLoad? || m.SampleStock? || m.SampleCook?
  }

  lemma WorkLeavesSurvey(k: Kitchen, m: Move)
    requires !m.OfCook() && !Samples(m) && CanWork(k, m)
    ensures InSurvey(k.worker) || InSurvey(Work(k, m).worker) ==> Work(k, m).worker == k.worker
  {
  }

  lemma CookLeavesSurvey(k: Kitchen, m: Move)
    requires m.OfCook() && CanCook(k, m)
    ensures DoCook(k, m).worker == k.worker
  {
  }

  lemma MovesLeaveSurvey(k: Kitchen, m: Move)
    requires !Samples(m) && Can(k, m)
    ensures InSurvey(k.worker) || InSurvey(Do(k, m).worker) ==> Do(k, m).worker == k.worker
    ensures |Do(k, m).cooks| == |k.cooks|
  {
    MovesStayInside(k, m);
    hide CanWork, CanCook, Work, DoCook;
    if m.OfCook() { CookLeavesSurvey(k, m); } else { WorkLeavesSurvey(k, m); }
  }

  // --- the request

  /** The kitchen sends a packet; a reply takes the place of the main thread that was answering. */
  lemma PacketKeepsSurvey(l: Link, k: Kitchen, p: Packet)
    requires SurveyInv(l)
    requires (if InSurvey(k.worker) then 1 else 0) + ReplyIn(p) == if InSurvey(l.k.worker) then 1 else 0
    ensures SurveyInv(l.(k := k, results := l.results + [p]))
  {
    hide InSurvey, ReplyIn;
    SumAppend(l.results, p, ReplyIn);
  }

  lemma RefuseKeepsSurvey(l: Link)
    requires SurveyInv(l) && Enabled(l, Refuse)
    ensures SurveyInv(Next(l, Refuse))
  {
    hide SurveyInv;
    PacketKeepsSurvey(l, Next(l, Refuse).k, FullPkt(Pack(l.k.worker.pizza)));
  }

  lemma AnnounceKeepsSurvey(l: Link, i: nat)
    requires SurveyInv(l) && Enabled(l, Announce(i))
    ensures SurveyInv(Next(l, Announce(i)))
  {
    hide SurveyInv;
    PacketKeepsSurvey(l, Next(l, Announce(i)).k, DonePkt(Pack(l.k.cooks[i].pizza)));
  }

  lemma SendCookKeepsSurvey(l: Link)
    requires SurveyInv(l) && Enabled(l, SendCook)
    ensures SurveyInv(Next(l, SendCook))
  {
    hide SurveyInv;
    PacketKeepsSurvey(l, Next(l, SendCook).k, CookPkt(l.k.worker.todo[0]));
  }

  lemma SendReplyKeepsSurvey(l: Link)
    requires SurveyInv(l) && Enabled(l, SendReply)
    ensures SurveyInv(Next(l, SendReply))
  {
    hide SurveyInv, NarrowStock;
    PacketKeepsSurvey(l, Next(l, SendReply).k, Next(l, SendReply).results[|l.results|]);
  }

  lemma GoodbyeKeepsSurvey(l: Link)
    requires SurveyInv(l) && Enabled(l, Goodbye)
    ensures SurveyInv(Next(l, Goodbye))
  {
    hide SurveyInv;
    PacketKeepsSurvey(l, Next(l, Goodbye).k, ShutdownPkt);
  }

  /** The reception sends a packet; a request is one more if there was none. */
  lemma OrderKeepsSurvey(l: Link, l': Link, p: Packet)
    requires SurveyInv(l) && l'.k == l.k && l'.results == l.results && l'.orders == l.orders + [p]
    requires if p.StatusRequestPkt? then !l.log.asked && l'.log.asked && l'.log.everAsked
             else l'.log.asked == l.log.asked && l'.log.everAsked == l.log.everAsked
    ensures SurveyInv(l')
  {
    hide InSurvey;
    SumAppend(l.orders, p, RequestIn);
  }

  lemma DeliverKeepsSurvey(l: Link, pizza: Pizza)
    requires SurveyInv(l) && Enabled(l, Deliver(pizza))
    ensures SurveyInv(Next(l, Deliver(pizza)))
  {
    hide SurveyInv;
    OrderKeepsSurvey(l, Next(l, Deliver(pizza)), PizzaPkt(Pack(pizza)));
  }

  lemma AskKeepsSurvey(l: Link)
    requires SurveyInv(l) && Enabled(l, Ask)
    ensures SurveyInv(Next(l, Ask))
  {
    hide SurveyInv;
    OrderKeepsSurvey(l, Next(l, Ask), StatusRequestPkt);
  }

  lemma QuitKeepsSurvey(l: Link)
    requires SurveyInv(l) && Enabled(l, Quit)
    ensures SurveyInv(Next(l, Quit))
  {
    hide SurveyInv;
    OrderKeepsSurvey(l, Next(l, Quit), ShutdownPkt);
  }

  lemma PollKeepsSurvey(l: Link)
    requires SurveyInv(l) && Enabled(l, Poll)
    ensures SurveyInv(Next(l, Poll))
  {
    hide Ticket;
    if l.orders != [] { SumTail(l.orders, RequestIn); }
  }

  lemma ReceiveKeepsSurvey(l: Link)
    requires SurveyInv(l) && Enabled(l, Receive)
    ensures SurveyInv(Next(l, Receive))
  {
    hide Handled, InSurvey;
    SumTail(l.results, ReplyIn);
  }

  lemma ReapKeepsSurvey(l: Link)
    requires SurveyInv(l) && Enabled(l, Reap)
    ensures SurveyInv(Next(l, Reap))
  {
    hide InSurvey;
  }

  lemma MoveKeepsSurvey(l: Link, m: Move)
    requires SurveyInv(l) && Enabled(l, Inside(m))
    ensures SurveyInv(Next(l, Inside(m)))
  {
    MovesKeepSurveying(l.k, m);
    hide Do, Can, InSurvey;
  }

  lemma EventKeepsSurvey(l: Link, e: Event)
    requires SurveyInv(l) && Enabled(l, e)
    ensures SurveyInv(Next(l, e))
  {
    hide *;
    match e {
      case Inside(m) => MoveKeepsSurvey(l, m);
      case Poll => PollKeepsSurvey(l);
      case Refuse => RefuseKeepsSurvey(l);
      case SendCook => SendCookKeepsSurvey(l);
      case SendReply => SendReplyKeepsSurvey(l);
      case Announce(i) => AnnounceKeepsSurvey(l, i);
      case Goodbye => GoodbyeKeepsSurvey(l);
      case Deliver(pizza) => DeliverKeepsSurvey(l, pizza);
      case Ask => AskKeepsSurvey(l);
      case Quit => QuitKeepsSurvey(l);
      case Receive => ReceiveKeepsSurvey(l);
      case Reap => ReapKeepsSurvey(l);
    }
  }

  lemma MovesKeepSurveying(k: Kitchen, m: Move)
    requires Can(k, m)
    ensures InSurvey(Do(k, m).worker) <==> InSurvey(k.worker)
  {
    if !Samples(m) {
      MovesLeaveSurvey(k, m);
      hide Do, Can;
    }
  }

  // --- the samples

  lemma SamplingKeepsSamples(k: Kitchen, m: Move)
    requires SampleInv(k) && Samples(m) && Can(k, m) && k.pool.load <= Capacity(k) && k.cooks != []
    ensures SampleInv(Do(k, m))
    ensures !Do(k, m).worker.Sending? ==> !k.worker.Sending? && Do(k, m).worker.Sampling?
    ensures Do(k, m).worker.Sending? ==> k.worker.Sampling? && ToSend(Do(k, m).worker) == Roster(|k.cooks|)
    ensures |Do(k, m).cooks| == |k.cooks|
  {
    NobodySeen();
    if m.SampleCook? {
      var i := |k.worker.seen|;
      assert Ids(k.worker.seen + [CookReport(Narrow(i), k.cooks[i].Busy())]) == Ids(k.worker.seen) + [Narrow(i)];
      assert Roster(i + 1) == Roster(i) + [Narrow(i)];
    }
  }

  lemma NobodySeen()
    ensures Ids([]) == Roster(0) == []
  {
  }

  lemma EventKeepsSamples(l: Link, e: Event)
    requires SampleInv(l.k) && l.k.pool.load <= Capacity(l.k) && Enabled(l, e) && l.k.cooks != []
    ensures SampleInv(Next(l, e).k)
  {
    if e.Inside? {
      if Samples(e.m) { SamplingKeepsSamples(l.k, e.m); } else { MovesLeaveSurvey(l.k, e.m); }
      hide Do, Can, Ids, Roster;
    } else {
      NobodySeen();
      hide Do, Can, Ticket, NarrowStock, Handled, Noted, Ids, Roster;
    }
  }

  // --- the report

  /** Outside the answering of a request, and before its reply, nothing has been reported. */
  lemma NothingReported(l: Link)
    requires ReportInv(l) && !l.k.worker.Sending? && Sum(l.results, ReplyIn) == 0
    ensures Ids(l.h.pendingCooks) == [] && ReportIds(l.results) == []
  {
    hide WellClosed;
    assert |Ids(l.h.pendingCooks)| + |ReportIds(l.results)| == 0;
  }

  /** Nothing that belongs to a report, on either side, has changed. */
  lemma QuietKeepsReport(l: Link, l': Link)
    requires ReportInv(l) && l'.h.pendingCooks == l.h.pendingCooks && l'.results == l.results
    requires |l'.k.cooks| == |l.k.cooks| && (l'.k.worker.Sending? || l.k.worker.Sending? ==> l'.k.worker == l.k.worker)
    ensures ReportInv(l')
  {
    hide WellClosed, Roster, Ids;
  }

  lemma SamplingKeepsReport(l: Link, m: Move)
    requires SurveyInv(l) && SampleInv(l.k) && ReportInv(l) && Samples(m) && Can(l.k, m)
    requires l.k.pool.load <= Capacity(l.k) && l.k.cooks != []
    ensures ReportInv(l.(k := Do(l.k, m)))
  {
    SamplingKeepsSamples(l.k, m);
    hide Do, Can, WellClosed, Roster, SampleInv;
    if Do(l.k, m).worker.Sending? {
      NothingReported(l);
    }
  }

  lemma OtherPacketKeepsReport(l: Link, k: Kitchen, p: Packet)
    requires ReportInv(l) && !p.CookPkt? && !p.StatusReplyPkt? && |k.cooks| == |l.k.cooks|
    requires l.k.worker.Sending? || k.worker.Sending? ==> k.worker == l.k.worker
    ensures ReportInv(l.(k := k, results := l.results + [p]))
  {
    hide WellClosed, Roster, Ids;
    SumAppend(l.results, p, ReplyIn);
    ReportIdsAppend(l.results, p);
    MoreWellClosed(l.results, p, |k.cooks|);
    assert ReportIds(l.results + [p]) == ReportIds(l.results);
  }

  lemma SpeakingKeepsReport(l: Link, e: Event)
    requires ReportInv(l) && Enabled(l, e) && (e.Refuse? || e.Announce? || e.Goodbye?)
    ensures ReportInv(Next(l, e))
  {
    hide ReportInv, NarrowStock, Polled, Do, Can;
    var l' := Next(l, e);
    var p := l'.results[|l.results|];
    assert l' == l.(k := l'.k, results := l.results + [p]);
    OtherPacketKeepsReport(l, l'.k, p);
  }

  lemma Regroup(a: seq<byte>, b: seq<byte>, x: byte, c: seq<byte>)
    ensures a + (b + [x]) + c == a + b + ([x] + c)
    ensures (a + [x]) + b + c == a + ([x] + b) + c
  {
  }

  lemma SendCookKeepsReport(l: Link)
    requires SurveyInv(l) && ReportInv(l) && Enabled(l, SendCook)
    ensures ReportInv(Next(l, SendCook))
  {
    var todo := l.k.worker.todo;
    SumAppend(l.results, CookPkt(todo[0]), ReplyIn);
    ReportIdsAppend(l.results, CookPkt(todo[0]));
    assert Ids(todo) == [todo[0].id] + Ids(todo[1..]);
    Regroup(Ids(l.h.pendingCooks), ReportIds(l.results), todo[0].id, Ids(todo[1..]));
    MoreWellClosed(l.results, CookPkt(todo[0]), |l.k.cooks|);
    hide WellClosed, Roster, Ids, Polled, NarrowStock, Do, Can;
  }

  lemma SendReplyKeepsReport(l: Link)
    requires SurveyInv(l) && SampleInv(l.k) && ReportInv(l) && Enabled(l, SendReply)
    ensures ReportInv(Next(l, SendReply))
  {
    var p := Next(l, SendReply).results[|l.results|];
    SumAppend(l.results, p, ReplyIn);
    ReportIdsAppend(l.results, p);
    MoreWellClosed(l.results, p, |l.k.cooks|);
    NobodySeen();
    hide WellClosed, Roster, Ids, Polled, NarrowStock, Do, Can;
  }

  lemma AskKeepsReport(l: Link)
    requires SurveyInv(l) && ReportInv(l) && Enabled(l, Ask)
    ensures ReportInv(Next(l, Ask))
  {
    NothingReported(l);
    NobodySeen();
    hide WellClosed, Roster, Ids, Polled, NarrowStock, Do, Can;
  }

  lemma ReplyTaken(pending: seq<CookReport>, results: seq<Packet>, w: Worker, nCooks: nat)
    requires Reporting(pending, results, w, nCooks) && !w.Sending?
    requires results != [] && results[0].StatusReplyPkt? && Sum(results, ReplyIn) == 1
    ensures Reporting([], results[1..], w, nCooks)
    ensures Ids(pending) == Roster(nCooks) && Fair(results[0].load as nat, results[0].capacity as nat, nCooks)
  {
    SumTail(results, ReplyIn);
    ReportIdsTail(results);
    TailWellClosed(results, nCooks);
    NobodySeen();
    hide Fair, WellClosed, Roster, Ids;
    assert Ids(pending) + [] + [] == Ids(pending);
  }

  lemma ReportTaken(pending: seq<CookReport>, results: seq<Packet>, w: Worker, nCooks: nat)
    requires Reporting(pending, results, w, nCooks) && results != [] && results[0].CookPkt?
    ensures Reporting(pending + [results[0].report], results[1..], w, nCooks)
  {
    hide WellClosed, Roster, Ids, ToSend, ReportIds;
    var p := results[0];
    SumTail(results, ReplyIn);
    ReportIdsTail(results);
    TailWellClosed(results, nCooks);
    IdsAppend(pending, p.report);
    Regroup(Ids(pending), ReportIds(results[1..]), p.report.id, ToSend(w));
  }

  lemma IdsAppend(reports: seq<CookReport>, more: CookReport)
    ensures Ids(reports + [more]) == Ids(reports) + [more.id]
  {
  }

  lemma AnswerTaken(pending: seq<CookReport>, results: seq<Packet>, w: Worker, nCooks: nat)
    requires Reporting(pending, results, w, nCooks)
    requires results != [] && !results[0].CookPkt? && !results[0].StatusReplyPkt?
    ensures Reporting(pending, results[1..], w, nCooks)
  {
    SumTail(results, ReplyIn);
    ReportIdsTail(results);
    TailWellClosed(results, nCooks);
    assert ReportIds(results) == ReportIds(results[1..]);
    hide WellClosed, Roster, Ids, ToSend;
  }

  lemma ReceiveKeepsReport(l: Link)
    requires SurveyInv(l) && ReportInv(l) && Enabled(l, Receive)
    ensures ReportInv(Next(l, Receive))
    ensures l.results[0].StatusReplyPkt? ==> Snapshot(Next(l, Receive).h, |l.k.cooks|)
  {
    hide Reporting, Ids, Roster, Fair, Polled, NarrowStock, Can, Do;
    if l.results[0].StatusReplyPkt? {
      SumMember(l.results, 0, ReplyIn);
      ReplyTaken(l.h.pendingCooks, l.results, l.k.worker, |l.k.cooks|);
    } else if l.results[0].CookPkt? {
      ReportTaken(l.h.pendingCooks, l.results, l.k.worker, |l.k.cooks|);
    } else {
      AnswerTaken(l.h.pendingCooks, l.results, l.k.worker, |l.k.cooks|);
    }
  }

  lemma RestKeepsReport(l: Link, e: Event)
    requires ReportInv(l) && Enabled(l, e)
    requires e.Poll? || e.Deliver? || e.Quit? || e.Reap? || (e.Inside? && !Samples(e.m))
    ensures ReportInv(Next(l, e))
  {
    if e.Inside? { MovesLeaveSurvey(l.k, e.m); }
    hide ReportInv, NarrowStock, Do, Can, Ticket;
    QuietKeepsReport(l, Next(l, e));
  }

  lemma EventKeepsReport(l: Link, e: Event)
    requires SurveyInv(l) && SampleInv(l.k) && ReportInv(l) && Enabled(l, e)
    requires l.k.pool.load <= Capacity(l.k) && l.k.cooks != []
    ensures ReportInv(Next(l, e))
  {
    hide SurveyInv, SampleInv, ReportInv, Polled, NarrowStock, Handled, Noted, Can, Do;
    match e
    case Inside(m) => if Samples(m) { SamplingKeepsReport(l, m); } else { RestKeepsReport(l, e); }
    case Refuse => SpeakingKeepsReport(l, e);
    case Announce(_) => SpeakingKeepsReport(l, e);
    case Goodbye => SpeakingKeepsReport(l, e);
    case SendCook => SendCookKeepsReport(l);
    case SendReply => SendReplyKeepsReport(l);
    case Receive => ReceiveKeepsReport(l);
    case Ask => AskKeepsReport(l);
    case _ => RestKeepsReport(l, e);
  }

  // --- the snapshot

  lemma OtherAnswerKeepsSnapshot(l: Link)
    requires SnapshotInv(l) && Enabled(l, Receive) && !l.results[0].StatusReplyPkt?
    ensures SnapshotInv(Next(l, Receive))
  {
    hide Ids, Roster, Fair;
  }

  lemma ReceiveKeepsSnapshot(l: Link)
    requires SurveyInv(l) && ReportInv(l) && SnapshotInv(l) && Enabled(l, Receive)
    ensures SnapshotInv(Next(l, Receive))
  {
    hide Ids, Roster, Fair, SurveyInv, ReportInv;
    if l.results[0].StatusReplyPkt? {
      ReceiveKeepsReport(l);
      hide Snapshot, Handled;
    } else {
      hide Snapshot, SnapshotInv;
      OtherAnswerKeepsSnapshot(l);
    }
  }

  /** Every other event leaves the snapshot and the survey's standing as they are, or opens a survey. */
  lemma OtherLeavesSnapshot(l: Link, e: Event)
    requires Enabled(l, e) && !e.Receive?
    ensures var l' := Next(l, e);
      && |l'.k.cooks| == |l.k.cooks| && l'.h.status == l.h.status
      && (l'.log.asked || (l'.log.asked == l.log.asked && l'.log.everAsked == l.log.everAsked))
  {
    if e.Inside? { MovesStayInside(l.k, e.m); }
    hide Can, Do, Polled, NarrowStock, Handled, Noted;
  }

  lemma EventKeepsSnapshot(l: Link, e: Event)
    requires SurveyInv(l) && ReportInv(l) && SnapshotInv(l) && Enabled(l, e)
    ensures SnapshotInv(Next(l, e))
  {
    hide SurveyInv, ReportInv, Next, Enabled, Ids, Roster, Fair;
    if e.Receive? { ReceiveKeepsSnapshot(l); } else { OtherLeavesSnapshot(l, e); }
  }

  lemma EventKeepsStatus(l: Link, e: Event)
    requires KitchenInv(l.k) && StatusInv(l) && Enabled(l, e)
    ensures StatusInv(Next(l, e))
  {
    LoadFits(l.k);
    hide KitchenInv, SurveyInv, SampleInv, ReportInv, SnapshotInv, Next, Enabled;
    EventKeepsSurvey(l, e);
    EventKeepsSamples(l, e);
    EventKeepsReport(l, e);
    EventKeepsSnapshot(l, e);
  }
}
