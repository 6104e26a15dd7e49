/**
 The main thread of the kitchen machine keeps a diary of its turns. In every run by the clock
 the turns of the diary are such that the loop of KitchenLoop, fed with them, does what the
 main thread did: it keeps the same time of activity, says the same packets, and leaves at the same turn.
 */
module MainThread {
  import opened Menu
  import opened Kitchen
  import opened Protocol
  import opened KitchenLoop
  import opened Clock

  /** Completed turns, the turn under way, and the packets the main thread has put on the result queue. */
  datatype Diary = Diary(turns: seq<Turn>, draft: Turn, said: seq<Packet>)

  const NO_SAMPLE := Sample(0, FULL_SHELF, [])

  function NewDiary(start: nat): Diary {
    Diary([], Turn(None, false, start, NO_SAMPLE, true, start), [])
  }

  function Busies(reports: seq<CookReport>): seq<bool> {
    seq(|reports|, i requires 0 <= i < |reports| => reports[i].busy)
  }

  /** What an event adds to the diary: room is that a pizza was admitted, idle that a check found no load. */
  ghost function Entry(l: Link, e: Event, t: nat, d: Diary): Diary
    requires Enabled(l, e)
  {
    match e
    case Poll =>
      d.(draft := Turn(if l.orders == [] then None else Some(l.orders[0]), false, t, NO_SAMPLE, true, t))
    case Refuse => d.(said := d.said + [FullPkt(Pack(l.k.worker.pizza))])
    case SendCook => d.(said := d.said + [CookPkt(l.k.worker.todo[0])])
    case SendReply => d.(said := d.said + [Next(l, e).results[|l.results|]])
    case Goodbye => d.(said := d.said + [ShutdownPkt])
    case Inside(m) =>
      if m.AddNotify? then d.(draft := d.draft.(room := true, heardAt := t))
      else if m.SampleCook? && Do(l.k, m).worker.Sending? then
        var w := Do(l.k, m).worker;
        d.(draft := d.draft.(sample := Sample(w.load, w.stock, Busies(w.todo))))
      else if m.Doze? || m.Expire? then d.(turns := d.turns + [d.draft.(idle := l.k.pool.load == 0, now := t)])
      else d
    case _ => d
  }

  ghost function DiaryOf(start: nat, a: Link, events: seq<Event>, times: seq<nat>): Diary
    requires |times| == |events| && Run(a, events).Some?
  {
    if events == [] then NewDiary(start)
    else
      var n := |events| - 1;
      Entry(Run(a, events[..n]).value, events[n], times[n], DiaryOf(start, a, events[..n], times[..n]))
  }

  // ------------------------------------------------------------------ what is said

  function CookEntries(busy: seq<bool>): seq<Packet> {
    seq(|busy|, i requires 0 <= i < |busy| => CookPkt(CookReport(Narrow(i), busy[i])))
  }

  ghost predicate Numbered(reports: seq<CookReport>) {
    forall i :: 0 <= i < |reports| ==> reports[i].id == Narrow(i)
  }

  /** The turn under way, by what the main thread is doing. */
  ghost predicate DraftFits(w: Worker, draft: Turn, nCooks: nat) {
    match w
    case Adding(pizza) => draft.order == Some(PizzaPkt(Pack(pizza))) && !draft.room
    case AddTesting(pizza) => draft.order == Some(PizzaPkt(Pack(pizza))) && !draft.room
    case AddPushing(pizza) => draft.order == Some(PizzaPkt(Pack(pizza))) && !draft.room
    case Refusing(pizza) => draft.order == Some(PizzaPkt(Pack(pizza))) && !draft.room
    case AddCounting => draft.order.Some? && draft.order.value.PizzaPkt? && !draft.room
    case AddNotifying => draft.order.Some? && draft.order.value.PizzaPkt? && !draft.room
    case Replying => draft.order == Some(StatusRequestPkt)
    case Sampling(_, _, seen) => draft.order == Some(StatusRequestPkt) && Numbered(seen) && |seen| < nCooks
    case Sending(load, stock, todo) =>
      && draft.order == Some(StatusRequestPkt)
      && draft.sample.load == load && draft.sample.stock == stock && |draft.sample.busy| == nCooks && |todo| <= nCooks
      && forall p :: 0 <= p < |todo| ==>
           CookPkt(todo[p]) == CookEntries(draft.sample.busy)[nCooks - |todo| + p]
    case IdleCheck(leaving) => leaving == ToldToStop(draft)
    case _ => true
  }

  /** What has been said of the answer to the turn under way. */
  ghost function SoFar(w: Worker, draft: Turn, nCooks: nat): seq<Packet>
    requires DraftFits(w, draft, nCooks)
  {
    match w
    case Sending(_, _, todo) => CookEntries(draft.sample.busy)[..nCooks - |todo|]
    case IdleCheck(_) => Answer(nCooks, draft)
    case Finished => [ShutdownPkt]
    case _ => []
  }

  ghost predicate Recorded(l: Link, d: Diary, nCooks: nat) {
    && |l.k.cooks| == nCooks > 0
    && DraftFits(l.k.worker, d.draft, nCooks)
    && d.said == Spoken(nCooks, d.turns) + SoFar(l.k.worker, d.draft, nCooks)
  }

  /** The events at which the main thread answers, or samples. */
  predicate Speaks(e: Event) {
    || e.Refuse? || e.SendCook? || e.SendReply? || e.Goodbye?
    || (e.Inside? && (e.m.SampleLoad? || e.m.SampleStock? || e.m.SampleCook?))
  }

  lemma SpokenTurn(nCooks: nat, turns: seq<Turn>, t: Turn)
    ensures Spoken(nCooks, turns + [t]) == Spoken(nCooks, turns) + Answer(nCooks, t)
  {
    assert (turns + [t])[..|turns|] == turns;
  }

  /** The idle check and the clock do not change what there is to answer. */
  lemma CheckedAnswers(nCooks: nat, t: Turn, idle: bool, now: nat)
    ensures Answer(nCooks, t.(idle := idle, now := now)) == Answer(nCooks, t)
  {
  }

  lemma PollRecorded(l: Link, t: nat, d: Diary, nCooks: nat)
    requires Recorded(l, d, nCooks) && Enabled(l, Poll)
    ensures Recorded(Next(l, Poll), Entry(l, Poll, t, d), nCooks)
  {
    hide Report, Spoken, NarrowStock, CookEntries;
    if l.orders != [] && l.orders[0].PizzaPkt? {
      var slip := l.orders[0].slip;
      TicketIsOrdered(slip);
      WireRoundTrip(Read(slip), slip);
    }
  }

  lemma RefuseRecorded(l: Link, t: nat, d: Diary, nCooks: nat)
    requires Recorded(l, d, nCooks) && Enabled(l, Refuse)
    ensures Recorded(Next(l, Refuse), Entry(l, Refuse, t, d), nCooks)
  {
    hide Report, Spoken, NarrowStock, CookEntries, Pack;
  }

  lemma SendCookRecorded(l: Link, t: nat, d: Diary, nCooks: nat)
    requires Recorded(l, d, nCooks) && Enabled(l, SendCook)
    ensures Recorded(Next(l, SendCook), Entry(l, SendCook, t, d), nCooks)
  {
    hide Report, Spoken, NarrowStock;
    var busy, todo := d.draft.sample.busy, l.k.worker.todo;
    var all := CookEntries(busy);
    hide CookEntries;
    var k := nCooks - |todo|;
    assert CookPkt(todo[0]) == all[k + 0];
    assert all[..k + 1] == all[..k] + [all[k]];
    forall p | 0 <= p < |todo[1..]| ensures CookPkt(todo[1..][p]) == all[nCooks - |todo[1..]| + p] {
      assert CookPkt(todo[p + 1]) == all[k + (p + 1)];
    }
  }

  lemma SendReplyRecorded(l: Link, t: nat, d: Diary, nCooks: nat)
    requires Recorded(l, d, nCooks) && Enabled(l, SendReply)
    ensures Recorded(Next(l, SendReply), Entry(l, SendReply, t, d), nCooks)
  {
    hide Spoken, NarrowStock;
    var all := CookEntries(d.draft.sample.busy);
    assert all[..nCooks] == all;
    assert Report(nCooks, d.draft.sample) == all + [Next(l, SendReply).results[|l.results|]];
  }

  lemma SampleRecorded(l: Link, m: Move, t: nat, d: Diary, nCooks: nat)
    requires Recorded(l, d, nCooks) && Enabled(l, Inside(m)) && (m.SampleLoad? || m.SampleStock? || m.SampleCook?)
    ensures Recorded(Next(l, Inside(m)), Entry(l, Inside(m), t, d), nCooks)
  {
    if m.SampleCook? {
      CookSampleRecorded(l, t, d, nCooks);
      hide Recorded, Next, Enabled, Entry;
    } else {
      hide Report, Spoken, NarrowStock, CookEntries;
    }
  }

  /** Sampling goes on, or the last cook has been sampled and sending begins. */
  lemma SamplesFit(w: Worker, w': Worker, draft: Turn, more: CookReport, nCooks: nat)
    requires w.Sampling? && w.shelf.Some? && DraftFits(w, draft, nCooks) && more.id == Narrow(|w.seen|)
    requires w' == if |w.seen| + 1 == nCooks then Sending(w.load, w.shelf.value, w.seen + [more])
                   else w.(seen := w.seen + [more])
    ensures var draft' := if w'.Sending? then draft.(sample := Sample(w'.load, w'.stock, Busies(w'.todo))) else draft;
      DraftFits(w', draft', nCooks) && SoFar(w', draft', nCooks) == []
  {
    var reports := w.seen + [more];
    assert Numbered(reports);
    hide Numbered;
    if w'.Sending? {
      forall p | 0 <= p < nCooks ensures CookPkt(reports[p]) == CookEntries(Busies(reports))[p] {
        NumberedAt(reports, p);
      }
    }
  }

  lemma NumberedAt(reports: seq<CookReport>, p: nat)
    requires Numbered(reports) && p < |reports|
    ensures reports[p] == CookReport(Narrow(p), Busies(reports)[p])
  {
  }

  lemma CookSampleRecorded(l: Link, t: nat, d: Diary, nCooks: nat)
    requires Recorded(l, d, nCooks) && Enabled(l, Inside(SampleCook))
    ensures Recorded(Next(l, Inside(SampleCook)), Entry(l, Inside(SampleCook), t, d), nCooks)
  {
    var i := |l.k.worker.seen|;
    var w' := Next(l, Inside(SampleCook)).k.worker;
    assert SoFar(l.k.worker, d.draft, nCooks) == [];
    SamplesFit(l.k.worker, w', d.draft, CookReport(Narrow(i), l.k.cooks[i].Busy()), nCooks);
    hide DraftFits, SoFar, Spoken;
  }

  lemma CheckRecorded(l: Link, e: Event, t: nat, d: Diary, nCooks: nat)
    requires Recorded(l, d, nCooks) && Enabled(l, e) && Checks(e)
    ensures Recorded(Next(l, e), Entry(l, e, t, d), nCooks)
  {
    hide Spoken, Report, NarrowStock, CookEntries;
    SpokenTurn(nCooks, d.turns, d.draft.(idle := l.k.pool.load == 0, now := t));
    CheckedAnswers(nCooks, d.draft, l.k.pool.load == 0, t);
    hide Answer;
  }

  /** Everything else leaves the turn and the answer as they are, or goes on with addPizza or with the end. */
  lemma OtherRecorded(l: Link, e: Event, t: nat, d: Diary, nCooks: nat)
    requires Recorded(l, d, nCooks) && Enabled(l, e) && !Speaks(e) && !Checks(e) && !e.Poll?
    ensures Recorded(Next(l, e), Entry(l, e, t, d), nCooks)
  {
    if OfOthers(e) {
      hide Next, Enabled, Entry, DraftFits, SoFar, Spoken;
      OthersLeaveThread(l, e, t, d);
    } else {
      hide Recorded, Entry, CanWork, CanCook, Work, DoCook;
      WorkRecorded(l, e.m, t, d, nCooks);
    }
  }

  lemma WorkRecorded(l: Link, m: Move, t: nat, d: Diary, nCooks: nat)
    requires Recorded(l, d, nCooks) && !m.OfCook() && CanWork(l.k, m)
    requires !Speaks(Inside(m)) && !Checks(Inside(m))
    ensures Recorded(l.(k := Work(l.k, m)), Entry(l, Inside(m), t, d), nCooks)
  {
    hide Spoken, Report, NarrowStock, CookEntries, Slumber, Pack, WakeAll, FeedAll, Regenerated, IsFull, Next;
    assert |WakeAll(l.k.cooks)| == |l.k.cooks| == |FeedAll(l.k.cooks)| by { SameNumber(l.k.cooks); }
  }

  lemma SameNumber(cooks: seq<Cook>)
    ensures |WakeAll(cooks)| == |cooks| == |FeedAll(cooks)|
  {
  }

  lemma GoodbyeRecorded(l: Link, t: nat, d: Diary, nCooks: nat)
    requires Recorded(l, d, nCooks) && Enabled(l, Goodbye)
    ensures Recorded(Next(l, Goodbye), Entry(l, Goodbye, t, d), nCooks)
  {
    hide Spoken, Report, NarrowStock, CookEntries;
  }

  lemma EventRecorded(l: Link, e: Event, t: nat, d: Diary, nCooks: nat)
    requires Recorded(l, d, nCooks) && Enabled(l, e)
    ensures Recorded(Next(l, e), Entry(l, e, t, d), nCooks)
  {
    hide Recorded, Next, Enabled, Entry;
    match e
    case Poll => PollRecorded(l, t, d, nCooks);
    case Refuse => RefuseRecorded(l, t, d, nCooks);
    case SendCook => SendCookRecorded(l, t, d, nCooks);
    case SendReply => SendReplyRecorded(l, t, d, nCooks);
    case Goodbye => GoodbyeRecorded(l, t, d, nCooks);
    case Inside(m) =>
      if m.SampleLoad? || m.SampleStock? || m.SampleCook? { SampleRecorded(l, m, t, d, nCooks); }
      else if Checks(e) { CheckRecorded(l, e, t, d, nCooks); }
      else { OtherRecorded(l, e, t, d, nCooks); }
    case _ => OtherRecorded(l, e, t, d, nCooks);
  }

  // ------------------------------------------------------------- when it is said

  /** The turn under way has received its packet and not come to its check. */
  predicate InTurn(w: Worker) {
    w.InLoop() && !w.Polling?
  }

  /** The diary's times and endings, against the clock and the exit of the machine. */
  ghost predicate Kept(start: nat, l: Link, d: Diary, active: nat, check: nat, now: nat, period: nat) {
    && active == (if l.k.worker.IdleCheck? && Accepts(d.draft) then d.draft.heardAt
                  else ActiveAfter(start, d.turns, |d.turns|))
    && check == (if d.turns == [] then start else d.turns[|d.turns| - 1].now)
    && start <= check <= now && (InTurn(l.k.worker) ==> check <= d.draft.heardAt <= now)
    && Monotone(start, d.turns) && Periodic(start, d.turns, period)
    && (l.k.worker.InLoop() <==> l.k.exit.StillOpen?)
    && Concluded(start, d.turns, l.k.exit)
  }

  /** No turn but the last has ended the loop, and the last has exactly if the machine has left it, in the same way. */
  ghost predicate Concluded(start: nat, turns: seq<Turn>, exit: Exit) {
    && (forall i :: 0 <= i < |turns| - 1 ==> !Ends(start, turns, i))
    && (exit.StillOpen? ==> turns != [] ==> !Ends(start, turns, |turns| - 1))
    && (!exit.StillOpen? ==> turns != [] && Ends(start, turns, |turns| - 1))
    && (!exit.StillOpen? ==> (exit.ByShutdown? <==> ToldToStop(turns[|turns| - 1])))
  }

  lemma {:induction false} ActiveAfterMore(start: nat, turns: seq<Turn>, t: Turn, n: nat)
    requires n <= |turns|
    ensures ActiveAfter(start, turns + [t], n) == ActiveAfter(start, turns, n)
  {
    if n > 0 { ActiveAfterMore(start, turns, t, n - 1); }
  }

  lemma ConcludedMore(start: nat, turns: seq<Turn>, t: Turn, exit: Exit)
    requires Concluded(start, turns, StillOpen)
    requires var ends := ToldToStop(t) || (t.idle && t.now - ActiveAfter(start, turns + [t], |turns| + 1) >= IDLE_TIMEOUT);
      && (exit.StillOpen? <==> !ends) && (!exit.StillOpen? ==> (exit.ByShutdown? <==> ToldToStop(t)))
    ensures Concluded(start, turns + [t], exit)
  {
    forall i | 0 <= i < |turns| ensures !Ends(start, turns + [t], i) {
      ActiveAfterMore(start, turns, t, i + 1);
      assert !Ends(start, turns, i);
    }
  }

  lemma MonotoneMore(start: nat, turns: seq<Turn>, t: Turn)
    requires Monotone(start, turns) && start <= t.heardAt <= t.now
    requires turns != [] ==> turns[|turns| - 1].now <= t.heardAt
    ensures Monotone(start, turns + [t])
  {
    var n := |turns| - 1;
    forall i | 0 <= i < |turns| ensures turns[i].now <= t.heardAt {
      if i < n { assert turns[i].now <= turns[n].heardAt <= turns[n].now; }
    }
  }

  lemma PeriodicMore(start: nat, turns: seq<Turn>, t: Turn, period: nat)
    requires Periodic(start, turns, period)
    requires t.now <= (if turns == [] then start else turns[|turns| - 1].now) + period
    ensures Periodic(start, turns + [t], period)
  {
  }

  lemma CheckEffect(l: Link, e: Event, t: nat, d: Diary)
    requires Enabled(l, e) && Checks(e)
    ensures l.k.worker.IdleCheck? && !InTurn(Next(l, e).k.worker) && !Next(l, e).k.worker.IdleCheck?
    ensures e == Inside(Expire) ==> l.k.pool.load == 0 && !l.k.worker.leaving
    ensures Next(l, e).k.worker.InLoop() <==> e == Inside(Doze) && !l.k.worker.leaving
    ensures !Next(l, e).k.worker.InLoop() ==>
      Next(l, e).k.exit == if l.k.worker.leaving then ByShutdown else ByTimeout
    ensures Next(l, e).k.worker.InLoop() ==> Next(l, e).k.exit == l.k.exit
    ensures Entry(l, e, t, d) == d.(turns := d.turns + [d.draft.(idle := l.k.pool.load == 0, now := t)])
  {
  }

  lemma CheckKept(
    start: nat, l: Link, e: Event, t: nat, d: Diary, nCooks: nat, active: nat, check: nat, now: nat, period: nat)
    requires Recorded(l, d, nCooks) && Kept(start, l, d, active, check, now, period) && Enabled(l, e) && Checks(e)
    requires now <= t <= check + period
    requires e == Inside(Expire) ==> t - active >= IDLE_TIMEOUT
    requires e == Inside(Doze) && l.k.pool.load == 0 && !l.k.worker.leaving ==> t - active < IDLE_TIMEOUT
    ensures Kept(start, Next(l, e), Entry(l, e, t, d), if l.k.pool.load > 0 then t else active, t, t, period)
  {
    hide Recorded, Next, Enabled, Entry, Ends, Periodic, Monotone;
    CheckEffect(l, e, t, d);
    var turn := d.draft.(idle := l.k.pool.load == 0, now := t);
    LeavingIsTold(l, d, nCooks);
    ActiveAfterMore(start, d.turns, turn, |d.turns|);
    MonotoneMore(start, d.turns, turn);
    PeriodicMore(start, d.turns, turn, period);
    assert Concluded(start, d.turns, StillOpen);
    hide Concluded;
    ConcludedMore(start, d.turns, turn, Next(l, e).k.exit);
  }

  lemma LeavingIsTold(l: Link, d: Diary, nCooks: nat)
    requires Recorded(l, d, nCooks) && l.k.worker.IdleCheck?
    ensures l.k.worker.leaving == ToldToStop(d.draft)
  {
  }

  lemma PollKept(start: nat, l: Link, t: nat, d: Diary, active: nat, check: nat, now: nat, period: nat)
    requires Kept(start, l, d, active, check, now, period) && Enabled(l, Poll) && now <= t
    ensures Kept(start, Next(l, Poll), Entry(l, Poll, t, d), active, check, t, period)
  {
    hide Concluded, Monotone, Periodic, ActiveAfter;
  }

  lemma AdmitKept(
    start: nat, l: Link, e: Event, t: nat, d: Diary, nCooks: nat, active: nat, check: nat, now: nat, period: nat)
    requires Recorded(l, d, nCooks) && Kept(start, l, d, active, check, now, period) && Enabled(l, e)
    requires Admits(e) && now <= t
    ensures Kept(start, Next(l, e), Entry(l, e, t, d), t, check, t, period)
  {
    hide Concluded, Monotone, Periodic, ActiveAfter, Answer, Spoken, Slumber;
  }

  /** The events that are not the main thread's. */
  predicate OfOthers(e: Event) {
    e.Announce? || e.Deliver? || e.Ask? || e.Quit? || e.Receive? || e.Reap? || (e.Inside? && e.m.OfCook())
  }

  lemma OthersLeaveThread(l: Link, e: Event, t: nat, d: Diary)
    requires OfOthers(e) && Enabled(l, e)
    ensures Next(l, e).k.worker == l.k.worker && Next(l, e).k.exit == l.k.exit && Entry(l, e, t, d) == d
    ensures |Next(l, e).k.cooks| == |l.k.cooks|
  {
    if e.Inside? {
      CookLeavesThread(l.k, e.m);
      hide CanCook, DoCook;
    } else {
      OutsideEffect(l, e);
      hide NarrowStock, Handled, Noted, Can, Do;
    }
  }

  lemma CookLeavesThread(k: Kitchen, m: Move)
    requires m.OfCook() && CanCook(k, m)
    ensures DoCook(k, m).worker == k.worker && DoCook(k, m).exit == k.exit && |DoCook(k, m).cooks| == |k.cooks|
  {
    hide AllAvailable, Needs, Without;
  }

  /** Neither the check nor the end of addPizza: the turn goes on as it is, or so does what comes after the loop. */
  ghost predicate TurnGoesOn(l: Link, l': Link, d: Diary, d': Diary) {
    var w, w' := l.k.worker, l'.k.worker;
    && d'.turns == d.turns && d'.draft == d.draft.(sample := d'.draft.sample)
    && (InTurn(w) <==> InTurn(w')) && (w.InLoop() <==> w'.InLoop()) && l'.k.exit == l.k.exit
    && (w'.IdleCheck? && !w.IdleCheck? ==> !Accepts(d.draft)) && (w.IdleCheck? ==> w' == w)
  }

  lemma WorkGoesOn(l: Link, m: Move, t: nat, d: Diary, nCooks: nat)
    requires Recorded(l, d, nCooks) && !m.OfCook() && CanWork(l.k, m)
    requires !Checks(Inside(m)) && !Admits(Inside(m))
    ensures TurnGoesOn(l, l.(k := Work(l.k, m)), d, Entry(l, Inside(m), t, d))
  {
    hide Recorded, Slumber, WakeAll, FeedAll, Regenerated, IsFull, Next;
  }

  lemma SpeechGoesOn(l: Link, e: Event, t: nat, d: Diary, nCooks: nat)
    requires Recorded(l, d, nCooks) && Enabled(l, e) && (e.Refuse? || e.SendCook? || e.SendReply? || e.Goodbye?)
    ensures TurnGoesOn(l, Next(l, e), d, Entry(l, e, t, d))
  {
    hide Spoken, Answer, NarrowStock, CookEntries, SoFar, Do, Can;
  }

  /** Nothing else touches the times, or the loop. */
  lemma OtherLeavesTurn(l: Link, e: Event, t: nat, d: Diary, nCooks: nat)
    requires Recorded(l, d, nCooks) && Enabled(l, e) && !Checks(e) && !Admits(e) && !e.Poll?
    ensures TurnGoesOn(l, Next(l, e), d, Entry(l, e, t, d))
  {
    if OfOthers(e) {
      hide Recorded, Next, Enabled, Entry;
      OthersLeaveThread(l, e, t, d);
    } else if e.Inside? {
      hide Recorded, Entry, CanWork, CanCook, Work, DoCook, TurnGoesOn;
      WorkGoesOn(l, e.m, t, d, nCooks);
    } else {
      hide Recorded, Next, Enabled, Entry, TurnGoesOn;
      SpeechGoesOn(l, e, t, d, nCooks);
    }
  }

  lemma OtherKept(
    start: nat, l: Link, e: Event, t: nat, d: Diary, nCooks: nat, active: nat, check: nat, now: nat, period: nat)
    requires Recorded(l, d, nCooks) && Kept(start, l, d, active, check, now, period) && Enabled(l, e) && now <= t
    requires !Checks(e) && !Admits(e) && !e.Poll?
    ensures Kept(start, Next(l, e), Entry(l, e, t, d), active, check, t, period)
  {
    hide Recorded, Concluded, Monotone, Periodic, ActiveAfter, Next, Enabled, Entry;
    OtherLeavesTurn(l, e, t, d, nCooks);
  }

  // ------------------------------------------------------------------- whole runs

  lemma NewDiaryKept(id: nat, nCooks: nat, start: nat, period: nat)
    requires nCooks > 0
    ensures Recorded(NewLink(id, nCooks), NewDiary(start), nCooks)
    ensures Kept(start, NewLink(id, nCooks), NewDiary(start), start, start, start, period)
  {
  }

  lemma {:induction false} DiaryKept(id: nat, nCooks: nat, start: nat, events: seq<Event>, times: seq<nat>, period: nat)
    requires nCooks > 0 && |times| == |events| && Run(NewLink(id, nCooks), events).Some?
    requires Timely(start, NewLink(id, nCooks), events, times, period)
    ensures var a := NewLink(id, nCooks);
      var l, d := Run(a, events).value, DiaryOf(start, a, events, times);
      && Recorded(l, d, nCooks)
      && Kept(start, l, d, LastActive(start, a, events, times), LastCheck(start, events, times), Now(start, times), period)
  {
    hide Recorded, Kept, Next, Enabled, NewLink, Entry, NewDiary;
    if events == [] {
      NewDiaryKept(id, nCooks, start, period);
    } else {
      var a, n := NewLink(id, nCooks), |events| - 1;
      var front, past, e, t := events[..n], times[..n], events[n], times[n];
      DiaryKept(id, nCooks, start, front, past, period);
      var l, d := Run(a, front).value, DiaryOf(start, a, front, past);
      var active, check, now := LastActive(start, a, front, past), LastCheck(start, front, past), Now(start, past);
      EventRecorded(l, e, t, d, nCooks);
      if Checks(e) {
        CheckKept(start, l, e, t, d, nCooks, active, check, now, period);
      } else if e.Poll? {
        PollKept(start, l, t, d, active, check, now, period);
      } else if Admits(e) {
        AdmitKept(start, l, e, t, d, nCooks, active, check, now, period);
      } else {
        OtherKept(start, l, e, t, d, nCooks, active, check, now, period);
      }
    }
  }

  /**
   The class and the machine agree. In any run by the clock that has come to the end of a turn,
   the turns of the diary keep time; their time of activity is the machine's; the loop fed with them
   goes on if the machine does, and otherwise ends with the last of them, for the same reason; and what it
   says is what the machine's main thread has said.
   */
  lemma LoopIsMainThread(id: nat, nCooks: nat, start: nat, events: seq<Event>, times: seq<nat>, period: nat)
    requires nCooks > 0 && |times| == |events| && Run(NewLink(id, nCooks), events).Some?
    requires Timely(start, NewLink(id, nCooks), events, times, period)
    requires !InTurn(Run(NewLink(id, nCooks), events).value.k.worker)
    ensures var a := NewLink(id, nCooks);
      var l, d := Run(a, events).value, DiaryOf(start, a, events, times);
      && Monotone(start, d.turns) && Periodic(start, d.turns, period)
      && ActiveAfter(start, d.turns, |d.turns|) == LastActive(start, a, events, times)
      && Concluded(start, d.turns, l.k.exit)
      && d.said == Spoken(nCooks, d.turns) + if l.k.worker.Finished? then [ShutdownPkt] else []
  {
    DiaryKept(id, nCooks, start, events, times, period);
    hide DiaryOf, Run, NewLink, Timely, LastActive, LastCheck;
    hide Spoken, Answer, Monotone, Periodic, ActiveAfter, Concluded;
  }
}
