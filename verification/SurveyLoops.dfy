/**
 The loops of getStatus and shutdown against the system: whatever the kitchens do meanwhile, a
 survey leaves in each handle what the class's loop leaves there when its queue yields the same
 packets, and a shutdown leaves what the class's loop leaves.
 */
module SurveyLoops {
  import opened Menu
  import opened Kitchen
  import opened Protocol
  import opened Pizzeria
  import opened PizzeriaSafety
  import opened PizzeriaTheorems
  import opened Reception
  import opened Surveys

  // -------------------------------------------------------------------- getStatus

  /** The packets that the steps of a survey take from kitchen i. */
  ghost function Taken(s: System, steps: seq<Step>, i: nat): seq<Packet>
    requires SurveyRun(s, steps)
  {
    if steps == [] then []
    else
      var front := steps[..|steps| - 1];
      var l := LinkAt(Story(s, front).value, i);
      Taken(s, front, i) + if steps[|steps| - 1] == Take(i) && l.results != [] then [l.results[0]] else []
  }

  /** The handle of kitchen i as the survey's loops have left it so far. */
  ghost function SurveyedSoFar(h: Handle, asked: bool, taken: seq<Packet>): Handle {
    Received(if asked then h.(pendingCooks := []) else h, taken)
  }

  /** Whether kitchen i has been asked in this survey. */
  ghost predicate WasAsked(s: System, steps: seq<Step>, i: nat)
    requires SurveyRun(s, steps)
  {
    var desk := Story(s, steps).value.desk;
    LinkAt(s, i).h.alive && !(desk.Asking? && desk.next <= i)
  }

  ghost predicate Follows(s: System, steps: seq<Step>, i: nat)
    requires SurveyRun(s, steps)
  {
    var h, l, taken := LinkAt(s, i).h, LinkAt(Story(s, steps).value, i), Taken(s, steps, i);
    && l.h == SurveyedSoFar(h, WasAsked(s, steps, i), taken)
    && l.log.done == LinkAt(s, i).log.done + DonesIn(taken)
    && (!WasAsked(s, steps, i) ==> taken == [])
    && (WasAsked(s, steps, i) ==> (l.h.alive && l.log.asked <==> !Answers(taken)))
  }

  lemma AnswersMore(taken: seq<Packet>, p: Packet)
    ensures Answers(taken + [p]) <==> Answers(taken) || p.StatusReplyPkt? || p.ShutdownPkt?
  {
    if Answers(taken) {
      var i :| 0 <= i < |taken| && (taken[i].StatusReplyPkt? || taken[i].ShutdownPkt?);
      assert (taken + [p])[i] == taken[i];
    }
    if Answers(taken + [p]) && !p.StatusReplyPkt? && !p.ShutdownPkt? {
      var i :| 0 <= i < |taken + [p]| && ((taken + [p])[i].StatusReplyPkt? || (taken + [p])[i].ShutdownPkt?);
      assert taken[i] == (taken + [p])[i];
    }
    assert (taken + [p])[|taken|] == p;
  }

  lemma ReceivedMore(h: Handle, taken: seq<Packet>, p: Packet)
    ensures Received(h, taken + [p]) == Handled(Received(h, taken), p)
    ensures DonesIn(taken + [p]) == DonesIn(taken) + if p.DonePkt? then [Read(p.slip)] else []
  {
    assert (taken + [p])[..|taken|] == taken;
  }

  /** What each event of a survey does to handle and history. */
  lemma EventOnHandle(l: Link, e: Event)
    requires Enabled(l, e) && (OfKitchen(e) || e.Receive? || e.Ask?)
    ensures var l' := Next(l, e);
      && (OfKitchen(e) ==> l'.h == l.h && l'.log == l.log)
      && (e.Ask? ==> l'.h == l.h.(pendingCooks := []) && l'.log.done == l.log.done && l'.log.asked && l.h.alive)
      && (e.Receive? ==>
            var p := l.results[0];
            && l'.h == Handled(l.h, p) && l.h.alive
            && l'.log.done == l.log.done + (if p.DonePkt? then [Read(p.slip)] else [])
            && (l'.h.alive && l'.log.asked <==> l.log.asked && !p.StatusReplyPkt? && !p.ShutdownPkt?))
  {
    hide Do, Can, Polled, NarrowStock;
  }

  /** A step that does not touch the link. */
  lemma UntouchedFollows(s: System, steps: seq<Step>, i: nat)
    requires SurveyRun(s, steps) && steps != [] && SurveyRun(s, steps[..|steps| - 1])
    requires Follows(s, steps[..|steps| - 1], i)
    requires var before, now := LinkAt(Story(s, steps[..|steps| - 1]).value, i), LinkAt(Story(s, steps).value, i);
      now.h == before.h && now.log == before.log
    requires steps[|steps| - 1] != Take(i) && (WasAsked(s, steps, i) <==> WasAsked(s, steps[..|steps| - 1], i))
    ensures Follows(s, steps, i)
  {
    hide Story, SurveyRun, WasAsked, SurveyedSoFar, Answers, DonesIn, LinkAt;
    assert Taken(s, steps, i) == Taken(s, steps[..|steps| - 1], i);
  }

  lemma AskingFollows(s: System, steps: seq<Step>, i: nat, l: Link)
    requires SurveyRun(s, steps) && steps != [] && SurveyRun(s, steps[..|steps| - 1])
    requires Follows(s, steps[..|steps| - 1], i) && l == LinkAt(Story(s, steps[..|steps| - 1]).value, i)
    requires Enabled(l, Ask) && LinkAt(Story(s, steps).value, i) == Next(l, Ask) && steps[|steps| - 1] == AskNext
    requires WasAsked(s, steps, i) && !WasAsked(s, steps[..|steps| - 1], i)
    ensures Follows(s, steps, i)
  {
    EventOnHandle(l, Ask);
    hide Story, SurveyRun, WasAsked, LinkAt, Next, Enabled;
    assert Taken(s, steps, i) == [];
    NothingAnswered();
  }

  lemma NothingAnswered()
    ensures !Answers([])
  {
  }

  lemma TakingFollows(s: System, steps: seq<Step>, i: nat, l: Link)
    requires SurveyRun(s, steps) && steps != [] && SurveyRun(s, steps[..|steps| - 1])
    requires Follows(s, steps[..|steps| - 1], i) && l == LinkAt(Story(s, steps[..|steps| - 1]).value, i)
    requires Enabled(l, Receive) && LinkAt(Story(s, steps).value, i) == Next(l, Receive) && steps[|steps| - 1] == Take(i)
    requires WasAsked(s, steps, i) && WasAsked(s, steps[..|steps| - 1], i)
    ensures Follows(s, steps, i)
  {
    EventOnHandle(l, Receive);
    SomethingToReceive(l);
    hide Story, SurveyRun, WasAsked, LinkAt, Next, Enabled, Handled, Received, DonesIn, Answers;
    var before, p := Taken(s, steps[..|steps| - 1], i), l.results[0];
    assert Taken(s, steps, i) == before + [p];
    ReceivedMore(LinkAt(s, i).h.(pendingCooks := []), before, p);
    AnswersMore(before, p);
  }

  lemma FollowsAtStart(s: System, i: nat)
    requires SurveyRun(s, []) && s.desk == Asking(0)
    ensures Follows(s, [], i)
  {
    assert LinkAt(s, i).log.done + [] == LinkAt(s, i).log.done;
  }

  /** Which kitchens have been asked changes only with the step that asks. */
  lemma AskedChanges(s: System, steps: seq<Step>, i: nat, e: Option<Event>)
    requires SurveyRun(s, steps) && steps != [] && SurveyRun(s, steps[..|steps| - 1])
    requires var before, now := Story(s, steps[..|steps| - 1]).value, Story(s, steps).value;
      && Open(before.desk) && Open(now.desk)
      && (e == Some(Ask) ==> before.desk == Asking(i) && now.desk == Asking(i + 1))
      && (e != Some(Ask) && before.desk.Asking? && before.desk.next <= i ==>
            now.desk.Asking? && (now.desk.next <= i || !LinkAt(s, i).h.alive))
      && (e == Some(Receive) ==> before.desk.Surveying?) && (before.desk.Surveying? ==> now.desk.Surveying?)
      && (before.desk.Asking? && now.desk.Asking? ==> before.desk.next <= now.desk.next)
    requires e == Some(Ask) || e == Some(Receive) ==> LinkAt(s, i).h.alive
    ensures e == Some(Ask) ==> WasAsked(s, steps, i) && !WasAsked(s, steps[..|steps| - 1], i)
    ensures e != Some(Ask) ==> (WasAsked(s, steps, i) <==> WasAsked(s, steps[..|steps| - 1], i))
    ensures e == Some(Receive) ==> WasAsked(s, steps, i)
  {
    hide Story, SurveyRun, LinkAt;
  }

  lemma NextNeverBack(s: System, a: Step)
    requires Allowed(s, a) && s.desk.Asking? && Perform(s, a).desk.Asking?
    ensures s.desk.next <= Perform(s, a).desk.next
  {
    hide Next, Enabled;
  }

  lemma {:induction false} SurveyFollows(s: System, steps: seq<Step>, i: nat, nCooks: nat)
    requires nCooks > 0 && Arises(s, nCooks) && s.desk == Asking(0) && SurveyRun(s, steps) && i < |s.links|
    ensures Follows(s, steps, i)
    ensures LinkAt(Story(s, steps).value, i).h.alive ==> LinkAt(s, i).h.alive
  {
    if steps == [] {
      FollowsAtStart(s, i);
    } else {
      hide Arises, Allowed, Perform, Follows;
      LastStep(s, steps);
      hide Story, SurveyRun, SystemInv, Touch;
      var n := |steps| - 1;
      var front := steps[..n];
      SurveyFollows(s, front, i, nCooks);
      RunArises(s, front, nCooks);
      var s1 := Story(s, front).value;
      ArisesInv(s1, nCooks);
      StepTouches(s1, steps[n], i);
      if s1.desk.Asking? && Perform(s1, steps[n]).desk.Asking? { NextNeverBack(s1, steps[n]); }
      StepFollows(s, steps, i, Touch(s1, steps[n], i), s1.links[i]);
    }
  }

  lemma StepFollows(s: System, steps: seq<Step>, i: nat, e: Option<Event>, l: Link)
    requires SurveyRun(s, steps) && steps != [] && SurveyRun(s, steps[..|steps| - 1])
    requires Follows(s, steps[..|steps| - 1], i) && l == LinkAt(Story(s, steps[..|steps| - 1]).value, i)
    requires l.h.alive ==> LinkAt(s, i).h.alive
    requires var before, now := Story(s, steps[..|steps| - 1]).value, Story(s, steps).value;
      && Open(before.desk) && Open(now.desk)
      && (e.None? ==> LinkAt(now, i) == l)
      && (e.Some? ==> Enabled(l, e.value) && LinkAt(now, i) == Next(l, e.value))
      && (e == Some(Ask) ==> steps[|steps| - 1] == AskNext && before.desk == Asking(i) && now.desk == Asking(i + 1))
      && (e != Some(Ask) && before.desk.Asking? && before.desk.next <= i ==>
            now.desk.Asking? && (now.desk.next <= i || !l.h.alive))
      && (e.Some? && !e.value.Ask? && !e.value.Receive? ==> OfKitchen(e.value))
      && (e == Some(Receive) ==> steps[|steps| - 1] == Take(i) && before.desk.Surveying?)
      && (before.desk.Surveying? ==> now.desk.Surveying?)
      && (before.desk.Asking? && now.desk.Asking? ==> before.desk.next <= now.desk.next)
    requires e != Some(Receive) ==> steps[|steps| - 1] != Take(i)
    requires var desk := Story(s, steps[..|steps| - 1]).value.desk;
      desk.Asking? && desk.next <= i ==> l.h.alive == LinkAt(s, i).h.alive
    ensures Follows(s, steps, i)
    ensures LinkAt(Story(s, steps).value, i).h.alive ==> LinkAt(s, i).h.alive
  {
    hide Story, SurveyRun, LinkAt, Next, Enabled, Follows, WasAsked, Received, Answers;
    if e.Some? { EventOnHandle(l, e.value); RemainsAliveOnly(l, e.value); }
    AskedChanges(s, steps, i, e);
    match e {
      case None => UntouchedFollows(s, steps, i);
      case Some(Ask) => AskingFollows(s, steps, i, l);
      case Some(Receive) => TakingFollows(s, steps, i, l);
      case _ => UntouchedFollows(s, steps, i);
    }
  }

  lemma RemainsAliveOnly(l: Link, e: Event)
    requires Enabled(l, e)
    ensures Next(l, e).h.alive ==> l.h.alive
  {
    hide Do, Can, Polled, NarrowStock;
  }

  /**
   When getStatus returns, each handle is what the loops of getStatus make of it: a living kitchen's
   entries dropped, and then every packet its queue has yielded taken in turn, its answer or
   its goodbye among them; and the callback has been called for each Done among them.
   */
  lemma SurveyIsGetStatus(s: System, steps: seq<Step>, i: nat, nCooks: nat)
    requires nCooks > 0 && Arises(s, nCooks) && s.desk == Asking(0) && SurveyRun(s, steps) && i < |s.links|
    requires var t := Story(s, steps).value; t.desk.Surveying? && Allowed(t, EndSurvey)
    ensures var t, taken := Story(s, steps).value, Taken(s, steps, i);
      && |t.links| == |s.links|
      && t.links[i].log.done == s.links[i].log.done + DonesIn(taken)
      && (if s.links[i].h.alive
          then Answers(taken) && t.links[i].h == Received(Questioned(Handles(s.links))[i], taken)
          else taken == [] && t.links[i].h == s.links[i].h)
  {
    hide Arises, Perform, Story, DonesIn, Answers;
    RunArises(s, steps, nCooks);
    SurveyFollows(s, steps, i, nCooks);
  }

  // --------------------------------------------------------------------- shutdown

  /** A run from the start of shutdown on that has not left it. */
  ghost predicate ClosingRun(s: System, steps: seq<Step>) {
    && Story(s, steps).Some? && Story(s, steps).value.desk.Closing?
    && (steps == [] || ClosingRun(s, steps[..|steps| - 1]))
  }

  /** Kitchen i has been dealt with, or not yet; the one whose turn it is may have been. */
  ghost predicate Closes(h: Handle, l: Link, i: nat, next: nat) {
    && (l.log.quit ==> h.alive)
    && (if i < next || (i == next && h.alive && !l.h.alive)
        then l.h == h.(alive := false) && (h.alive ==> l.log.quit && l.k.worker.Finished?)
        else l.h == h)
  }

  lemma ClosingStep(s: System, a: Step, i: nat, h: Handle)
    requires Allowed(s, a) && s.desk.Closing? && Perform(s, a).desk.Closing? && i < |s.links|
    requires Closes(h, s.links[i], i, s.desk.next)
    ensures var s' := Perform(s, a); |s'.links| == |s.links| && Closes(h, s'.links[i], i, s'.desk.next)
  {
    hide Next, Enabled;
    if a.KitchenStep? {
      KitchenLeavesDeskAlone(s.links[a.i], a.e);
      if s.links[a.i].k.worker.Finished? { FinishedStays(s.links[a.i], a.e); }
    }
  }

  lemma FinishedStays(l: Link, e: Event)
    requires Enabled(l, e) && l.k.worker.Finished?
    ensures Next(l, e).k.worker.Finished?
  {
    hide AllAvailable, Needs, Without, Slumber, NarrowStock, Handled;
  }

  lemma {:induction false} ClosingFollows(s: System, steps: seq<Step>, i: nat)
    requires ClosingRun(s, steps) && s.desk == Closing(0) && i < |s.links| && !s.links[i].log.quit
    ensures var t := Story(s, steps).value;
      |t.links| == |s.links| && Closes(s.links[i].h, t.links[i], i, t.desk.next)
  {
    hide Allowed, Perform, Closes;
    if steps == [] {
      NothingClosed(s.links[i], i);
    } else {
      var n := |steps| - 1;
      ClosingFollows(s, steps[..n], i);
      ClosingStep(Story(s, steps[..n]).value, steps[n], i, s.links[i].h);
    }
  }

  lemma NothingClosed(l: Link, i: nat)
    requires !l.log.quit
    ensures Closes(l.h, l, i, 0)
  {
  }

  /**
   When shutdown returns, the handles are what its loop makes of them; exactly the kitchens that were
   alive have been told to close, and they have.
   */
  lemma ClosingIsShutdown(before: System, steps: seq<Step>, nCooks: nat)
    requires nCooks > 0 && Arises(before, nCooks) && Allowed(before, StartClosing)
    requires var s := Perform(before, StartClosing);
      ClosingRun(s, steps) && Allowed(Story(s, steps).value, EndClosing)
    ensures var s := Perform(before, StartClosing);
      var t := Story(s, steps).value;
      && Handles(t.links) == Reception.Closed(Handles(before.links))
      && forall i :: 0 <= i < |s.links| ==>
           (t.links[i].log.quit <==> s.links[i].h.alive) && (t.links[i].log.quit ==> t.links[i].k.worker.Finished?)
  {
    var s := Perform(before, StartClosing);
    var t := Story(s, steps).value;
    SameNumber(s, steps);
    forall i | 0 <= i < |s.links|
      ensures t.links[i].h == s.links[i].h.(alive := false)
      ensures (t.links[i].log.quit <==> s.links[i].h.alive) && (t.links[i].log.quit ==> t.links[i].k.worker.Finished?)
    {
      NotYetQuit(before, i, nCooks);
      ClosingFollows(s, steps, i);
    }
    hide Story, ClosingRun, Arises;
    assert Handles(t.links) == Reception.Closed(Handles(before.links));
  }

  lemma NotYetQuit(s: System, i: nat, nCooks: nat)
    requires nCooks > 0 && Arises(s, nCooks) && s.desk.AtRest? && i < |s.links|
    ensures !s.links[i].log.quit
  {
    hide Arises, LinksInv, Ascending, Routed, BookKept;
    ArisesInv(s, nCooks);
    assert AtDesk(s.desk, i, s.links[i]);
  }

  lemma {:induction false} SameNumber(s: System, steps: seq<Step>)
    requires ClosingRun(s, steps)
    ensures |Story(s, steps).value.links| == |s.links|
  {
    if steps != [] {
      hide Allowed, Perform;
      SameNumber(s, steps[..|steps| - 1]);
      StepKeepsNumber(Story(s, steps[..|steps| - 1]).value, steps[|steps| - 1]);
    }
  }

  lemma StepKeepsNumber(s: System, a: Step)
    requires Allowed(s, a) && s.desk.Closing?
    ensures |Perform(s, a).links| == |s.links|
  {
    hide Next, Enabled;
  }
}
