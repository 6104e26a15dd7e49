/**
 Whole surveys of the system: what the reception ends up with was true of each kitchen
 at some moment since it was asked.
 */
module Surveys {
  import opened Menu
  import opened Kitchen
  import opened Protocol
  import opened Endings
  import opened Pizzeria
  import opened PizzeriaSafety
  import opened PizzeriaTheorems
  import opened Refinement
  import opened Snapshots

  predicate Open(desk: Desk) {
    desk.Asking? || desk.Surveying?
  }

  /** A run from the start of getStatus on that has not left it. */
  ghost predicate SurveyRun(s: System, steps: seq<Step>) {
    && Story(s, steps).Some? && Open(Story(s, steps).value.desk)
    && (steps == [] || SurveyRun(s, steps[..|steps| - 1]))
  }

  /** What a step of the system is for one kitchen's link, if anything. */
  ghost function Touch(s: System, a: Step, i: nat): Option<Event> {
    match a
    case KitchenStep(j, e) => if j == i then Some(e) else None
    case Take(j) => if j == i then Some(Receive) else None
    case AskNext =>
      if s.desk.Asking? && s.desk.next == i && i < |s.links| && s.links[i].h.alive then Some(Ask) else None
    case _ => None
  }

  /** During a survey a step leaves a link alone or is one event of it. */
  lemma StepTouches(s: System, a: Step, i: nat)
    requires SystemInv(s) && Allowed(s, a) && Open(s.desk) && Open(Perform(s, a).desk) && i < |s.links|
    ensures var s', e := Perform(s, a), Touch(s, a, i);
      && |s'.links| == |s.links| && s'.nCooks == s.nCooks
      && (e.None? ==> s'.links[i] == s.links[i])
      && (e.Some? ==> Enabled(s.links[i], e.value) && s'.links[i] == Next(s.links[i], e.value))
      && (e == Some(Ask) ==> a == AskNext && s.desk == Asking(i) && s'.desk == Asking(i + 1))
      && (e != Some(Ask) && s.desk.Asking? && s.desk.next <= i ==>
            s'.desk.Asking? && (s'.desk.next <= i || !s.links[i].h.alive))
      && (e.Some? && !e.value.Ask? && !e.value.Receive? ==> OfKitchen(e.value))
      && (e == Some(Receive) ==> a == Take(i) && s.desk.Surveying?)
      && (s.desk.Surveying? ==> s'.desk.Surveying?)
  {
    hide Reachable, Ascending, Routed, BookKept, Next;
    assert AtDesk(s.desk, i, s.links[i]);
    if a.AskNext? {
      if Enabled(s.links[i], Ask) { AskIsEvent(s.links[i]); }
    } else {
      hide AtDesk, DeskInv, LinksInv, Enabled, Asked;
    }
  }

  lemma AskIsEvent(l: Link)
    requires Enabled(l, Ask)
    ensures Next(l, Ask) == Asked(l)
  {
  }

  ghost function LinkAt(s: System, i: nat): Link {
    if i < |s.links| then s.links[i] else NewLink(0, s.nCooks)
  }

  /** The states of one kitchen's link along the run, one for each step and one for the start. */
  ghost function Trail(s: System, steps: seq<Step>, i: nat): Path
    requires SurveyRun(s, steps)
    ensures |Trail(s, steps, i)| == |steps| + 1
  {
    if steps == [] then [LinkAt(s, i)]
    else Trail(s, steps[..|steps| - 1], i) + [LinkAt(Story(s, steps).value, i)]
  }

  lemma StartedInside(s: System, steps: seq<Step>)
    requires SurveyRun(s, steps)
    ensures Open(s.desk)
  {
    hide Allowed, Perform;
    if steps != [] { StartedInside(s, steps[..|steps| - 1]); }
  }

  lemma {:induction false} RunArises(s: System, steps: seq<Step>, nCooks: nat)
    requires Arises(s, nCooks) && SurveyRun(s, steps)
    ensures Arises(Story(s, steps).value, nCooks)
    ensures |Story(s, steps).value.links| == |s.links| || nCooks == 0
  {
    hide Arises, Allowed, Perform;
    if steps != [] {
      var n := |steps| - 1;
      RunArises(s, steps[..n], nCooks);
      var s1 := Story(s, steps[..n]).value;
      StepArises(s1, steps[n], nCooks);
      if nCooks > 0 && s1.links != [] {
        ArisesInv(s1, nCooks);
        StepTouches(s1, steps[n], 0);
      } else if nCooks > 0 {
        NoLinksStayNone(s1, steps[n]);
      }
    }
  }

  lemma NoLinksStayNone(s: System, a: Step)
    requires Allowed(s, a) && Open(s.desk) && Open(Perform(s, a).desk) && s.links == []
    ensures Perform(s, a).links == []
  {
  }

  // --------------------------------------------------------------- what is true of it

  /** Step number a of the run is the request to kitchen i. */
  ghost predicate AskedBy(s: System, steps: seq<Step>, i: nat, a: nat) {
    && 0 < a <= |steps| && steps[a - 1] == AskNext
    && Story(s, steps[..a - 1]).Some? && Story(s, steps[..a - 1]).value.desk == Asking(i)
  }

  /** The status of kitchen i comes from the reply taken in step b, and was true between steps a and b. */
  ghost predicate TrueBetween(s: System, steps: seq<Step>, i: nat, a: nat, b: nat, status: KitchenStatus)
    requires SurveyRun(s, steps)
  {
    && AskedBy(s, steps, i, a) && a < b <= |steps| && steps[b - 1] == Take(i)
    && StatusTrue(Trail(s, steps, i)[a..b + 1], status)
  }

  /** Kitchen i was asked in step a and has not answered; what there is of its answer was true since. */
  ghost predicate WaitsSince(s: System, steps: seq<Step>, i: nat, a: nat, l: Link)
    requires SurveyRun(s, steps)
  {
    AskedBy(s, steps, i, a) && Traced(Trail(s, steps, i)[a..], l)
  }

  /** How far the survey is with a living kitchen. */
  ghost predicate Told(s: System, steps: seq<Step>, i: nat)
    requires SurveyRun(s, steps)
  {
    var now := Story(s, steps).value;
    var l := LinkAt(now, i);
    if !l.h.alive || (now.desk.Asking? && now.desk.next <= i) then true
    else if l.log.asked then exists a: nat :: WaitsSince(s, steps, i, a, l)
    else exists a: nat, b: nat :: TrueBetween(s, steps, i, a, b, l.h.status)
  }

  lemma AskedStays(s: System, steps: seq<Step>, i: nat, a: nat)
    requires SurveyRun(s, steps) && steps != [] && AskedBy(s, steps[..|steps| - 1], i, a)
    ensures AskedBy(s, steps, i, a)
    ensures Trail(s, steps, i)[a..] ==
            Trail(s, steps[..|steps| - 1], i)[a..] + [LinkAt(Story(s, steps).value, i)]
  {
    hide Story;
    var front := steps[..|steps| - 1];
    assert front[..a - 1] == steps[..a - 1];
  }

  lemma TruthStays(s: System, steps: seq<Step>, i: nat, a: nat, b: nat, status: KitchenStatus)
    requires SurveyRun(s, steps) && steps != []
    requires SurveyRun(s, steps[..|steps| - 1]) && TrueBetween(s, steps[..|steps| - 1], i, a, b, status)
    ensures TrueBetween(s, steps, i, a, b, status)
  {
    hide Story, StatusTrue, AskedBy;
    AskedStays(s, steps, i, a);
    assert Trail(s, steps, i)[a..b + 1] == Trail(s, steps[..|steps| - 1], i)[a..b + 1];
  }

  lemma ToldWaiting(s: System, steps: seq<Step>, i: nat, a: nat, l: Link)
    requires SurveyRun(s, steps) && l == LinkAt(Story(s, steps).value, i)
    requires l.log.asked && WaitsSince(s, steps, i, a, l)
    ensures Told(s, steps, i)
  {
    hide Story, SurveyRun, WaitsSince;
  }

  lemma ToldAnswered(s: System, steps: seq<Step>, i: nat, a: nat, b: nat, l: Link)
    requires SurveyRun(s, steps) && l == LinkAt(Story(s, steps).value, i)
    requires !l.log.asked && TrueBetween(s, steps, i, a, b, l.h.status)
    ensures Told(s, steps, i)
  {
    hide Story, SurveyRun, TrueBetween;
  }

  lemma StillWaiting(s: System, steps: seq<Step>, i: nat, l: Link) returns (a: nat)
    requires SurveyRun(s, steps) && l == LinkAt(Story(s, steps).value, i) && Told(s, steps, i)
    requires l.h.alive && l.log.asked
    requires !(Story(s, steps).value.desk.Asking? && Story(s, steps).value.desk.next <= i)
    ensures WaitsSince(s, steps, i, a, l)
  {
    hide Story, SurveyRun, WaitsSince;
    a :| WaitsSince(s, steps, i, a, l);
  }

  lemma HasAnswered(s: System, steps: seq<Step>, i: nat, l: Link) returns (a: nat, b: nat)
    requires SurveyRun(s, steps) && l == LinkAt(Story(s, steps).value, i) && Told(s, steps, i)
    requires l.h.alive && !l.log.asked
    requires !(Story(s, steps).value.desk.Asking? && Story(s, steps).value.desk.next <= i)
    ensures TrueBetween(s, steps, i, a, b, l.h.status)
  {
    hide Story, SurveyRun, TrueBetween;
    a, b :| TrueBetween(s, steps, i, a, b, l.h.status);
  }

  lemma AskingBegins(s: System, steps: seq<Step>, i: nat, nCooks: nat, l: Link)
    requires nCooks > 0 && SurveyRun(s, steps) && steps != [] && Reachable(l, nCooks) && Enabled(l, Ask)
    requires steps[|steps| - 1] == AskNext && LinkAt(Story(s, steps).value, i) == Next(l, Ask)
    requires Story(s, steps[..|steps| - 1]).Some? && Story(s, steps[..|steps| - 1]).value.desk == Asking(i)
    ensures Told(s, steps, i)
  {
    AskTraced(l, nCooks);
    AskSets(l);
    assert AskedBy(s, steps, i, |steps|);
    assert Trail(s, steps, i)[|steps|..] == [Next(l, Ask)] by { TrailEnds(s, steps, i); }
    hide Traced, Next, Enabled, Reachable, AskedBy, Story, SurveyRun, Trail, LinkAt;
    ToldWaiting(s, steps, i, |steps|, Next(l, Ask));
  }

  lemma AskSets(l: Link)
    requires Enabled(l, Ask)
    ensures Next(l, Ask).log.asked && Next(l, Ask).h.alive
  {
  }

  lemma InLinks(s: System, i: nat, nCooks: nat)
    requires nCooks > 0 && Arises(s, nCooks) && i < |s.links|
    ensures Reachable(s.links[i], nCooks) && s.nCooks == nCooks
  {
    hide Arises, Reachable, Ascending, DeskInv, Routed, BookKept;
    ArisesInv(s, nCooks);
    SameCooks(s, nCooks);
    assert s.links[i] in s.links;
  }

  lemma SameCooks(s: System, nCooks: nat)
    requires Arises(s, nCooks)
    ensures s.nCooks == nCooks
  {
    hide Story, Allowed, Perform;
    var steps :| Story(Opening(nCooks), steps) == Some(s);
    StoryKeepsCooks(nCooks, steps);
  }

  lemma {:induction false} StoryKeepsCooks(nCooks: nat, steps: seq<Step>)
    requires Story(Opening(nCooks), steps).Some?
    ensures Story(Opening(nCooks), steps).value.nCooks == nCooks
  {
    if steps != [] {
      hide Allowed, Perform, Opening;
      StoryKeepsCooks(nCooks, steps[..|steps| - 1]);
      StepKeepsCooks(Story(Opening(nCooks), steps[..|steps| - 1]).value, steps[|steps| - 1]);
    }
  }

  lemma StepKeepsCooks(s: System, a: Step)
    requires Allowed(s, a)
    ensures Perform(s, a).nCooks == s.nCooks
  {
    hide Next, Enabled, Sent;
    if a.DispatchOne? { SentKeepsCooks(s, s.desk.todo[0]); }
  }

  lemma RemainsAlive(l: Link, e: Event)
    requires Enabled(l, e) && Next(l, e).h.alive
    ensures l.h.alive
    ensures !e.Ask? && (e.Receive? ==> !l.results[0].StatusReplyPkt?) ==> Next(l, e).log.asked == l.log.asked
    ensures e.Receive? && l.results[0].StatusReplyPkt? ==> !Next(l, e).log.asked
    ensures !e.Receive? || !l.results[0].StatusReplyPkt? ==> Next(l, e).h.status == l.h.status
  {
    hide Do, Can, Polled, NarrowStock;
  }

  /** The last step of a survey's run. */
  lemma LastStep(s: System, steps: seq<Step>)
    requires SurveyRun(s, steps) && steps != []
    ensures SurveyRun(s, steps[..|steps| - 1])
    ensures var s1 := Story(s, steps[..|steps| - 1]).value;
      && Open(s1.desk) && Allowed(s1, steps[|steps| - 1])
      && Story(s, steps) == Some(Perform(s1, steps[|steps| - 1])) && Open(Story(s, steps).value.desk)
  {
  }

  /** While a kitchen is being waited for. */
  lemma WaitingGoesOn(s: System, steps: seq<Step>, i: nat, nCooks: nat, a: nat, l: Link, l': Link)
    requires SurveyRun(s, steps) && steps != [] && SurveyRun(s, steps[..|steps| - 1])
    requires WaitsSince(s, steps[..|steps| - 1], i, a, l)
    requires l == LinkAt(Story(s, steps[..|steps| - 1]).value, i) && l' == LinkAt(Story(s, steps).value, i)
    requires nCooks > 0 && Reachable(l, nCooks)
    requires l' == l || exists e ::
      Enabled(l, e) && l' == Next(l, e) && !e.Ask? && (e.Receive? ==> !l.results[0].StatusReplyPkt?)
    ensures WaitsSince(s, steps, i, a, l')
  {
    hide Next, Can, Reachable, Traced, Story, SurveyRun, Trail, LinkAt, AskedBy;
    var path := WaitingPath(s, steps[..|steps| - 1], i, a, l);
    AskedStays(s, steps, i, a);
    if l' == l {
      TraceStays(path, l, l);
    } else {
      var e :| Enabled(l, e) && l' == Next(l, e) && !e.Ask? && (e.Receive? ==> !l.results[0].StatusReplyPkt?);
      EventKeepsTrace(path, l, e, nCooks);
    }
  }

  /** When it answers. */
  lemma WaitingEnds(s: System, steps: seq<Step>, i: nat, a: nat, l: Link)
    requires SurveyRun(s, steps) && steps != [] && SurveyRun(s, steps[..|steps| - 1])
    requires WaitsSince(s, steps[..|steps| - 1], i, a, l) && steps[|steps| - 1] == Take(i)
    requires l == LinkAt(Story(s, steps[..|steps| - 1]).value, i)
    requires Enabled(l, Receive) && l.results[0].StatusReplyPkt? && LinkAt(Story(s, steps).value, i) == Next(l, Receive)
    ensures TrueBetween(s, steps, i, a, |steps|, Next(l, Receive).h.status)
  {
    hide *;
    var path := WaitingPath(s, steps[..|steps| - 1], i, a, l);
    AskedStays(s, steps, i, a);
    var status := Next(l, Receive).h.status;
    ReplyIsTrue(path, l);
    TruthGrows(path, Next(l, Receive), status);
    AnswerIsTrue(s, steps, i, a, path + [Next(l, Receive)], status);
  }

  lemma AnswerIsTrue(s: System, steps: seq<Step>, i: nat, a: nat, path: Path, status: KitchenStatus)
    requires SurveyRun(s, steps) && AskedBy(s, steps, i, a) && a < |steps| && steps[|steps| - 1] == Take(i)
    requires path == Trail(s, steps, i)[a..] && StatusTrue(path, status)
    ensures TrueBetween(s, steps, i, a, |steps|, status)
  {
    hide Story, SurveyRun, StatusTrue, AskedBy, Trail;
    assert Trail(s, steps, i)[a..|steps| + 1] == path;
  }

  lemma WaitingPath(s: System, steps: seq<Step>, i: nat, a: nat, l: Link) returns (path: Path)
    requires SurveyRun(s, steps) && WaitsSince(s, steps, i, a, l) && l == LinkAt(Story(s, steps).value, i)
    ensures a <= |steps| && AskedBy(s, steps, i, a)
    ensures path == Trail(s, steps, i)[a..] && Traced(path, l) && path[|path| - 1] == l
  {
    hide Traced;
    path := Trail(s, steps, i)[a..];
    TrailEnds(s, steps, i);
  }

  lemma SomethingToReceive(l: Link)
    requires Enabled(l, Receive)
    ensures l.results != []
  {
  }

  lemma TrailEnds(s: System, steps: seq<Step>, i: nat)
    requires SurveyRun(s, steps)
    ensures Trail(s, steps, i)[|steps|] == LinkAt(Story(s, steps).value, i)
  {
  }

  lemma TruthGrows(path: Path, l: Link, status: KitchenStatus)
    requires StatusTrue(path, status)
    ensures StatusTrue(path + [l], status)
  {
    hide LoadWas, StockWas, ReportsTrue, NarrowStock;
    ReportsStay(path, l, status.cooks);
    var n :| LoadWas(path, n) && status.load == Narrow(n) as nat;
    LoadStays(path, l, n);
    var stock :| StockWas(path, stock) && status.stock == Some(NarrowStock(stock));
    StockStays(path, l, stock);
  }

  /** Once it has answered, nothing touches its status until it is asked again. */
  lemma AnsweredStays(l: Link, e: Event, nCooks: nat)
    requires nCooks > 0 && Reachable(l, nCooks) && Enabled(l, e) && !e.Ask? && !l.log.asked && Next(l, e).h.alive
    ensures !Next(l, e).log.asked && Next(l, e).h.status == l.h.status
  {
    NoStrayStatus(l, nCooks);
    hide Next, Enabled, Reachable;
    RemainsAlive(l, e);
  }

  /** One more step, seen from a kitchen that is being waited for. */
  lemma WaitingStep(s: System, steps: seq<Step>, i: nat, nCooks: nat, e: Option<Event>, a: nat, l: Link, l': Link)
    requires nCooks > 0 && SurveyRun(s, steps) && steps != [] && SurveyRun(s, steps[..|steps| - 1])
    requires l == LinkAt(Story(s, steps[..|steps| - 1]).value, i) && l' == LinkAt(Story(s, steps).value, i)
    requires Reachable(l, nCooks) && e != Some(Ask) && l.log.asked && l'.h.alive
    requires (e.None? ==> l' == l) && (e.Some? ==> Enabled(l, e.value) && l' == Next(l, e.value))
    requires e == Some(Receive) ==> steps[|steps| - 1] == Take(i)
    requires WaitsSince(s, steps[..|steps| - 1], i, a, l)
    ensures Told(s, steps, i)
  {
    hide Next, Enabled, Reachable, Story, SurveyRun, LinkAt, WaitsSince, TrueBetween, Told;
    if e.Some? { RemainsAlive(l, e.value); }
    if e == Some(Receive) { SomethingToReceive(l); }
    if e == Some(Receive) && l.results[0].StatusReplyPkt? {
      WaitingEnds(s, steps, i, a, l);
      ToldAnswered(s, steps, i, a, |steps|, l');
    } else {
      WaitingGoesOn(s, steps, i, nCooks, a, l, l');
      ToldWaiting(s, steps, i, a, l');
    }
  }

  /** And from one that has answered. */
  lemma AnsweredStep(
    s: System, steps: seq<Step>, i: nat, nCooks: nat, e: Option<Event>, a: nat, b: nat, l: Link, l': Link)
    requires nCooks > 0 && SurveyRun(s, steps) && steps != [] && SurveyRun(s, steps[..|steps| - 1])
    requires l' == LinkAt(Story(s, steps).value, i)
    requires Reachable(l, nCooks) && e != Some(Ask) && !l.log.asked && l'.h.alive
    requires (e.None? ==> l' == l) && (e.Some? ==> Enabled(l, e.value) && l' == Next(l, e.value))
    requires TrueBetween(s, steps[..|steps| - 1], i, a, b, l.h.status)
    ensures Told(s, steps, i)
  {
    hide Next, Enabled, Reachable, Story, SurveyRun, LinkAt, TrueBetween, Told;
    if e.Some? { AnsweredStays(l, e.value, nCooks); }
    TruthStays(s, steps, i, a, b, l.h.status);
    ToldAnswered(s, steps, i, a, b, l');
  }

  /** One more step, whatever it does to kitchen i. */
  lemma TellingGoesOn(s: System, steps: seq<Step>, i: nat, nCooks: nat, e: Option<Event>, l: Link, l': Link)
    requires nCooks > 0 && SurveyRun(s, steps) && steps != [] && SurveyRun(s, steps[..|steps| - 1])
    requires Told(s, steps[..|steps| - 1], i)
    requires l == LinkAt(Story(s, steps[..|steps| - 1]).value, i) && l' == LinkAt(Story(s, steps).value, i)
    requires Reachable(l, nCooks) && e != Some(Ask) && l.h.alive && l'.h.alive
    requires (e.None? ==> l' == l) && (e.Some? ==> Enabled(l, e.value) && l' == Next(l, e.value))
    requires e == Some(Receive) ==> steps[|steps| - 1] == Take(i)
    requires var desk := Story(s, steps[..|steps| - 1]).value.desk; !(desk.Asking? && desk.next <= i)
    ensures Told(s, steps, i)
  {
    hide Next, Enabled, Reachable, Story, SurveyRun, LinkAt, WaitsSince, TrueBetween, Told;
    var front := steps[..|steps| - 1];
    if l.log.asked {
      var a := StillWaiting(s, front, i, l);
      WaitingStep(s, steps, i, nCooks, e, a, l, l');
    } else {
      var a, b := HasAnswered(s, front, i, l);
      AnsweredStep(s, steps, i, nCooks, e, a, b, l, l');
    }
  }

  lemma {:induction false} SurveyTells(s: System, steps: seq<Step>, i: nat, nCooks: nat)
    requires nCooks > 0 && Arises(s, nCooks) && s.desk == Asking(0) && SurveyRun(s, steps) && i < |s.links|
    ensures Told(s, steps, i)
  {
    if steps == [] {
    } else {
      hide Arises, Allowed, Perform, WaitsSince, TrueBetween;
      LastStep(s, steps);
      hide Story, SurveyRun, SystemInv;
      var n := |steps| - 1;
      var front := steps[..n];
      SurveyTells(s, front, i, nCooks);
      RunArises(s, front, nCooks);
      var s1 := Story(s, front).value;
      ArisesInv(s1, nCooks);
      StepTouches(s1, steps[n], i);
      InLinks(s1, i, nCooks);
      var now := Story(s, steps).value;
      if Touch(s1, steps[n], i) == Some(Ask) {
        AskingBegins(s, steps, i, nCooks, s1.links[i]);
      } else if LinkAt(now, i).h.alive && !(s1.desk.Asking? && s1.desk.next <= i) {
        var e := Touch(s1, steps[n], i);
        if e.Some? { RemainsAlive(s1.links[i], e.value); }
        TellingGoesOn(s, steps, i, nCooks, e, s1.links[i], LinkAt(now, i));
      } else {
        hide Touch;
        StillUnasked(s, steps, i);
      }
    }
  }

  lemma StillUnasked(s: System, steps: seq<Step>, i: nat)
    requires SurveyRun(s, steps)
    requires var now := Story(s, steps).value; !LinkAt(now, i).h.alive || (now.desk.Asking? && now.desk.next <= i)
    ensures Told(s, steps, i)
  {
  }

  /**
   When getStatus returns, every kitchen it reports was asked in this survey and has answered, and
   each cook's state, the load and the whole stock shown for it were true at some step between.
   */
  lemma SurveyIsTrue(s: System, steps: seq<Step>, i: nat, nCooks: nat)
    requires nCooks > 0 && Arises(s, nCooks) && s.desk == Asking(0) && SurveyRun(s, steps) && i < |s.links|
    requires var t := Story(s, steps).value; t.desk.Surveying? && Allowed(t, EndSurvey)
    requires LinkAt(Story(s, steps).value, i).h.alive
    ensures exists a: nat, b: nat :: TrueBetween(s, steps, i, a, b, LinkAt(Story(s, steps).value, i).h.status)
    ensures |Story(s, steps).value.links| == |s.links|
  {
    hide Arises, Perform, AskedBy, Traced, TrueBetween, Story;
    RunArises(s, steps, nCooks);
    SurveyTells(s, steps, i, nCooks);
  }
}
