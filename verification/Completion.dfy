/**
 That the reception is never stuck. Whatever it is doing and whatever the kitchens are doing, some
 sequence of steps takes it on to the end of that: dispatch, survey or shutdown.
 */
module Completion {
  import opened Menu
  import opened Protocol
  import opened Pizzeria
  import opened PizzeriaSafety
  import opened PizzeriaTheorems
  import opened Reception
  import opened Refinement
  import opened Turns
  import opened Surveys
  import opened SurveyLoops

  /** The steps of kitchens, and those with which the reception goes on with what it is doing. */
  predicate GoesOn(a: Step) {
    a.KitchenStep? || a.Take? || a.StartDispatch? || a.DispatchOne? || a.EndDispatch?
    || a.AskNext? || a.EndSurvey? || a.CloseNext? || a.EndClosing?
  }

  /** The system gets from one state to the other by such steps. */
  ghost predicate Onward(s: System, t: System) {
    exists steps :: Story(s, steps) == Some(t) && forall i :: 0 <= i < |steps| ==> GoesOn(steps[i])
  }

  lemma StandStill(s: System)
    ensures Onward(s, s)
  {
    assert Story(s, []) == Some(s);
  }

  lemma StepOn(s: System, t: System, a: Step, nCooks: nat) returns (t': System)
    requires Onward(s, t) && Arises(t, nCooks) && Allowed(t, a) && GoesOn(a)
    ensures t' == Perform(t, a) && Onward(s, t') && Arises(t', nCooks)
  {
    hide Allowed, Perform, GoesOn, Arises;
    t' := Perform(t, a);
    var steps :| Story(s, steps) == Some(t) && forall i :: 0 <= i < |steps| ==> GoesOn(steps[i]);
    var more := steps + [a];
    assert more[..|steps|] == steps;
    assert Story(s, more) == Some(t');
    StepArises(t, a, nCooks);
  }

  /** What a kitchen can do on its own it can do in the system. */
  lemma {:induction false} LetRun(s: System, t: System, i: nat, events: seq<Event>, nCooks: nat)
    requires Onward(s, t) && Arises(t, nCooks) && i < |t.links| && Run(t.links[i], events).Some?
    requires forall j :: 0 <= j < |events| ==> OfKitchen(events[j])
    ensures var t' := After(t, i, Run(t.links[i], events).value); Onward(s, t') && Arises(t', nCooks)
  {
    hide Onward, Arises, Enabled, Next, OfKitchen;
    if events == [] {
      assert After(t, i, t.links[i]) == t;
    } else {
      var n := |events| - 1;
      LetRun(s, t, i, events[..n], nCooks);
      var t1 := After(t, i, Run(t.links[i], events[..n]).value);
      var t2 := StepOn(s, t1, KitchenStep(i, events[n]), nCooks);
      assert t2 == After(t, i, Run(t.links[i], events).value);
    }
  }

  lemma LetLead(s: System, t: System, i: nat, l: Link, nCooks: nat)
    requires Onward(s, t) && Arises(t, nCooks) && i < |t.links| && Leads(t.links[i], l)
    ensures Onward(s, After(t, i, l)) && Arises(After(t, i, l), nCooks)
  {
    hide Onward, Arises, Run;
    var events :| Run(t.links[i], events) == Some(l) && forall j :: 0 <= j < |events| ==> OfKitchen(events[j]);
    LetRun(s, t, i, events, nCooks);
  }

  lemma InLinksInv(t: System, i: nat, nCooks: nat)
    requires nCooks > 0 && Arises(t, nCooks) && i < |t.links|
    ensures Reachable(t.links[i], nCooks) && AtDesk(t.desk, i, t.links[i])
  {
    hide Arises, Reachable, Ascending, Routed, BookKept;
    ArisesInv(t, nCooks);
    InLinks(t, i, nCooks);
  }

  // ---------------------------------------------------------------------- surveys

  /** The reception takes all that is in one result queue. */
  lemma {:induction false} TakeAll(s: System, t: System, i: nat, n: nat, nCooks: nat) returns (t': System)
    requires nCooks > 0 && Onward(s, t) && Arises(t, nCooks) && t.desk.Surveying? && i < |t.links|
    requires t.links[i].h.alive && !t.links[i].log.quit && n <= |t.links[i].results|
    ensures Onward(s, t') && Arises(t', nCooks) && t'.desk == t.desk
    ensures Run(t.links[i], Times(n, Receive)).Some?
    ensures t'.links == t.links[i := Run(t.links[i], Times(n, Receive)).value]
  {
    hide Onward, Arises, Next, Enabled, Reachable, Received, DonesIn;
    InLinksInv(t, i, nCooks);
    DrainIsReceived(t.links[i], nCooks, n);
    if n == 0 {
      assert Times(0, Receive) == [];
      t' := t;
    } else {
      t' := TakeAll(s, t, i, n - 1, nCooks);
      TimesMore(n, Receive);
      t' := StepOn(s, t', Take(i), nCooks);
    }
  }

  /** Kitchen i answers, or is found to have closed. */
  lemma OneAnswers(s: System, t: System, i: nat, nCooks: nat) returns (t': System)
    requires nCooks > 0 && Onward(s, t) && Arises(t, nCooks) && t.desk.Surveying? && i < |t.links|
    ensures Onward(s, t') && Arises(t', nCooks) && t'.desk == t.desk && |t'.links| == |t.links|
    ensures forall j :: 0 <= j < |t.links| && j != i ==> t'.links[j] == t.links[j]
    ensures t'.links[i].h.alive ==> !t'.links[i].log.asked
  {
    hide Onward, Arises, Reachable, Leads, CaughtUp, Received, DonesIn;
    if !t.links[i].h.alive { return t; }
    InLinksInv(t, i, nCooks);
    var l := WorkOff(t.links[i], nCooks);
    LetLead(s, t, i, l, nCooks);
    t' := After(t, i, l);
    DrainIsReceived(l, nCooks, |l.results|);
    t' := TakeAll(s, t', i, |l.results|, nCooks);
    InLinksInv(t', i, nCooks);
    AllHeard(l, t'.links[i], nCooks);
  }

  lemma AllHeard(l: Link, l': Link, nCooks: nat)
    requires nCooks > 0 && (CaughtUp(l) || l.k.worker.Finished?) && l'.k == l.k && l'.orders == l.orders
    requires Reachable(l', nCooks) && l'.results == []
    ensures l'.h.alive ==> !l'.log.asked
  {
    hide Reachable;
    HeardOut(l', nCooks);
  }

  lemma {:induction false} AllAnswer(s: System, t: System, n: nat, nCooks: nat) returns (t': System)
    requires nCooks > 0 && Onward(s, t) && Arises(t, nCooks) && t.desk.Surveying? && n <= |t.links|
    ensures Onward(s, t') && Arises(t', nCooks) && t'.desk == t.desk && |t'.links| == |t.links|
    ensures forall i :: 0 <= i < n && t'.links[i].h.alive ==> !t'.links[i].log.asked
  {
    hide Onward, Arises;
    t' := t;
    if n > 0 {
      t' := AllAnswer(s, t, n - 1, nCooks);
      t' := OneAnswers(s, t', n - 1, nCooks);
    }
  }

  lemma {:induction false} AskRest(s: System, t: System, nCooks: nat) returns (t': System)
    requires nCooks > 0 && Onward(s, t) && Arises(t, nCooks) && t.desk.Asking?
    ensures Onward(s, t') && Arises(t', nCooks) && t'.desk.Surveying?
    decreases |t.links| - t.desk.next
  {
    hide Onward, Arises, Asked;
    if t.desk.next >= |t.links| {
      t' := StepOn(s, t, EndSurvey, nCooks);
    } else {
      t' := StepOn(s, t, AskNext, nCooks);
      t' := AskRest(s, t', nCooks);
    }
  }

  /** Everyone can be asked, and everyone who is asked can answer. */
  lemma AnswersCanCome(s: System, nCooks: nat) returns (t: System)
    requires nCooks > 0 && Arises(s, nCooks) && (s.desk.Asking? || s.desk.Surveying?)
    ensures Onward(s, t) && Arises(t, nCooks) && t.desk.Surveying? && Allowed(t, EndSurvey)
  {
    hide Onward, Arises;
    StandStill(s);
    t := s;
    if t.desk.Asking? { t := AskRest(s, t, nCooks); }
    t := AllAnswer(s, t, |t.links|, nCooks);
  }

  /** No step that goes on with something begins a survey. */
  lemma NoneBegins(s: System, a: Step)
    requires Allowed(s, a) && GoesOn(a) && Open(Perform(s, a).desk)
    ensures Open(s.desk)
  {
    hide Next, Enabled, Sent, Swept, Asked;
  }

  lemma {:induction false} OpenThroughout(s: System, steps: seq<Step>)
    requires Story(s, steps).Some? && Open(Story(s, steps).value.desk)
    requires forall i :: 0 <= i < |steps| ==> GoesOn(steps[i])
    ensures SurveyRun(s, steps)
  {
    hide Allowed, Perform, Open, GoesOn;
    if steps != [] {
      var n := |steps| - 1;
      NoneBegins(Story(s, steps[..n]).value, steps[n]);
      OpenThroughout(s, steps[..n]);
    }
  }

  /**
   From every state in which getStatus may start, there is a run in which each kitchen's queue yields its
   answer or its goodbye; so the loop of getStatus has something to wait for.
   */
  lemma EveryoneCanAnswer(s: System, nCooks: nat) returns (steps: seq<Step>)
    requires nCooks > 0 && Arises(s, nCooks) && s.desk == Asking(0)
    ensures SurveyRun(s, steps)
    ensures var t := Story(s, steps).value; t.desk.Surveying? && Allowed(t, EndSurvey)
    ensures forall i :: 0 <= i < |s.links| && s.links[i].h.alive ==> Answers(Taken(s, steps, i))
  {
    hide Arises, Allowed, Perform, Answers, GoesOn;
    var t := AnswersCanCome(s, nCooks);
    steps :| Story(s, steps) == Some(t) && forall i :: 0 <= i < |steps| ==> GoesOn(steps[i]);
    OpenThroughout(s, steps);
    forall i | 0 <= i < |s.links| && s.links[i].h.alive ensures Answers(Taken(s, steps, i)) {
      SurveyIsGetStatus(s, steps, i, nCooks);
    }
  }

  // --------------------------------------------------------------------- shutdown

  /** The kitchen whose turn it is closes. */
  lemma OneCloses(s: System, t: System, nCooks: nat) returns (t': System)
    requires nCooks > 0 && Onward(s, t) && Arises(t, nCooks) && t.desk.Closing? && t.desk.next < |t.links|
    ensures Onward(s, t') && Arises(t', nCooks) && t'.desk == Closing(t.desk.next + 1) && |t'.links| == |t.links|
  {
    hide Onward, Arises, Reachable, Leads;
    var i := t.desk.next;
    t' := t;
    if t'.links[i].h.alive && !t'.links[i].log.quit {
      t' := StepOn(s, t', CloseNext, nCooks);
    }
    if t'.links[i].h.alive {
      InLinksInv(t', i, nCooks);
      var l := ObeyShutdown(t'.links[i], nCooks);
      LetLead(s, t', i, l, nCooks);
      t' := StepOn(s, After(t', i, l), CloseNext, nCooks);
    }
    t' := StepOn(s, t', CloseNext, nCooks);
  }

  lemma {:induction false} CloseRest(s: System, t: System, nCooks: nat) returns (t': System)
    requires nCooks > 0 && Onward(s, t) && Arises(t, nCooks) && t.desk.Closing?
    ensures Onward(s, t') && Arises(t', nCooks) && t'.desk.Closed?
    decreases |t.links| - t.desk.next
  {
    hide Onward, Arises;
    if t.desk.next >= |t.links| {
      t' := StepOn(s, t, EndClosing, nCooks);
    } else {
      t' := OneCloses(s, t, nCooks);
      t' := CloseRest(s, t', nCooks);
    }
  }

  // -------------------------------------------------------------------- dispatch

  lemma {:induction false} DispatchRest(s: System, t: System, nCooks: nat) returns (t': System)
    requires Onward(s, t) && Arises(t, nCooks) && t.desk.Dispatching?
    ensures Onward(s, t') && Arises(t', nCooks) && t'.desk.AtRest?
    decreases |t.desk.todo|
  {
    hide Onward, Arises, Sent;
    if t.desk.todo == [] {
      t' := StepOn(s, t, EndDispatch, nCooks);
    } else {
      t' := StepOn(s, t, DispatchOne, nCooks);
      t' := DispatchRest(s, t', nCooks);
    }
  }

  /**
   From every state that arises, kitchens and reception can go on until the reception has finished what
   it is doing: it is at rest again, or it has shut down.
   */
  lemma ReceptionIsNeverStuck(s: System, nCooks: nat) returns (t: System)
    requires nCooks > 0 && Arises(s, nCooks)
    ensures Onward(s, t) && Arises(t, nCooks)
    ensures if s.desk.Closing? || s.desk.Closed? then t.desk.Closed? else t.desk.AtRest?
  {
    hide Onward, Arises, Swept;
    StandStill(s);
    match s.desk
    case AtRest => t := s;
    case Closed => t := s;
    case Closing(_) => t := CloseRest(s, s, nCooks);
    case Dispatching(_) => t := DispatchRest(s, s, nCooks);
    case Updating(_) =>
      t := StepOn(s, s, StartDispatch, nCooks);
      t := DispatchRest(s, t, nCooks);
    case _ =>
      t := AnswersCanCome(s, nCooks);
      t := StepOn(s, t, EndSurvey, nCooks);
  }
}
