// The course of a leased request, over whole runs.

module CreditCourse {
  import opened Prelude
  import opened Credits
  import opened CreditRuns
  import opened CreditBodies
  import opened CreditExits
  import opened CreditEvents
  import opened CreditReturns
  import opened CreditStart

  // ---------------------------------------------------------------- how it ends

  /** The step of a run at which the dispatcher turned to this exit. */
  predicate TurnedAt(states: seq<State>, actions: seq<Action>, j: nat, exit: Exit)
    requires |states| == |actions| + 1 && j < |actions|
  {
    Way(states[j].pc).None? && Turns(states[j], actions[j]) == Some(exit)
  }

  /** A run is on its way to an exit exactly if one of its steps turned to it, and no step turns to another one then. */
  lemma {:induction false} ExitHasItsCause(states: seq<State>, actions: seq<Action>, k: nat, exit: Exit)
    requires IsRun(states, actions) && k < |states|
    ensures GoingOn(states[k].pc) && Watches(states[k])
    ensures Way(states[k].pc) == Some(exit) <==> exists j: nat :: j < k && TurnedAt(states, actions, j, exit)
  {
    hide Step, Turns;
    if k > 0 {
      ExitHasItsCause(states, actions, k - 1, exit);
      assert Leads(states, actions, k - 1);
      TurnsExactly(states[k - 1], actions[k - 1]);
      if Way(states[k].pc) == Some(exit) && Way(states[k - 1].pc).None? { assert TurnedAt(states, actions, k - 1, exit); }
      if j: nat :| j < k && TurnedAt(states, actions, j, exit) && j < k - 1 { assert Way(states[k - 1].pc) == Some(exit); }
    }
  }

  /** Whenever the dispatcher waits, it waits for the next event and for a running application alike. */
  lemma WaitsForBoth(states: seq<State>, actions: seq<Action>, k: nat)
    requires IsRun(states, actions) && k < |states|
    ensures Watches(states[k])
  {
    ExitHasItsCause(states, actions, k, Raised);
  }

  /** An application that raised is never taken for one that is done: whoever meets its failure ends so. */
  lemma FailureIsRaised(states: seq<State>, actions: seq<Action>, j: nat, k: nat)
    requires IsRun(states, actions) && j < k < |states| && actions[j].Dispatcher? && MeetsFailure(states[j], actions[j].choice)
    ensures Way(states[k].pc) == Some(Raised)
  {
    ExitHasItsCause(states, actions, k, Raised);
    assert TurnedAt(states, actions, j, Raised);
  }

  /** A run that completes did so with the upload at its end and nothing to stop it. */
  lemma CompletedMeansDone(states: seq<State>, actions: seq<Action>, k: nat)
    requires IsRun(states, actions) && k < |states| && Way(states[k].pc) == Some(Completed)
    ensures exists j: nat :: j < k && actions[j].Dispatcher? && AllDone(states[j])
  {
    ExitHasItsCause(states, actions, k, Completed);
    var j: nat :| j < k && TurnedAt(states, actions, j, Completed);
    assert AllDone(states[j]);
  }

  // ---------------------------------------------------------------- the events it handles

  /** The events that arrived in the first k steps, in order. */
  function Arrived(states: seq<State>, actions: seq<Action>, k: nat): seq<Event>
    requires |states| == |actions| + 1 && k < |states|
  {
    if k == 0 then [] else Arrived(states, actions, k - 1) + Comes(states[k - 1], actions[k - 1])
  }

  /** The events the dispatcher handled in them. */
  function HandledEvents(states: seq<State>, actions: seq<Action>, k: nat): seq<Event>
    requires |states| == |actions| + 1 && k < |states|
  {
    if k == 0 then [] else HandledEvents(states, actions, k - 1) + Handled(states[k - 1], actions[k - 1])
  }

  /** Until something stops the request or it turns to an exit: what arrived was handled, is in hand, or waits, in order. */
  lemma {:induction false} EventsAreHandledInOrder(states: seq<State>, actions: seq<Action>, k: nat)
    requires IsRun(states, actions) && k < |states| && states[k].terminal.None? && Way(states[k].pc).None?
    ensures !Collecting(states[k].pc)
    ensures Arrived(states, actions, k) == HandledEvents(states, actions, k) + (Hand(states[k].pc) + Next(states[k]))
  {
    hide Step, Handled, Comes, Hand, Next, Cause;
    if k == 0 { StartTakes(); }
    else {
      var s, a := states[k - 1], actions[k - 1];
      assert Leads(states, actions, k - 1);
      ExitHasItsCause(states, actions, k - 1, Raised);
      TurnsExactly(s, a);
      StopsForFirstCause(s, a);
      EventsAreHandledInOrder(states, actions, k - 1);
      StepTakes(s, a);
      var h := HandledEvents(states, actions, k - 1);
      var p, q := Hand(s.pc) + Next(s), Hand(states[k].pc) + Next(states[k]);
      assert (h + p) + Comes(s, a) == h + (p + Comes(s, a));
      assert h + (Handled(s, a) + q) == (h + Handled(s, a)) + q;
    }
  }

  lemma StartTakes()
    ensures Hand(Initial.pc) + Next(Initial) == [] && !Collecting(Initial.pc)
  {}

  // ---------------------------------------------------------------- the application and the credit

  /** A run in which the metadata came goes on to the application: it runs or has finished, or only the return of the metadata's credit is awaited. */
  lemma {:induction false} MetadataStartsTheApplication(states: seq<State>, actions: seq<Action>, k: nat)
    requires IsRun(states, actions) && k < |states| && states[k].metadata && Way(states[k].pc).None?
    ensures !states[k].app.NotStarted? || states[k].pc.StartAck?
  {
    hide Step, StartsApp, Turns;
    if k > 0 {
      var s, a := states[k - 1], actions[k - 1];
      assert Leads(states, actions, k - 1);
      ExitHasItsCause(states, actions, k - 1, Raised);
      TurnsExactly(s, a);
      StartsExactly(s, a);
      if s.metadata {
        MetadataStartsTheApplication(states, actions, k - 1);
        if s.app.NotStarted? && !StartsApp(s, a) { StaysAtStart(s, a); }
      } else if !StartsApp(s, a) { BeginsOrWaits(s, a); }
    }
  }

  /** Once anything but a reset has stopped the request, no return is started any more. */
  lemma StoppedReturnsNothing(states: seq<State>, actions: seq<Action>, k: nat)
    requires IsRun(states, actions) && k < |actions|
    requires states[k].terminal == Some(ByConnection) || states[k].terminal == Some(ByShutdown)
    requires var a := actions[k]; !a.AckAccepted? && !a.AckFlushed? && !a.AckRefused?
    ensures forall x :: x in states[k + 1].acks ==> x in states[k].acks
  {
    RunKeepsInv(states, actions, k);
    InvGives(states[k]);
    assert Leads(states, actions, k);
    hide Inv, Starting, Drops, Step, OnePlace;
    ReturnsAndDropsExactly(states[k], actions[k]);
    NoneStarts(states[k], actions[k]);
  }

  lemma InvGives(s: State)
    requires Inv(s)
    ensures OnePlace(s) && (s.pc.ReturnOwned? ==> s.terminal == Some(ByReset))
  {
    hide Ordered, Ends, Losses, OnePlace, InDrain, Left;
  }

  lemma NoneStarts(s: State, a: Action)
    requires s.terminal == Some(ByConnection) || s.terminal == Some(ByShutdown)
    requires !s.pc.ReturnOwned?
    ensures Starting(s, a).None?
  {}
}
