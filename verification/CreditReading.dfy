// What the application of a leased request reads, over whole runs.

module CreditReading {
  import opened Credits
  import opened CreditRuns
  import opened CreditBodies

  /** The credits of the events queued for the application in the first k steps, in order. */
  function Bodies(states: seq<State>, actions: seq<Action>, k: nat): seq<nat>
    requires |states| == |actions| + 1 && k < |states|
  {
    if k == 0 then [] else Bodies(states, actions, k - 1) + Adds(states[k - 1], actions[k - 1])
  }

  /** The credits of the events the application took. */
  function Taken(states: seq<State>, actions: seq<Action>, k: nat): seq<nat>
    requires |states| == |actions| + 1 && k < |states|
  {
    if k == 0 then [] else Taken(states, actions, k - 1) + Takes(states[k - 1], actions[k - 1])
  }

  /** The credits whose return was started for what it took, or for the metadata. */
  function Started(states: seq<State>, actions: seq<Action>, k: nat): seq<Credit>
    requires |states| == |actions| + 1 && k < |states|
  {
    if k == 0 then [] else Started(states, actions, k - 1) + Starts(states[k - 1], actions[k - 1])
  }

  lemma {:induction false} RunIsSteady(states: seq<State>, actions: seq<Action>, k: nat)
    requires IsRun(states, actions) && k < |states|
    ensures Steady(states[k])
    ensures k > 0 ==>
              && (states[k - 1].terminal.Some? ==> states[k].terminal == states[k - 1].terminal)
              && (states[k - 1].app.Finished? ==> states[k].app.Finished?)
  {
    hide Step, Steady;
    if k == 0 { StartIsSteady(); }
    else {
      RunIsSteady(states, actions, k - 1);
      assert Leads(states, actions, k - 1);
      StepSteady(states[k - 1], actions[k - 1]);
    }
  }

  lemma StartIsSteady()
    ensures Steady(Initial)
  {}

  predicate NoDrain(states: seq<State>, k: nat)
    requires k <= |states|
  {
    forall i :: 0 <= i < k ==> !states[i].pc.Drain?
  }

  /** Until queued credit is drained: what was queued for the application is what it took, and then what is queued, in order. */
  lemma {:induction false} BodiesAreReadInOrder(states: seq<State>, actions: seq<Action>, k: nat)
    requires IsRun(states, actions) && k < |states| && NoDrain(states, k)
    ensures Bodies(states, actions, k) == Taken(states, actions, k) + states[k].queue
  {
    hide Step, Adds, Takes;
    if k > 0 {
      var s, a := states[k - 1], actions[k - 1];
      BodiesAreReadInOrder(states, actions, k - 1);
      RunIsSteady(states, actions, k - 1);
      assert Leads(states, actions, k - 1);
      StepQueue(s, a);
      var b, d := Bodies(states, actions, k - 1), Taken(states, actions, k - 1);
      assert b + Adds(s, a) == d + (s.queue + Adds(s, a));
      assert d + (Takes(s, a) + states[k].queue) == (d + Takes(s, a)) + states[k].queue;
    }
  }

  /** Nothing is queued for the application before the metadata is there, so what begins with it comes first. */
  lemma {:induction false} NothingBeforeMetadata(states: seq<State>, actions: seq<Action>, k: nat)
    requires IsRun(states, actions) && k < |states| && !states[k].metadata
    ensures Bodies(states, actions, k) == [] && Taken(states, actions, k) == []
  {
    hide Step;
    if k > 0 {
      RunIsSteady(states, actions, k - 1);
      assert Leads(states, actions, k - 1);
      hide Adds, Takes;
      BeginsMetadata(states[k - 1], actions[k - 1]);
      NothingBeforeMetadata(states, actions, k - 1);
    }
  }

  lemma BeginsMetadata(s: State, a: Action)
    requires Steady(s)
    ensures s.metadata ==> Step(s, a).metadata
    ensures Begins(s, a) ==> Step(s, a).metadata
    ensures !s.metadata && !Begins(s, a) ==> Adds(s, a) == [] && Takes(s, a) == []
  {
    StepSteady(s, a);
    hide Step, Gathered, AckOver, Begins;
  }

  /** While the application has not finished and nothing has stopped the request, nothing was drained. */
  lemma {:induction false} RunningMeansNoDrain(states: seq<State>, actions: seq<Action>, k: nat)
    requires IsRun(states, actions) && k < |states| && !states[k].app.Finished? && states[k].terminal.None?
    ensures NoDrain(states, k + 1)
  {
    RunIsSteady(states, actions, k);
    if k > 0 { RunningMeansNoDrain(states, actions, k - 1); }
  }

  /** While the application reads: it gets every body event in order, and none is lost. */
  lemma RunningReadsEverything(states: seq<State>, actions: seq<Action>, k: nat)
    requires IsRun(states, actions) && k < |states| && !states[k].app.Finished? && states[k].terminal.None?
    ensures Bodies(states, actions, k) == Taken(states, actions, k) + states[k].queue
  {
    RunningMeansNoDrain(states, actions, k);
    BodiesAreReadInOrder(states, actions, k);
  }

  /** And each credit returned or under way is that of an event it took, or of the metadata's bytes. */
  lemma {:induction false} OnlyReadCreditIsReturned(states: seq<State>, actions: seq<Action>, k: nat)
    requires IsRun(states, actions) && k < |states| && !states[k].app.Finished? && states[k].terminal.None?
    ensures Known(states[k], Started(states, actions, k))
  {
    hide Step, Inv, Known, Starts, Steady, OnePlace;
    if k == 0 { StartIsKnown(); }
    else {
      RunIsSteady(states, actions, k);
      RunIsSteady(states, actions, k - 1);
      OnlyReadCreditIsReturned(states, actions, k - 1);
      RunKeepsInv(states, actions, k - 1);
      InvHasOnePlace(states[k - 1]);
      assert Leads(states, actions, k - 1);
      StepIsKnown(states[k - 1], actions[k - 1], Started(states, actions, k - 1));
    }
  }

  lemma StartIsKnown()
    ensures Known(Initial, [])
  {}

  lemma InvHasOnePlace(s: State)
    requires Inv(s)
    ensures OnePlace(s)
  {
    hide Ordered, Ends, Losses, Placed, OnePlace;
  }
}
