// What the flow-control credit of a leased request promises over whole runs.

module CreditRuns {
  import opened Prelude
  import opened Credits
  import opened CreditRefusals

  /** The states a run goes through, from the beginning, each action leading to the next. */
  ghost predicate IsRun(states: seq<State>, actions: seq<Action>) {
    |states| == |actions| + 1 && states[0] == Initial && forall i :: 0 <= i < |actions| ==> Leads(states, actions, i)
  }

  predicate Leads(states: seq<State>, actions: seq<Action>, i: nat)
    requires |states| == |actions| + 1 && i < |actions|
  {
    states[i + 1] == Step(states[i], actions[i])
  }

  /** Every state of every run keeps the whole invariant. */
  lemma {:induction false} RunKeepsInv(states: seq<State>, actions: seq<Action>, k: nat)
    requires IsRun(states, actions) && k < |states|
    ensures Inv(states[k])
  {
    hide Step, Inv;
    if k == 0 { InitialInv(); }
    else {
      RunKeepsInv(states, actions, k - 1);
      assert Leads(states, actions, k - 1);
      StepKeepsInv(states[k - 1], actions[k - 1]);
    }
  }

  /** In every interleaving each unit of credit received is in exactly one place. */
  lemma {:induction false} CreditIsConserved(states: seq<State>, actions: seq<Action>, k: nat)
    requires IsRun(states, actions) && k < |states|
    ensures var s := states[k];
            s.received == Held(s) + InFlight(s.acks) + OwnedSum(s.returned) + s.lost + s.discarded
  {
    RunKeepsInv(states, actions, k);
  }

  lemma {:induction false} CountedOnce(credits: seq<Credit>, i: nat, j: nat)
    requires i < j < |credits| && forall id: nat :: CountOwned(credits, id) <= 1
    ensures credits[i].id != credits[j].id
  {
    if i == 0 {
      NoOwned(credits[1..], credits[0].id);
      assert CountOwned(credits, credits[0].id) == 1 + CountOwned(credits[1..], credits[0].id);
      assert credits[1..][j - 1] == credits[j];
    } else {
      forall id: nat ensures CountOwned(credits[1..], id) <= 1 { assert CountOwned(credits, id) >= CountOwned(credits[1..], id); }
      CountedOnce(credits[1..], i - 1, j - 1);
    }
  }

  /** The returned credits are all different, and none of them is owned or waits for its return. */
  ghost predicate ReturnedOnce(s: State) {
    && (forall i, j :: 0 <= i < j < |s.returned| ==> s.returned[i].id != s.returned[j].id)
    && (forall i, id: nat :: 0 <= i < |s.returned| && s.returned[i].id == id ==> !HasOwned(s.owned, id) && CountUnsent(s.acks, id) == 0)
  }

  lemma CoreReturnsOnce(s: State)
    requires Inv(s)
    ensures ReturnedOnce(s)
  {
    hide Placed, Ordered, Ends, Losses;
    forall i, j | 0 <= i < j < |s.returned| ensures s.returned[i].id != s.returned[j].id {
      CountedOnce(s.returned, i, j);
    }
    forall i, id: nat | 0 <= i < |s.returned| && s.returned[i].id == id
      ensures !HasOwned(s.owned, id) && CountUnsent(s.acks, id) == 0
    {
      NoOwned(s.returned, id);
      NoOwned(s.owned, id);
    }
  }

  /** No credit is acknowledged twice, and none still to be returned has been returned. */
  lemma {:induction false} NothingIsReturnedTwice(states: seq<State>, actions: seq<Action>, k: nat)
    requires IsRun(states, actions) && k < |states|
    ensures ReturnedOnce(states[k])
  {
    hide Step, Inv, ReturnedOnce;
    RunKeepsInv(states, actions, k);
    CoreReturnsOnce(states[k]);
  }

  /** A request that finished, with the connection still up, has given every credit back. */
  lemma {:induction false} CleanFinishReturnsEverything(states: seq<State>, actions: seq<Action>, k: nat)
    requires IsRun(states, actions) && k < |states|
    requires var s := states[k]; s.pc == Exited(Completed) && s.connected
    ensures var s := states[k];
            Held(s) == 0 && s.acks == [] && s.discarded == 0 && s.lost == 0 && s.received == OwnedSum(s.returned)
  {
    RunKeepsInv(states, actions, k);
    CoreIsQuiet(states[k]);
    hide Step, OnePlace, Ordered;
  }

  /**
   * After a reset by the peer, with the connection still up, nothing is held, dropped or
   * in flight: every credit was returned, or its return was refused.
   */
  lemma {:induction false} ResetReturnsEverything(states: seq<State>, actions: seq<Action>, k: nat)
    requires IsRun(states, actions) && k < |states|
    requires var s := states[k]; s.pc == Exited(Terminated) && s.terminal == Some(ByReset) && s.connected
    ensures var s := states[k];
            Held(s) == 0 && s.acks == [] && s.discarded == 0 && s.received == OwnedSum(s.returned) + s.lost
  {
    RunKeepsInv(states, actions, k);
    CoreIsQuiet(states[k]);
    hide Step, OnePlace, Ordered;
  }

  /** A request rejected for its metadata keeps every credit it received. */
  lemma {:induction false} RejectionReturnsNothing(states: seq<State>, actions: seq<Action>, k: nat)
    requires IsRun(states, actions) && k < |states|
    requires states[k].pc == Exited(Rejected)
    ensures var s := states[k]; s.returned == [] && s.acks == [] && s.discarded == 0 && Held(s) == s.received
  {
    RunKeepsInv(states, actions, k);
    hide Step, OnePlace, Ordered;
  }

  /** The loop that returns the collected credits is never left early: only a reset gets it there, and the first reason stays. */
  lemma {:induction false} LoopIsNeverLeftEarly(states: seq<State>, actions: seq<Action>, k: nat)
    requires IsRun(states, actions) && k < |states|
    requires states[k].pc.OwnedAck?
    ensures var s := states[k];
            s.terminal == Some(ByReset) && AfterOwned(Join(s, s.pc.id), s.pc.ids).pc == ReturnOwned(s.pc.ids)
  {
    RunKeepsInv(states, actions, k);
    hide Step, Core;
  }

  // ---------------------------------------------------------------- every exit

  ghost predicate RefusedBefore(states: seq<State>, actions: seq<Action>, k: nat)
    requires |states| == |actions| + 1 && k < |states|
  {
    exists i :: 0 <= i < k && Refuses(states[i], actions[i])
  }

  /** A request is rejected exactly if its invalid metadata was met with nothing stopping the dispatcher. */
  lemma {:induction false} RejectedExactly(states: seq<State>, actions: seq<Action>, k: nat)
    requires IsRun(states, actions) && k < |states|
    ensures Rejecting(states[k].pc) <==> RefusedBefore(states, actions, k)
  {
    hide Step, Refuses, Inv;
    if k > 0 {
      RejectedExactly(states, actions, k - 1);
      RunKeepsInv(states, actions, k - 1);
      assert Leads(states, actions, k - 1);
      StepRefuses(states[k - 1], actions[k - 1]);
      if RefusedBefore(states, actions, k - 1) {
        var i :| 0 <= i < k - 1 && Refuses(states[i], actions[i]);
      }
    }
  }

  /** What the credit received has become by the time the dispatcher is left with the connection up. */
  ghost predicate Settled(s: State, exit: Exit) {
    match exit
    case Completed => Held(s) == 0 && s.received == OwnedSum(s.returned)
    case Terminated =>
      && Held(s) == EventSum(s.native) && s.acks == []
      && (s.terminal == Some(ByReset) ==> Held(s) == 0 && s.received == OwnedSum(s.returned) + s.lost)
    case Rejected => Held(s) == s.received
    case Raised =>
      && s.owned == []
      && s.received == Held(s) + InFlight(s.acks) + OwnedSum(s.returned) + s.lost
      && (!s.metadata ==> Held(s) == s.received)
    case Cancelled => s.received == Held(s) + InFlight(s.acks) + OwnedSum(s.returned) + s.lost + s.discarded
  }

  lemma CoreIsSettled(s: State)
    requires Inv(s) && s.pc.Exited? && s.connected
    ensures Settled(s, s.pc.exit)
  {
    CoreIsQuiet(s);
    hide OnePlace, Ordered, EventSum;
  }

  /** However the dispatcher is left: what it still holds and what it has given back. */
  lemma {:induction false} CreditAtExit(states: seq<State>, actions: seq<Action>, k: nat)
    requires IsRun(states, actions) && k < |states|
    requires states[k].pc.Exited? && states[k].connected
    ensures Settled(states[k], states[k].pc.exit)
  {
    hide Step, Inv, Settled;
    RunKeepsInv(states, actions, k);
    CoreIsSettled(states[k]);
  }

  /** The dispatcher returns without an error. */
  predicate ReturnsNormally(s: State) {
    || s.pc == Exited(Completed) || s.pc == Exited(Rejected)
    || (s.pc == Exited(Terminated) && s.terminal == Some(ByReset))
  }

  /** A normal return leaves no credit behind exactly if no invalid metadata was met, or nothing had been received. */
  lemma {:induction false} NormalReturnIsCleanExactly(states: seq<State>, actions: seq<Action>, k: nat)
    requires IsRun(states, actions) && k < |states|
    requires ReturnsNormally(states[k]) && states[k].connected
    ensures Held(states[k]) == 0 <==> !RefusedBefore(states, actions, k) || states[k].received == 0
  {
    hide Step, Held, OwnedSum, InFlight, EventSum;
    RejectedExactly(states, actions, k);
    CreditAtExit(states, actions, k);
  }
}
