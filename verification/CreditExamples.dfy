// Runs of the dispatcher, step by step: one that completes and has returned the credit it
// received, one that rejects its request and one that raises, and both of these have not.
// They show that the theorems about the dispatcher's exits speak of something.
//
// Each run is put together from stretches of a few steps; a stretch is given by its actions
// and the state it ends in.

module CreditExamples {
  import opened Prelude
  import opened Credits
  import opened CreditRuns

  /** The states that actions lead to from s. */
  function States(s: State, actions: seq<Action>): (r: seq<State>)
    ensures |r| == |actions| + 1 && r[0] == s
    decreases |actions|
  {
    if actions == [] then [s] else [s] + States(Step(s, actions[0]), actions[1..])
  }

  lemma {:induction false} StatesFollow(s: State, actions: seq<Action>)
    ensures forall i :: 0 <= i < |actions| ==> Leads(States(s, actions), actions, i)
    decreases |actions|
  {
    hide Step;
    if actions != [] {
      var rest := States(Step(s, actions[0]), actions[1..]);
      StatesFollow(Step(s, actions[0]), actions[1..]);
      var all := States(s, actions);
      forall i | 0 <= i < |actions| ensures Leads(all, actions, i) {
        if i > 0 { assert Leads(rest, actions[1..], i - 1); }
      }
    }
  }

  /** Where actions lead from s. */
  function EndOf(s: State, actions: seq<Action>): State {
    States(s, actions)[|actions|]
  }

  lemma LastStep(s: State, a: Action, actions: seq<Action>)
    ensures EndOf(s, [a] + actions) == EndOf(Step(s, a), actions)
  {
    hide Step;
    assert ([a] + actions)[1..] == actions;
  }

  lemma {:induction false} LastOf(s: State, first: seq<Action>, then_: seq<Action>)
    ensures EndOf(s, first + then_) == EndOf(EndOf(s, first), then_)
    decreases |first|
  {
    hide Step;
    if first == [] { assert first + then_ == then_; }
    else {
      assert first + then_ == [first[0]] + (first[1..] + then_) && first == [first[0]] + first[1..];
      LastStep(s, first[0], first[1..] + then_);
      LastStep(s, first[0], first[1..]);
      LastOf(Step(s, first[0]), first[1..], then_);
    }
  }

  const Plain := Choice(Incomplete, false, false, false)
  const BadMetadata := Choice(Invalid, false, false, false)
  const NoEnvelope := Choice(Unreadable, false, false, false)
  const GoodMetadata := Choice(Parse.Complete(true), false, false, false)

  /** Seven bytes of credit are in the dispatcher's hands. */
  const Fetching: seq<Action> := [Arrive(Data(7)), Dispatcher(Plain), TakeEvent, Dispatcher(Plain)]
  const Fetched: State := Initial.(received := 7, fetched := 7, pc := Handle(Some(Data(7))))

  lemma FetchedIsReached()
    ensures EndOf(Initial, Fetching) == Fetched
  {
    var none: seq<Action> := [];
    var s1 := Initial.(received := 7, native := [Data(7)]);
    var s2 := s1.(eventTask := Getting, pc := Waiting(false));
    var s3 := s2.(eventTask := Got(Data(7)), native := []);
    assert Step(Initial, Arrive(Data(7))) == s1;
    assert Step(s1, Dispatcher(Plain)) == s2;
    assert Step(s2, TakeEvent) == s3;
    assert Step(s3, Dispatcher(Plain)) == Fetched;
    hide Step;
    LastStep(Initial, Arrive(Data(7)), [Dispatcher(Plain), TakeEvent, Dispatcher(Plain)]);
    LastStep(s1, Dispatcher(Plain), [TakeEvent, Dispatcher(Plain)]);
    LastStep(s2, TakeEvent, [Dispatcher(Plain)]);
    LastStep(s3, Dispatcher(Plain), none);
    assert Fetching == [Arrive(Data(7))] + [Dispatcher(Plain), TakeEvent, Dispatcher(Plain)];
    assert [Dispatcher(Plain), TakeEvent, Dispatcher(Plain)] == [Dispatcher(Plain)] + [TakeEvent, Dispatcher(Plain)];
    assert [TakeEvent, Dispatcher(Plain)] == [TakeEvent] + [Dispatcher(Plain)];
    assert [Dispatcher(Plain)] == [Dispatcher(Plain)] + none;
  }

  lemma RunFrom(actions: seq<Action>)
    ensures IsRun(States(Initial, actions), actions)
  {
    StatesFollow(Initial, actions);
  }

  const Refused: State := Initial.(received := 7, pending := 7)

  lemma InvalidIsRejected()
    ensures Step(Fetched, Dispatcher(BadMetadata)) == Refused.(pc := Settle([], Leave(Rejected)))
  {}

  lemma UnreadableRaises()
    ensures Step(Fetched, Dispatcher(NoEnvelope)) == Refused.(pc := Settle([], Leave(Raised)))
  {}

  lemma Leaves(exit: Exit)
    ensures Step(Refused.(pc := Settle([], Leave(exit))), Dispatcher(Plain)) == Refused.(pc := Exited(exit))
  {}

  /** The seven bytes are not a request: the dispatcher is left at once and keeps all seven. */
  lemma LeftAtOnce(c: Choice, exit: Exit) returns (states: seq<State>, actions: seq<Action>)
    requires (c == BadMetadata && exit == Rejected) || (c == NoEnvelope && exit == Raised)
    ensures IsRun(states, actions)
    ensures var s := states[|actions|];
            s.pc == Exited(exit) && s.connected && s.received == 7 && Held(s) == 7 && s.returned == []
  {
    var none: seq<Action> := [];
    var more := [Dispatcher(c), Dispatcher(Plain)];
    actions := Fetching + more;
    states := States(Initial, actions);
    RunFrom(actions);
    hide Step;
    var s5 := Refused.(pc := Settle([], Leave(exit)));
    var s6 := s5.(pc := Exited(exit));
    if exit.Rejected? { InvalidIsRejected(); } else { UnreadableRaises(); }
    Leaves(exit);
    FetchedIsReached();
    LastOf(Initial, Fetching, more);
    assert more == [Dispatcher(c)] + [Dispatcher(Plain)] && [Dispatcher(Plain)] == [Dispatcher(Plain)] + none;
    LastStep(Fetched, Dispatcher(c), [Dispatcher(Plain)]);
    LastStep(s5, Dispatcher(Plain), none);
    assert EndOf(Initial, actions) == s6;
  }

  /** Seven bytes of credit arrive with invalid metadata: the dispatcher returns and keeps all seven. */
  lemma RejectedCreditIsKept() returns (states: seq<State>, actions: seq<Action>)
    ensures IsRun(states, actions)
    ensures var s := states[|actions|];
            s.pc == Exited(Rejected) && s.connected && s.received == 7 && Held(s) == 7 && s.returned == []
  {
    states, actions := LeftAtOnce(BadMetadata, Rejected);
  }

  /** Seven bytes that are no envelope: the dispatcher raises and keeps all seven. */
  lemma RaisedCreditIsKept() returns (states: seq<State>, actions: seq<Action>)
    ensures IsRun(states, actions)
    ensures var s := states[|actions|];
            s.pc == Exited(Raised) && s.connected && s.received == 7 && Held(s) == 7 && s.returned == []
  {
    states, actions := LeftAtOnce(NoEnvelope, Raised);
  }

  /** The application reads the seven bytes and their credit is returned. */
  const Reading: seq<Action> := [Dispatcher(GoodMetadata), Receive, AckAccepted(1), AckFlushed(1, true), ReceiverJoins(1)]
  const Read: State := Initial.(received := 7, metadata := true, app := Running, lastId := 1, returned := [Credit(1, 7)])

  lemma ReadIsReached()
    ensures EndOf(Fetched, Reading) == Read
  {
    var none: seq<Action> := [];
    var s1 := Initial.(received := 7, metadata := true, app := Running, queue := [7]);
    var s2 := s1.(queue := [], lastId := 1, acks := [Ack(1, 7, Unsent)]);
    var s3 := s2.(acks := [Ack(1, 7, Sent)], returned := [Credit(1, 7)]);
    var s4 := s3.(acks := [Ack(1, 7, Done(Fine))]);
    assert Step(Fetched, Dispatcher(GoodMetadata)) == s1;
    assert Step(s1, Receive) == s2;
    assert Step(s2, AckAccepted(1)) == s3;
    assert Step(s3, AckFlushed(1, true)) == s4;
    assert Step(s4, ReceiverJoins(1)) == Read;
    hide Step;
    var r4 := [ReceiverJoins(1)];
    var r3 := [AckFlushed(1, true)] + r4;
    var r2 := [AckAccepted(1)] + r3;
    var r1 := [Receive] + r2;
    assert Reading == [Dispatcher(GoodMetadata)] + r1 && r4 == [ReceiverJoins(1)] + none;
    LastStep(Fetched, Dispatcher(GoodMetadata), r1);
    LastStep(s1, Receive, r2);
    LastStep(s2, AckAccepted(1), r3);
    LastStep(s3, AckFlushed(1, true), r4);
    LastStep(s4, ReceiverJoins(1), none);
  }

  /** The upload ends and the application finishes. */
  const Ending: seq<Action> := [Arrive(Ended), Dispatcher(Plain), TakeEvent, Dispatcher(Plain), Dispatcher(Plain), Receive, AppEnds]
  const Over: State := Read.(peerGone := true, endTaken := true, uploadEof := true, app := Finished)

  lemma OverIsReached()
    ensures EndOf(Read, Ending) == Over
  {
    var none: seq<Action> := [];
    var s1 := Read.(native := [Ended], peerGone := true);
    var s2 := s1.(eventTask := Getting, pc := Waiting(true));
    var s3 := s2.(eventTask := Got(Ended), native := []);
    var s4 := s3.(eventTask := NoTask, endTaken := true, pc := Handle(Some(Ended)));
    var s5 := s4.(uploadEof := true, queue := [0], pc := Top);
    var s6 := s5.(queue := []);
    assert Step(Read, Arrive(Ended)) == s1;
    assert Step(s1, Dispatcher(Plain)) == s2;
    assert Step(s2, TakeEvent) == s3;
    assert Step(s3, Dispatcher(Plain)) == s4;
    assert Step(s4, Dispatcher(Plain)) == s5;
    assert Step(s5, Receive) == s6;
    assert Step(s6, AppEnds) == Over;
    hide Step;
    var r6 := [AppEnds];
    var r5 := [Receive] + r6;
    var r4 := [Dispatcher(Plain)] + r5;
    var r3 := [Dispatcher(Plain)] + r4;
    var r2 := [TakeEvent] + r3;
    var r1 := [Dispatcher(Plain)] + r2;
    assert Ending == [Arrive(Ended)] + r1 && r6 == [AppEnds] + none;
    LastStep(Read, Arrive(Ended), r1);
    LastStep(s1, Dispatcher(Plain), r2);
    LastStep(s2, TakeEvent, r3);
    LastStep(s3, Dispatcher(Plain), r4);
    LastStep(s4, Dispatcher(Plain), r5);
    LastStep(s5, Receive, r6);
    LastStep(s6, AppEnds, none);
  }

  const Turn: Action := Dispatcher(Plain)
  const Leaving: seq<Action> := [Turn, Turn, Turn, Turn, Turn]

  lemma LeftIsReached()
    ensures EndOf(Over, Leaving) == Over.(pc := Exited(Completed))
  {
    var none: seq<Action> := [];
    var s1, s2 := Over.(pc := Drain(FromTop)), Over.(pc := DrainPending(FromTop));
    var s3, s4 := Over.(pc := Settle([], FromTop)), Over.(pc := Settle([], Leave(Completed)));
    assert Step(Over, Turn) == s1;
    assert Step(s1, Turn) == s2;
    assert Step(s2, Turn) == s3;
    assert Step(s3, Turn) == s4;
    assert Step(s4, Turn) == Over.(pc := Exited(Completed));
    hide Step;
    var r4 := [Turn];
    var r3 := [Turn] + r4;
    var r2 := [Turn] + r3;
    var r1 := [Turn] + r2;
    assert Leaving == [Turn] + r1 && r4 == [Turn] + none;
    LastStep(Over, Turn, r1);
    LastStep(s1, Turn, r2);
    LastStep(s2, Turn, r3);
    LastStep(s3, Turn, r4);
    LastStep(s4, Turn, none);
  }

  /** A run that completes: seven bytes of credit are received and returned. */
  lemma CompletionIsReached() returns (states: seq<State>, actions: seq<Action>)
    ensures IsRun(states, actions)
    ensures var s := states[|actions|];
            s.pc == Exited(Completed) && s.connected && s.received == 7 && s.returned == [Credit(1, 7)]
  {
    hide Step;
    actions := Fetching + (Reading + (Ending + Leaving));
    states := States(Initial, actions);
    RunFrom(actions);
    FetchedIsReached();
    ReadIsReached();
    OverIsReached();
    LeftIsReached();
    LastOf(Initial, Fetching, Reading + (Ending + Leaving));
    LastOf(Fetched, Reading, Ending + Leaving);
    LastOf(Read, Ending, Leaving);
    assert EndOf(Initial, actions) == Over.(pc := Exited(Completed));
  }
}
