// What the sending side of a VWS/1 socket promises over whole runs.

module SocketRuns {
  import opened VwsSocket

  lemma InvMeans(s: State)
    requires Inv(s)
    ensures Ascending(OnWire(s.wire, false), s.nextId) && Ascending(OnWire(s.wire, true), s.nextId)
    ensures Stages(s) && Counted(s) && Awake(s)
  {
    AllLeave(s.wire, false, s.outboundQueue, s.nextId);
    AllLeave(s.wire, true, Early(s), s.nextId);
    NothingBehind(s.wire, false, s.nextId);
    NothingBehind(s.wire, true, s.nextId);
  }

  lemma NothingBehind(wire: seq<Line>, early: bool, bound: nat)
    requires Ordered(wire, early, [], bound)
    ensures Ascending(OnWire(wire, early), bound)
  {
    assert Ids([]) == [];
    assert OnWire(wire, early) + [] == OnWire(wire, early);
  }

  lemma {:induction false} ReachableInv(alreadyAccepted: bool, actions: seq<Action>)
    ensures Inv(Run(Fresh(alreadyAccepted), actions))
  {
    hide Run, Inv;
    FreshInv(alreadyAccepted);
    RunKeepsInv(Fresh(alreadyAccepted), actions);
  }

  /** Early messages are written in the order of their sends, later ones too, and each at most once. */
  lemma {:induction false} MessagesGoInOrder(alreadyAccepted: bool, actions: seq<Action>)
    ensures var s := Run(Fresh(alreadyAccepted), actions);
            Ascending(OnWire(s.wire, false), s.nextId) && Ascending(OnWire(s.wire, true), s.nextId)
  {
    hide Run, Inv, OnWire, Ascending;
    ReachableInv(alreadyAccepted, actions);
    InvMeans(Run(Fresh(alreadyAccepted), actions));
  }

  /** While the socket is open its counter is what is queued and in flight, and within the limits. */
  lemma {:induction false} CounterIsExact(alreadyAccepted: bool, actions: seq<Action>)
    ensures var s := Run(Fresh(alreadyAccepted), actions);
            && s.outboundBytes <= MaxBytes && |s.outboundQueue| <= MaxMessages
            && (!s.closeSent && !s.destroyed ==> s.outboundBytes == Total(s.outboundQueue) + InFlight(s))
  {
    hide Run, Inv, Total;
    ReachableInv(alreadyAccepted, actions);
    InvMeans(Run(Fresh(alreadyAccepted), actions));
  }

  /** A message never waits for a pump that has gone to sleep. */
  lemma {:induction false} NoLostWakeUp(alreadyAccepted: bool, actions: seq<Action>)
    ensures var s := Run(Fresh(alreadyAccepted), actions);
            s.outboundQueue != [] && s.acceptWritten && !s.destroyed ==> s.pump.Writing? || !s.flush.NoFlush?
  {
    hide Run, Inv, Total;
    ReachableInv(alreadyAccepted, actions);
    InvMeans(Run(Fresh(alreadyAccepted), actions));
  }

  function Repeat(a: Action, n: nat): seq<Action> {
    if n == 0 then [] else Repeat(a, n - 1) + [a]
  }

  function LateLines(entries: seq<Entry>): seq<Line> {
    if entries == [] then [] else [Data(entries[0].id, false)] + LateLines(entries[1..])
  }

  lemma PumpStep(s: State)
    requires s.pump.Writing? && !s.destroyed
    ensures var t := Step(s, PumpResumes(true, false));
            if s.outboundQueue == [] then t.wire == s.wire && t.outboundQueue == [] && t.pump.Idle?
            else
              && t.wire == s.wire + [Data(s.outboundQueue[0].id, false)] && t.outboundQueue == s.outboundQueue[1..]
              && t.pump.Writing? && !t.destroyed
  {}

  /** As long as writes succeed, the pump writes every queued message and then rests. */
  lemma {:induction false} PumpDelivers(s: State)
    requires s.pump.Writing? && !s.destroyed
    ensures var t := Run(s, Repeat(PumpResumes(true, false), |s.outboundQueue| + 1));
            t.wire == s.wire + LateLines(s.outboundQueue) && t.outboundQueue == [] && t.pump.Idle?
    decreases |s.outboundQueue|
  {
    hide Step, Run;
    var a := PumpResumes(true, false);
    var t := Step(s, a);
    PumpStep(s);
    RunFirst(s, a, |s.outboundQueue|);
    if s.outboundQueue == [] {
      RunNone(t);
      assert s.wire + LateLines([]) == s.wire;
    } else {
      PumpDelivers(t);
      assert t.wire + LateLines(t.outboundQueue) == s.wire + LateLines(s.outboundQueue);
    }
  }

  lemma {:induction false} RunFirst(s: State, a: Action, n: nat)
    ensures Run(s, Repeat(a, n + 1)) == Run(Step(s, a), Repeat(a, n))
  {
    hide Step;
    RepeatEnds(a, n + 1);
    if n == 0 {
      assert Repeat(a, 1) == [a];
    } else {
      RunFirst(s, a, n - 1);
      RepeatEnds(a, n);
    }
  }

  lemma {:induction false} RepeatEnds(a: Action, n: nat)
    ensures |Repeat(a, n)| == n
    ensures n > 0 ==> Repeat(a, n)[n - 1] == a && Repeat(a, n)[..n - 1] == Repeat(a, n - 1)
  {
    if n > 0 { RepeatEnds(a, n - 1); }
  }

  // ---------------------------------------------------------------- closing

  predicate Ended(s: State) {
    s.closeSent || s.destroyed
  }

  /** Early messages that a flush, running or still to come, will write. */
  predicate Backlog(s: State) {
    || (s.flush.Flushing? && s.flush.rest != [])
    || (s.accepting.Asked? && AcceptLine in s.wire && s.sendQueue != [])
  }

  function Messages(wire: seq<Line>): nat {
    if wire == [] then 0 else Messages(wire[..|wire| - 1]) + (if wire[|wire| - 1].Data? then 1 else 0)
  }

  lemma MessagesAppend(wire: seq<Line>, line: Line)
    ensures Messages(wire + [line]) == Messages(wire) + (if line.Data? then 1 else 0)
  {
    assert (wire + [line])[..|wire|] == wire;
  }

  /** Once the socket has ended, its pump and its users' calls do nothing. */
  lemma EndedDoesNothing(s: State)
    requires Ended(s) && Stages(s)
    ensures forall bytes: nat, threw: bool :: Send(s, bytes, threw) == s
    ensures forall threw: bool :: Close(s, threw) == s
  {}

  lemma EndedPumpRests(s: State, t: State, threw: bool)
    requires Ended(s) && Stages(s) && t.destroyed == s.destroyed && t.outboundQueue == s.outboundQueue
    ensures PumpOn(t, threw) == t.(pump := Idle)
  {}

  lemma LineIsNoMessage(s: State, line: Line, threw: bool)
    requires !line.Data?
    ensures Messages(Put(s, line, threw).wire) == Messages(s.wire)
  {
    MessagesAppend(s.wire, line);
  }

  /** A flush with nothing left writes nothing. */
  lemma EndedFlush(s: State, a: Action)
    requires Stages(s) && Ended(s) && !Backlog(s) && (a.AcceptResumes? || a.FlushResumes?)
    ensures var t := Step(s, a); Ended(t) && !Backlog(t) && t.wire == s.wire
  {
    hide PumpOn;
    if a.FlushResumes? { EndedPumpRests(s, s.(flush := NoFlush), a.threw); }
  }

  lemma EndedAccept(s: State, threw: bool)
    requires Stages(s) && Ended(s) && !Backlog(s)
    ensures var t := SendAccept(s, threw); Ended(t) && !Backlog(t) && Messages(t.wire) == Messages(s.wire)
  {
    hide Messages;
    LineIsNoMessage(s.(accepted := true, accepting := Asked), AcceptLine, threw);
  }

  /** A socket that has ended and has no backlog writes no message and gets no backlog. */
  lemma EndedStaysSilent(s: State, a: Action)
    requires Stages(s) && Ended(s) && !Backlog(s)
    ensures var t := Step(s, a); Ended(t) && !Backlog(t) && Messages(t.wire) == Messages(s.wire)
  {
    hide Messages;
    EndedDoesNothing(s);
    match a
    case AcceptResumes(_, _) => hide Step; EndedFlush(s, a);
    case FlushResumes(_, _) => hide Step; EndedFlush(s, a);
    case Accept(threw) => hide SendAccept; EndedAccept(s, threw);
    case PumpResumes(_, threw) =>
      hide PumpOn;
      EndedPumpRests(s, s, threw);
      forall n: nat ensures PumpOn(s.(outboundBytes := n), threw) == s.(outboundBytes := n, pump := Idle) {
        EndedPumpRests(s, s.(outboundBytes := n), threw);
      }
    case PeerCloses(threw) => LineIsNoMessage(s.(destroyed := true), CloseLine, threw);
    case _ => hide Send, Close;
  }

  lemma {:induction false} SilentRun(s: State, actions: seq<Action>)
    requires Inv(s) && Ended(s) && !Backlog(s)
    ensures var t := Run(s, actions); Ended(t) && !Backlog(t) && Messages(t.wire) == Messages(s.wire)
  {
    if actions != [] {
      hide Step, Inv;
      SilentRun(s, actions[..|actions| - 1]);
      RunKeepsInv(s, actions[..|actions| - 1]);
      InvMeans(Run(s, actions[..|actions| - 1]));
      EndedStaysSilent(Run(s, actions[..|actions| - 1]), actions[|actions| - 1]);
    }
  }

  /** The step that writes the next message of the backlog. */
  function NextOfBacklog(s: State): Action {
    if s.flush.Flushing? && s.flush.rest != [] then FlushResumes(true, false) else AcceptResumes(true, false)
  }

  lemma BacklogIsWritten(s: State)
    requires Backlog(s)
    ensures Messages(Step(s, NextOfBacklog(s)).wire) > Messages(s.wire)
  {
    var e := if s.flush.Flushing? && s.flush.rest != [] then s.flush.rest[0] else s.sendQueue[0];
    MessagesAppend(s.wire, Data(e.id, true));
    hide Messages;
    assert Step(s, NextOfBacklog(s)).wire == s.wire + [Data(e.id, true)];
  }

  lemma {:induction false} RunOfOne(s: State, a: Action)
    ensures Run(s, [a]) == Step(s, a)
  {
    hide Step;
    var none: seq<Action> := [];
    assert [a][..0] == none && Run(s, none) == s;
  }

  /** Once a socket has ended, a message can still follow exactly when there is a backlog. */
  lemma {:induction false} MessageAfterEndExactly(s: State)
    requires Inv(s) && Ended(s)
    ensures Backlog(s) <==> exists actions :: Messages(Run(s, actions).wire) > Messages(s.wire)
  {
    hide Inv, Run, Step, Messages, Backlog, Ended;
    if Backlog(s) {
      BacklogIsWritten(s);
      RunOfOne(s, NextOfBacklog(s));
      assert Messages(Run(s, [NextOfBacklog(s)]).wire) > Messages(s.wire);
    } else {
      forall actions ensures Messages(Run(s, actions).wire) == Messages(s.wire) { SilentRun(s, actions); }
    }
  }

  /** A socket that started accepted never has a backlog. */
  predicate Plain(s: State) {
    s.accepted && s.acceptWritten && s.accepting.NotAsked? && s.flush.NoFlush? && s.sendQueue == []
  }

  lemma {:induction false} BrokerStaysPlain(actions: seq<Action>)
    ensures Plain(Run(Fresh(true), actions)) && OnWire(Run(Fresh(true), actions).wire, true) == []
  {
    if actions != [] {
      BrokerStaysPlain(actions[..|actions| - 1]);
      var s, a := Run(Fresh(true), actions[..|actions| - 1]), actions[|actions| - 1];
      PlainStep(s, a);
    }
  }

  lemma PlainStep(s: State, a: Action)
    requires Plain(s)
    ensures Plain(Step(s, a)) && OnWire(Step(s, a).wire, true) == OnWire(s.wire, true)
  {
    hide OnWire;
    forall line: Line | !(line.Data? && line.early) ensures OnWire(s.wire + [line], true) == OnWire(s.wire, true) {
      OnWireAppend(s.wire, line, true);
      assert OnWire(s.wire, true) + [] == OnWire(s.wire, true);
    }
  }

  /** On a socket that started accepted, nothing sent follows the end, whatever happens. */
  lemma {:induction false} BrokerSendsNothingAfterEnd(before: seq<Action>, after: seq<Action>)
    requires Ended(Run(Fresh(true), before))
    ensures var s := Run(Fresh(true), before); Messages(Run(s, after).wire) == Messages(s.wire)
  {
    hide Run, Inv;
    FreshInv(true);
    RunKeepsInv(Fresh(true), before);
    BrokerStaysPlain(before);
    SilentRun(Run(Fresh(true), before), after);
  }

  // ---------------------------------------------------------------- the Guest's side

  /** Every message on the wire has the accept before it. */
  predicate AcceptFirst(wire: seq<Line>) {
    forall j :: 0 <= j < |wire| && wire[j].Data? ==> AcceptLine in wire[..j]
  }

  predicate Handshake(s: State) {
    AcceptFirst(s.wire) && (s.acceptWritten ==> AcceptLine in s.wire)
  }

  lemma AcceptFirstAppend(wire: seq<Line>, line: Line)
    requires AcceptFirst(wire) && (line.Data? ==> AcceptLine in wire)
    ensures AcceptFirst(wire + [line])
  {
    var all := wire + [line];
    forall j | 0 <= j < |all| && all[j].Data? ensures AcceptLine in all[..j] {
      assert all[..j] == wire[..j];
    }
  }

  /** A step writes one line at most, and a message only behind the accept frame. */
  predicate Grows(s: State, t: State) {
    && (t.acceptWritten ==> s.acceptWritten || AcceptLine in s.wire)
    && (t.wire == s.wire
        || (|t.wire| == |s.wire| + 1 && t.wire == s.wire + [t.wire[|s.wire|]]
            && (t.wire[|s.wire|].Data? ==> s.acceptWritten || AcceptLine in s.wire)))
  }

  lemma PumpGrows(s: State, u: State, threw: bool)
    requires s.acceptWritten && u.wire == s.wire
    ensures Grows(s, PumpOn(u, threw)) && Grows(s, StartPump(u, threw))
  {}

  lemma FlushGrows(s: State, u: State, entries: seq<Entry>, threw: bool)
    requires (s.acceptWritten || AcceptLine in s.wire) && u.wire == s.wire
    ensures Grows(s, FlushOn(u, entries, threw))
  {}

  lemma CloseGrows(s: State, threw: bool)
    ensures Grows(s, Close(s, threw)) && Grows(s, SendAccept(s, threw))
  {}

  lemma SendGrows(s: State, bytes: nat, threw: bool)
    ensures Grows(s, Send(s, bytes, threw))
  {
    hide Close, StartPump, Grows;
    CloseGrows(s, threw);
    if s.acceptWritten {
      var u := s.(outboundQueue := s.outboundQueue + [Entry(s.nextId, bytes)], outboundBytes := s.outboundBytes + bytes, nextId := s.nextId + 1);
      PumpGrows(s, u, threw);
    }
    assert forall t: State :: t.wire == s.wire && t.acceptWritten == s.acceptWritten ==> Grows(s, t) by { SameGrows(s); }
  }

  lemma SameGrows(s: State)
    ensures forall t: State :: t.wire == s.wire && t.acceptWritten == s.acceptWritten ==> Grows(s, t)
  {}

  lemma StepGrows(s: State, a: Action)
    requires Stages(s)
    ensures Grows(s, Step(s, a))
  {
    match a
    case DoSend(bytes, threw) => hide Send, Grows; SendGrows(s, bytes, threw); SameGrows(s);
    case DoClose(threw) => hide Close, Grows; CloseGrows(s, threw);
    case Accept(threw) => hide SendAccept, Grows; CloseGrows(s, threw);
    case AcceptResumes(_, threw) =>
      hide FlushOn;
      if AcceptLine in s.wire { FlushGrows(s, DropEarly(s.(accepting := Over, acceptWritten := true)), s.sendQueue, threw); }
    case FlushResumes(ok, threw) =>
      hide FlushOn, StartPump;
      if s.flush.Flushing? { FlushGrows(s, s, if ok then s.flush.rest else [], threw); }
      else if s.flush.Ending? { PumpGrows(s, s.(flush := NoFlush), threw); }
    case PumpResumes(_, threw) =>
      hide PumpOn;
      forall n: nat | s.acceptWritten ensures Grows(s, PumpOn(s.(outboundBytes := n), threw)) {
        PumpGrows(s, s.(outboundBytes := n), threw);
      }
    case _ =>
  }

  lemma {:induction false} HandshakeStep(s: State, a: Action)
    requires Handshake(s) && Stages(s)
    ensures Handshake(Step(s, a))
  {
    StepGrows(s, a);
    hide Step, AcceptFirst;
    var t := Step(s, a);
    if t.wire != s.wire { AcceptFirstAppend(s.wire, t.wire[|s.wire|]); }
  }

  lemma {:induction false} NoMessageBeforeAccept(actions: seq<Action>)
    ensures Handshake(Run(Fresh(false), actions))
  {
    if actions != [] {
      hide Step, Inv, Handshake;
      var before := actions[..|actions| - 1];
      NoMessageBeforeAccept(before);
      FreshInv(false);
      RunKeepsInv(Fresh(false), before);
      assert Stages(Run(Fresh(false), before)) by { InvStages(Run(Fresh(false), before)); }
      HandshakeStep(Run(Fresh(false), before), actions[|actions| - 1]);
    }
  }

  lemma InvStages(s: State)
    requires Inv(s)
    ensures Stages(s)
  {}

  lemma RunNext(s: State, actions: seq<Action>, a: Action)
    ensures Run(s, actions + [a]) == Step(Run(s, actions), a)
  {
    assert (actions + [a])[..|actions|] == actions;
  }

  const TwoEarly: seq<Action> := [DoSend(MinBytes, false), DoSend(MinBytes, false), Accept(false), AcceptResumes(true, false)]

  /** A Guest's socket in the middle of its flush: message 0 is written, message 1 is not. */
  const Flushing1: State :=
    State(true, true, false, false, [], 0, [], 0, Idle, Over, Flushing([Entry(1, MinBytes)]), 2, [AcceptLine, Data(0, true)])

  lemma TwoEarlyReached()
    ensures Run(Fresh(false), TwoEarly) == Flushing1
  {
    var a1: seq<Action> := [DoSend(MinBytes, false)];
    var a2 := a1 + [DoSend(MinBytes, false)];
    var a3 := a2 + [Accept(false)];
    var none: seq<Action> := [];
    assert none + [DoSend(MinBytes, false)] == a1;
    assert a3 + [AcceptResumes(true, false)] == TwoEarly;
    RunNext(Fresh(false), none, DoSend(MinBytes, false));
    RunNext(Fresh(false), a1, DoSend(MinBytes, false));
    RunNext(Fresh(false), a2, Accept(false));
    RunNext(Fresh(false), a3, AcceptResumes(true, false));
    hide Run;
    assert Run(Fresh(false), none) == Fresh(false) by { RunNone(Fresh(false)); }
    var s1 := Fresh(false).(sendQueue := [Entry(0, MinBytes)], sendQueueBytes := MinBytes, nextId := 1);
    assert Step(Fresh(false), DoSend(MinBytes, false)) == s1;
    var s2 := s1.(sendQueue := [Entry(0, MinBytes), Entry(1, MinBytes)], sendQueueBytes := 2 * MinBytes, nextId := 2);
    assert Step(s1, DoSend(MinBytes, false)) == s2;
    var s3 := s2.(accepted := true, accepting := Asked, wire := [AcceptLine]);
    assert Step(s2, Accept(false)) == s3;
    assert Step(s3, AcceptResumes(true, false)) == Flushing1;
  }

  lemma RunNone(s: State)
    ensures Run(s, []) == s
  {}

  /** On a Guest's socket a newer message can overtake an early one that is still to be flushed. */
  lemma NewerMessageOvertakes()
    ensures Run(Fresh(false), TwoEarly + [DoSend(MinBytes, false)] + [FlushResumes(true, false)]).wire
         == [AcceptLine, Data(0, true), Data(2, false), Data(1, true)]
  {
    TwoEarlyReached();
    RunNext(Fresh(false), TwoEarly, DoSend(MinBytes, false));
    RunNext(Fresh(false), TwoEarly + [DoSend(MinBytes, false)], FlushResumes(true, false));
    hide Run;
    var s5 := Step(Flushing1, DoSend(MinBytes, false));
    assert s5.wire == [AcceptLine, Data(0, true), Data(2, false)] && s5.flush == Flushing1.flush;
  }

  /** And an early message can follow the close frame. */
  lemma EarlyMessageFollowsClose()
    ensures Run(Fresh(false), TwoEarly + [DoClose(false)] + [FlushResumes(true, false)]).wire
         == [AcceptLine, Data(0, true), CloseLine, Data(1, true)]
  {
    TwoEarlyReached();
    RunNext(Fresh(false), TwoEarly, DoClose(false));
    RunNext(Fresh(false), TwoEarly + [DoClose(false)], FlushResumes(true, false));
    hide Run;
    var s5 := Step(Flushing1, DoClose(false));
    assert s5.wire == [AcceptLine, Data(0, true), CloseLine] && s5.flush == Flushing1.flush;
  }

  // ---------------------------------------------------------------- the peer's close

  /** The peer's close itself settles nothing. */
  lemma PeerCloseKeepsTheQueue(s: State, threw: bool)
    ensures Step(s, PeerCloses(threw)).outboundQueue == s.outboundQueue
    ensures Step(s, PeerCloses(threw)).destroyed
  {}

  lemma DestroyedKeepsQueue(s: State, a: Action)
    requires s.destroyed && s.outboundQueue != [] && !(a.PumpResumes? && !a.ok)
    ensures Step(s, a).outboundQueue == s.outboundQueue && Step(s, a).destroyed
  {}

  lemma DestroyedStaysIdle(s: State, a: Action)
    requires s.destroyed && s.pump.Idle?
    ensures Step(s, a).outboundQueue == s.outboundQueue && Step(s, a).destroyed && Step(s, a).pump.Idle?
  {}

  lemma {:induction false} IdleQueueStays(s: State, actions: seq<Action>)
    requires s.destroyed && s.pump.Idle?
    ensures var t := Run(s, actions); t.outboundQueue == s.outboundQueue && t.destroyed && t.pump.Idle?
  {
    if actions != [] {
      hide Step;
      IdleQueueStays(s, actions[..|actions| - 1]);
      DestroyedStaysIdle(Run(s, actions[..|actions| - 1]), actions[|actions| - 1]);
    }
  }

  /** After the peer's close no step but a failing write settles what is queued. */
  lemma {:induction false} PeerCloseStrandsTheQueue(s: State, actions: seq<Action>)
    requires s.destroyed && s.outboundQueue != []
    requires forall i :: 0 <= i < |actions| ==> !(actions[i].PumpResumes? && !actions[i].ok)
    ensures Run(s, actions).outboundQueue == s.outboundQueue && Run(s, actions).destroyed
  {
    if actions != [] {
      hide Step;
      PeerCloseStrandsTheQueue(s, actions[..|actions| - 1]);
      DestroyedKeepsQueue(Run(s, actions[..|actions| - 1]), actions[|actions| - 1]);
    }
  }

  /** Once the socket is destroyed, what is queued can still be settled exactly while a write is in flight. */
  lemma {:induction false} StrandedExactly(s: State)
    requires s.destroyed && s.outboundQueue != []
    ensures s.pump.Writing? <==> exists actions :: Run(s, actions).outboundQueue != s.outboundQueue
  {
    if s.pump.Writing? {
      var a := PumpResumes(false, false);
      assert Step(s, a).outboundQueue == [];
      RunOfOne(s, a);
      assert Run(s, [a]).outboundQueue != s.outboundQueue;
    } else {
      forall actions ensures Run(s, actions).outboundQueue == s.outboundQueue { IdleQueueStays(s, actions); }
    }
  }

  const TwoSent: seq<Action> := [DoSend(MinBytes, false), DoSend(MinBytes, false), PeerCloses(false), PumpResumes(true, false)]

  /** A run after which a message is stranded: it is neither on the wire nor will it ever be settled. */
  lemma {:induction false} StrandedIsReached(more: seq<Action>)
    ensures var s := Run(Fresh(true), TwoSent);
            && s.destroyed && s.pump.Idle? && s.outboundQueue == [Entry(1, MinBytes)] && s.wire == [Data(0, false), CloseLine]
            && Run(s, more).outboundQueue == s.outboundQueue
  {
    var a1: seq<Action> := [DoSend(MinBytes, false)];
    var a2 := a1 + [DoSend(MinBytes, false)];
    var a3 := a2 + [PeerCloses(false)];
    assert a3 + [PumpResumes(true, false)] == TwoSent;
    RunOfOne(Fresh(true), DoSend(MinBytes, false));
    RunNext(Fresh(true), a1, DoSend(MinBytes, false));
    RunNext(Fresh(true), a2, PeerCloses(false));
    RunNext(Fresh(true), a3, PumpResumes(true, false));
    hide Run;
    var s1 := Fresh(true).(outboundBytes := MinBytes, pump := Writing(Entry(0, MinBytes)), nextId := 1, wire := [Data(0, false)]);
    assert Step(Fresh(true), DoSend(MinBytes, false)) == s1;
    var s2 := s1.(outboundQueue := [Entry(1, MinBytes)], outboundBytes := 2 * MinBytes, nextId := 2);
    assert Step(s1, DoSend(MinBytes, false)) == s2;
    var s3 := s2.(destroyed := true, wire := [Data(0, false), CloseLine]);
    assert Step(s2, PeerCloses(false)) == s3;
    IdleQueueStays(Run(Fresh(true), TwoSent), more);
  }

  // ---------------------------------------------------------------- the order of all messages

  /** The numbers of all messages on the wire. */
  function Sent(wire: seq<Line>): seq<nat> {
    if wire == [] then []
    else
      var last := wire[|wire| - 1];
      Sent(wire[..|wire| - 1]) + (if last.Data? then [last.id] else [])
  }

  lemma {:induction false} NoEarlyIsAll(wire: seq<Line>)
    requires OnWire(wire, true) == []
    ensures Sent(wire) == OnWire(wire, false)
  {
    if wire != [] { NoEarlyIsAll(wire[..|wire| - 1]); }
  }

  /** On a socket that started accepted, the messages on the wire are in the order of all sends. */
  lemma {:induction false} BrokerKeepsSendOrder(actions: seq<Action>)
    ensures var s := Run(Fresh(true), actions); Ascending(Sent(s.wire), s.nextId)
  {
    hide Run, Ascending, OnWire, Sent;
    BrokerStaysPlain(actions);
    MessagesGoInOrder(true, actions);
    NoEarlyIsAll(Run(Fresh(true), actions).wire);
  }
}
