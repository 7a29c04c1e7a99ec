// Overtaking on a VWS/1 socket, step by step: what a step writes, the states from which no
// later message can be written before an early one that waits, and the runs that do it from
// all others. The early messages go out in a flush that starts behind the accept frame, the
// later ones through a pump of their own.
//
// The theorem that puts this together is in SocketOrder.dfy.

module SocketOvertaking {
  import opened VwsSocket
  import opened SocketRuns

  // ---------------------------------------------------------------- overtaking

  predicate Late(line: Line) {
    line.Data? && !line.early
  }

  /** Behind position `from`, a later message stands on the wire before one of these early ones. */
  predicate Overtaken(from: nat, mine: seq<nat>, wire: seq<Line>) {
    exists i, j :: from <= i < j < |wire| && Late(wire[i]) && wire[j].Data? && wire[j].early && wire[j].id in mine
  }

  predicate Open(s: State) {
    !s.closeSent && !s.destroyed
  }

  /** A later message can get to the pump: it is running, or the queue takes one more message, which starts it. */
  predicate Room(s: State) {
    s.pump.Writing? || (|s.outboundQueue| < MaxMessages && s.outboundBytes + MinBytes <= MaxBytes)
  }

  /**
   * The socket is open, and an early message waits behind the one that is written next: in
   * a flush that runs, or before one that the accept frame on the wire will start, when a
   * later message can get to the pump; or the accept is still to be asked for.
   */
  predicate CanOvertake(s: State) {
    && Open(s)
    && (|| (s.flush.Flushing? && s.flush.rest != [] && Room(s))
        || (s.accepting.Asked? && AcceptLine in s.wire && |s.sendQueue| >= 2 && Room(s))
        || (!s.accepted && |s.sendQueue| >= 2))
  }

  // ---------------------------------------------------------------- what a step may write

  /** The early queue loses its first message, or all, or gets one more behind. */
  predicate EarlyMoves(s: State, t: State) {
    || Early(t) == Early(s) || Early(t) == []
    || (|Early(t)| == |Early(s)| + 1 && Early(t)[..|Early(s)|] == Early(s) && Early(t)[|Early(s)|].id == s.nextId)
    || (Early(s) != [] && Early(t) == Early(s)[1..])
  }

  /** The wire is the same or one line longer: an early message from the front, or a later one from a pump that may run. */
  predicate WireMoves(s: State, t: State) {
    || t.wire == s.wire
    || (&& |t.wire| == |s.wire| + 1 && t.wire[..|s.wire|] == s.wire
        && var line := t.wire[|s.wire|];
           && (line.Data? && line.early ==> Early(s) != [] && line.id == Early(s)[0].id)
           && (Late(line) ==> Open(s) && s.acceptWritten && (Room(s) || s.flush.Ending?)))
  }

  lemma SendMoves(s: State, bytes: nat, threw: bool)
    requires Stages(s) && bytes >= MinBytes
    ensures var t := Send(s, bytes, threw); EarlyMoves(s, t) && WireMoves(s, t) && t.nextId >= s.nextId
  {}

  lemma CloseMoves(s: State, threw: bool)
    requires Stages(s)
    ensures var t := Close(s, threw); EarlyMoves(s, t) && WireMoves(s, t)
    ensures var t := SendAccept(s, threw); EarlyMoves(s, t) && WireMoves(s, t)
  {}

  lemma FlushMoves(s: State, a: Action)
    requires Stages(s) && (a.AcceptResumes? || a.FlushResumes?)
    ensures var t := Step(s, a); EarlyMoves(s, t) && WireMoves(s, t)
  {}

  lemma PumpResumesMoves(s: State, ok: bool, threw: bool)
    requires Stages(s)
    ensures var t := Step(s, PumpResumes(ok, threw)); EarlyMoves(s, t) && WireMoves(s, t)
  {}

  lemma StepMoves(s: State, a: Action)
    requires Stages(s)
    ensures var t := Step(s, a); EarlyMoves(s, t) && WireMoves(s, t) && t.nextId >= s.nextId
  {
    NextIdGrows(s, a);
    match a
    case DoSend(bytes, threw) => hide Send; if bytes >= MinBytes { SendMoves(s, bytes, threw); }
    case DoClose(threw) => hide Close; CloseMoves(s, threw);
    case Accept(threw) => hide SendAccept; CloseMoves(s, threw);
    case AcceptResumes(_, _) => hide Step; FlushMoves(s, a);
    case FlushResumes(_, _) => hide Step; FlushMoves(s, a);
    case PumpResumes(ok, threw) => hide Step; PumpResumesMoves(s, ok, threw);
    case _ =>
  }

  lemma NextIdGrows(s: State, a: Action)
    ensures Step(s, a).nextId >= s.nextId
  {}

  // ---------------------------------------------------------------- states from which nothing can overtake

  /** None of these messages waits in the early queue. */
  predicate Past(mine: seq<nat>, s: State) {
    forall i :: 0 <= i < |Early(s)| ==> Early(s)[i].id !in mine
  }

  /** The accept was asked for, but the flush will never start. */
  predicate Dead(s: State) {
    s.accepted && !s.acceptWritten && !(s.accepting.Asked? && AcceptLine in s.wire)
  }

  /** Only the first early message, which goes with the start of the flush, is one of these. */
  predicate Single(mine: seq<nat>, s: State) {
    !s.acceptWritten && forall i :: 1 <= i < |s.sendQueue| ==> s.sendQueue[i].id !in mine
  }

  /** The queue takes no more messages, and the pump rests until the flush is over. */
  predicate Stuck(s: State) {
    Open(s) && s.accepted && !Room(s) && (s.flush.Flushing? || s.accepting.Asked?)
  }

  predicate Calm(mine: seq<nat>, s: State) {
    Ended(s) || Dead(s) || Single(mine, s) || Stuck(s)
  }

  predicate LateSince(from: nat, wire: seq<Line>) {
    exists i :: from <= i < |wire| && Late(wire[i])
  }

  /** Nothing was overtaken, and nothing can be: the messages are past, or nothing later was or will be written before. */
  predicate Safe(from: nat, mine: seq<nat>, s: State) {
    && from <= |s.wire| && (forall i :: 0 <= i < |mine| ==> mine[i] < s.nextId)
    && !Overtaken(from, mine, s.wire)
    && (Past(mine, s) || (!LateSince(from, s.wire) && Calm(mine, s)))
  }

  /** In a calm state no later message is written. */
  lemma CalmWritesNothingLate(mine: seq<nat>, s: State, a: Action)
    requires Stages(s) && Calm(mine, s) && !Past(mine, s)
    ensures var t := Step(s, a); t.wire == s.wire || (|t.wire| == |s.wire| + 1 && t.wire[..|s.wire|] == s.wire && !Late(t.wire[|s.wire|]))
  {
    StepMoves(s, a);
    hide Step;
  }

  lemma EndedStays(s: State, a: Action)
    requires Ended(s)
    ensures Ended(Step(s, a))
  {}

  lemma DeadStays(s: State, a: Action)
    requires Stages(s) && Dead(s)
    ensures Dead(Step(s, a))
  {
    var t := Step(s, a);
    DeadWritesNoAccept(s, a);
  }

  lemma DeadWritesNoAccept(s: State, a: Action)
    requires Stages(s) && Dead(s)
    ensures var t := Step(s, a);
            && t.accepted && !t.acceptWritten && (t.accepting == s.accepting || !t.accepting.Asked?)
            && (AcceptLine in t.wire ==> AcceptLine in s.wire)
  {}

  lemma SingleStays(mine: seq<nat>, s: State, a: Action)
    requires Stages(s) && Single(mine, s) && forall i :: 0 <= i < |mine| ==> mine[i] < s.nextId
    ensures var t := Step(s, a); Single(mine, t) || Past(mine, t)
  {}

  lemma StuckStays(mine: seq<nat>, s: State, a: Action)
    requires Stages(s) && Stuck(s)
    ensures var t := Step(s, a); Stuck(t) || Ended(t) || Dead(t) || Past(mine, t)
  {}

  lemma CalmStays(mine: seq<nat>, s: State, a: Action)
    requires Stages(s) && Calm(mine, s) && forall i :: 0 <= i < |mine| ==> mine[i] < s.nextId
    ensures var t := Step(s, a); Calm(mine, t) || Past(mine, t)
  {
    hide Step, Dead, Single, Stuck, Past, Ended;
    if Ended(s) { EndedStays(s, a); }
    else if Dead(s) { DeadStays(s, a); }
    else if Single(mine, s) { SingleStays(mine, s, a); }
    else { StuckStays(mine, s, a); }
  }

  lemma PastStays(mine: seq<nat>, s: State, a: Action)
    requires Stages(s) && Past(mine, s) && forall i :: 0 <= i < |mine| ==> mine[i] < s.nextId
    ensures Past(mine, Step(s, a))
  {
    hide Step;
    StepMoves(s, a);
    var t := Step(s, a);
    if |Early(t)| == |Early(s)| + 1 {
      assert forall i :: 0 <= i < |Early(s)| ==> Early(t)[i] == Early(t)[..|Early(s)|][i];
    }
  }

  /** One more line overtakes only as an early one of these behind a later one. */
  lemma OneLineMore(from: nat, mine: seq<nat>, wire: seq<Line>, more: seq<Line>)
    requires from <= |wire| && |more| == |wire| + 1 && more[..|wire|] == wire && !Overtaken(from, mine, wire)
    ensures !(more[|wire|].Data? && more[|wire|].early && more[|wire|].id in mine) ==> !Overtaken(from, mine, more)
    ensures !LateSince(from, wire) ==> !Overtaken(from, mine, more)
    ensures !LateSince(from, wire) && !Late(more[|wire|]) ==> !LateSince(from, more)
  {
    assert forall i :: 0 <= i < |wire| ==> more[i] == wire[i];
  }

  lemma SafeStays(from: nat, mine: seq<nat>, s: State, a: Action)
    requires Stages(s) && Safe(from, mine, s)
    ensures Safe(from, mine, Step(s, a))
  {
    var t := Step(s, a);
    StepMoves(s, a);
    hide Step, Calm, Overtaken, LateSince, Late;
    if t.wire != s.wire { OneLineMore(from, mine, s.wire, t.wire); }
    if Past(mine, s) { PastStays(mine, s, a); }
    else {
      CalmWritesNothingLate(mine, s, a);
      CalmStays(mine, s, a);
    }
  }

  lemma {:induction false} SafeRun(from: nat, mine: seq<nat>, s: State, actions: seq<Action>)
    requires Inv(s) && Safe(from, mine, s)
    ensures Safe(from, mine, Run(s, actions))
  {
    if actions == [] {
    } else {
      hide Step, Safe, Inv;
      var before := actions[..|actions| - 1];
      SafeRun(from, mine, s, before);
      RunKeepsInv(s, before);
      InvMeans(Run(s, before));
      SafeStays(from, mine, Run(s, before), actions[|actions| - 1]);
    }
  }

  // ---------------------------------------------------------------- runs that overtake

  lemma {:induction false} RunOn(s: State, a: seq<Action>, b: seq<Action>)
    ensures Run(s, a + b) == Run(Run(s, a), b)
  {
    hide Step;
    if b == [] {
      assert a + b == a;
    } else {
      assert (a + b)[..|a + b| - 1] == a + b[..|b| - 1];
      RunOn(s, a, b[..|b| - 1]);
    }
  }

  /** The actions that get a later message to the wire. */
  function WriteLate(s: State): seq<Action> {
    if s.pump.Idle? then [DoSend(MinBytes, false)]
    else if s.outboundQueue != [] then [PumpResumes(true, false)]
    else [PumpResumes(true, false), DoSend(MinBytes, false)]
  }

  lemma SendWritesLate(s: State)
    requires Open(s) && s.acceptWritten && s.accepted && s.pump.Idle? && Room(s)
    ensures var t := Step(s, DoSend(MinBytes, false));
            t.flush == s.flush && |t.wire| == |s.wire| + 1 && t.wire[..|s.wire|] == s.wire && Late(t.wire[|s.wire|])
  {}

  lemma ResumeWritesLate(s: State)
    requires Open(s) && s.pump.Writing? && s.outboundQueue != []
    ensures var t := Step(s, PumpResumes(true, false));
            t.flush == s.flush && |t.wire| == |s.wire| + 1 && t.wire[..|s.wire|] == s.wire && Late(t.wire[|s.wire|])
  {}

  lemma ResumeRests(s: State)
    requires Open(s) && s.pump.Writing? && s.outboundQueue == [] && s.outboundBytes == InFlight(s)
    ensures var t := Step(s, PumpResumes(true, false)); t == s.(pump := Idle, outboundBytes := 0)
  {}

  lemma LateIsWritten(s: State)
    requires Inv(s) && Open(s) && s.acceptWritten && Room(s)
    ensures var t := Run(s, WriteLate(s));
            t.flush == s.flush && |t.wire| == |s.wire| + 1 && t.wire[..|s.wire|] == s.wire && Late(t.wire[|s.wire|])
  {
    InvMeans(s);
    hide Step, Run, Inv;
    if s.pump.Idle? {
      RunOfOne(s, DoSend(MinBytes, false));
      SendWritesLate(s);
    } else {
      RunOfOne(s, PumpResumes(true, false));
      if s.outboundQueue != [] { ResumeWritesLate(s); }
      else {
        ResumeRests(s);
        var u := Step(s, PumpResumes(true, false));
        RunNext(s, [PumpResumes(true, false)], DoSend(MinBytes, false));
        assert [PumpResumes(true, false)] + [DoSend(MinBytes, false)] == WriteLate(s);
        SendWritesLate(u);
      }
    }
  }

  lemma FlushWritesEarly(s: State)
    requires s.flush.Flushing? && s.flush.rest != []
    ensures Step(s, FlushResumes(true, false)).wire == s.wire + [Data(s.flush.rest[0].id, true)]
  {}

  /** In a flush: a later message, and then the next early one. */
  lemma OvertakesFlush(s: State)
    requires Inv(s) && Open(s) && s.flush.Flushing? && s.flush.rest != [] && Room(s)
    ensures var actions := WriteLate(s) + [FlushResumes(true, false)];
            forall from: nat, mine :: from <= |s.wire| && s.flush.rest[0].id in mine ==> Overtaken(from, mine, Run(s, actions).wire)
  {
    InvMeans(s);
    hide Step, Run, Inv;
    LateIsWritten(s);
    var t := Run(s, WriteLate(s));
    RunNext(s, WriteLate(s), FlushResumes(true, false));
    FlushWritesEarly(t);
    var wire := Step(t, FlushResumes(true, false)).wire;
    assert Late(wire[|s.wire|]) && wire[|s.wire| + 1] == Data(s.flush.rest[0].id, true);
  }

  lemma AcceptStartsFlush(s: State)
    requires Stages(s) && Open(s) && s.accepting.Asked? && AcceptLine in s.wire && |s.sendQueue| >= 2
    ensures var t := Step(s, AcceptResumes(true, false));
            && Open(t) && t.flush == Flushing(s.sendQueue[1..]) && |t.wire| == |s.wire| + 1
            && t.pump == s.pump && t.outboundQueue == s.outboundQueue && t.outboundBytes == s.outboundBytes
  {}

  /** Before the flush: its start writes the first early message, and a later one goes before the second. */
  lemma OvertakesAccept(s: State) returns (actions: seq<Action>)
    requires Inv(s) && Open(s) && s.accepting.Asked? && AcceptLine in s.wire && |s.sendQueue| >= 2 && Room(s)
    ensures forall from: nat, mine :: from <= |s.wire| && s.sendQueue[1].id in mine ==> Overtaken(from, mine, Run(s, actions).wire)
  {
    InvMeans(s);
    var a := AcceptResumes(true, false);
    var t := Step(s, a);
    AcceptStartsFlush(s);
    StepKeepsInv(s, a);
    hide Step, Run, Inv;
    OvertakesFlush(t);
    var more := WriteLate(t) + [FlushResumes(true, false)];
    actions := [a] + more;
    RunOn(s, [a], more);
    RunOfOne(s, a);
    assert t.flush.rest[0] == s.sendQueue[1];
  }

  lemma AcceptIsAsked(s: State)
    requires Inv(s) && Open(s) && !s.accepted && |s.sendQueue| >= 2
    ensures var t := Step(s, Accept(false));
            && Open(t) && t.accepting.Asked? && AcceptLine in t.wire && |t.wire| == |s.wire| + 1 && t.sendQueue == s.sendQueue && Room(t)
  {
    InvMeans(s);
    assert Total(s.outboundQueue) == 0;
    var t := Step(s, Accept(false));
    assert t.wire[|s.wire|] == AcceptLine;
  }

  lemma {:induction false} SomeRunOvertakes(s: State) returns (actions: seq<Action>)
    requires Inv(s) && CanOvertake(s)
    ensures Overtaken(|s.wire|, Ids(Early(s)), Run(s, actions).wire)
  {
    InvMeans(s);
    if s.flush.Flushing? && s.flush.rest != [] && Room(s) {
      hide Run, Inv;
      actions := WriteLate(s) + [FlushResumes(true, false)];
      OvertakesFlush(s);
      assert Ids(Early(s))[0] == s.flush.rest[0].id;
    } else if s.accepting.Asked? && AcceptLine in s.wire && |s.sendQueue| >= 2 && Room(s) {
      hide Run, Inv;
      actions := OvertakesAccept(s);
      assert Ids(Early(s))[1] == s.sendQueue[1].id;
    } else {
      var a := Accept(false);
      AcceptIsAsked(s);
      StepKeepsInv(s, a);
      hide Run, Step, Inv;
      var more := OvertakesAccept(Step(s, a));
      actions := [a] + more;
      RunOn(s, [a], more);
      RunOfOne(s, a);
      assert Ids(Early(s))[1] == s.sendQueue[1].id;
    }
  }

  // ---------------------------------------------------------------- exactly when

  lemma CannotIsSafe(s: State)
    requires Inv(s) && !CanOvertake(s)
    ensures Safe(|s.wire|, Ids(Early(s)), s)
  {
    InvMeans(s);
    var mine := Ids(Early(s));
    EarlyIdsAreOld(s);
    hide Inv;
    if Ended(s) {
    } else if s.acceptWritten {
      assert Early(s) != [] ==> s.flush.Flushing? && s.flush.rest != [];
    } else {
      assert s.flush.NoFlush?;
    }
  }

  lemma EarlyIdsAreOld(s: State)
    requires Inv(s)
    ensures forall i :: 0 <= i < |Ids(Early(s))| ==> Ids(Early(s))[i] < s.nextId
  {
    var before, ids := OnWire(s.wire, true), Ids(Early(s));
    assert forall i :: 0 <= i < |ids| ==> (before + ids)[|before| + i] == ids[i];
  }
}
