// The operations of a VWS socket, one by one, over its own fields: what each of them puts on
// the wire, what it leaves waiting, and when it does nothing at all. The limits stand here
// as numbers. Two theorems over runs close the file: no message is lost while writes
// succeed, and there is at most one close frame.

module SocketLaws {
  import opened VwsSocket
  import opened SocketRuns

  // ---------------------------------------------------------------- one call

  predicate Open(s: State) {
    !s.closeSent && !s.destroyed
  }

  /** A message is taken exactly if the socket is open and there is room, counting what is in flight. */
  predicate HasRoom(s: State, bytes: nat) {
    && bytes <= 1048576
    && if !s.accepted then |s.sendQueue| < 64 && Total(s.sendQueue) + bytes <= 1048576
       else |s.outboundQueue| < 64 && Total(s.outboundQueue) + InFlight(s) + bytes <= 1048576
  }

  /** A close by this side: one close frame, unless the write throws; nothing waits any more but what a flush has begun. */
  predicate Closes(s: State, t: State, threw: bool) {
    && t.wire == (if threw then s.wire else s.wire + [CloseLine]) && t.closeSent && t.outboundQueue == [] && t.outboundBytes == 0
    && t.nextId == s.nextId && t.flush == s.flush && t.pump == s.pump && t.destroyed == s.destroyed && t.accepted == s.accepted
    && t.sendQueue == (if s.accepted then s.sendQueue else [])
  }

  lemma CloseLaw(s: State, threw: bool)
    ensures Close(s, threw) == s || (Open(s) && Closes(s, Close(s, threw), threw))
    ensures Open(s) ==> Closes(s, Close(s, threw), threw)
  {}

  /** The new message stands last among those of its kind: in its queue, or on the wire at once when nothing is before it. */
  predicate TakesMessage(s: State, t: State, bytes: nat, threw: bool) {
    && t.nextId == s.nextId + 1 && !t.closeSent
    && if !s.accepted then
         t.sendQueue == s.sendQueue + [Entry(s.nextId, bytes)] && t.wire == s.wire && t.outboundQueue == s.outboundQueue
       else if s.acceptWritten && s.pump.Idle? then
         && t.pump.Writing? && [t.pump.entry] + t.outboundQueue == s.outboundQueue + [Entry(s.nextId, bytes)]
         && t.wire == (if threw then s.wire else s.wire + [Data(t.pump.entry.id, false)])
       else t.outboundQueue == s.outboundQueue + [Entry(s.nextId, bytes)] && t.pump == s.pump && t.wire == s.wire
  }

  /** Send takes the message exactly if there is room; without room it closes the socket, and a closed one ignores it. */
  lemma SendExactly(s: State, bytes: nat, threw: bool)
    requires Inv(s)
    ensures var t := Send(s, bytes, threw);
            if !Open(s) then t == s else if HasRoom(s, bytes) then TakesMessage(s, t, bytes, threw) else Closes(s, t, threw)
  {
    InvMeans(s);
    CloseLaw(s, threw);
    hide Close, Inv, Awake, Stages, Total, Closes;
    if Open(s) && HasRoom(s, bytes) { hide Send; TakenExactly(s, bytes, threw); } else { hide TakesMessage, StartPump; }
  }

  lemma TakenExactly(s: State, bytes: nat, threw: bool)
    requires Inv(s) && Open(s) && HasRoom(s, bytes)
    ensures TakesMessage(s, Send(s, bytes, threw), bytes, threw)
  {
    InvMeans(s);
    hide Inv;
    if !s.accepted { EarlyTaken(s, bytes, threw); }
    else if s.acceptWritten && s.pump.Idle? { PumpedTaken(s, bytes, threw); }
    else { LaterTaken(s, bytes, threw); }
  }

  lemma EarlyTaken(s: State, bytes: nat, threw: bool)
    requires Counted(s) && Open(s) && HasRoom(s, bytes) && !s.accepted
    ensures TakesMessage(s, Send(s, bytes, threw), bytes, threw)
  {
    hide Close, StartPump, Total;
  }

  lemma LaterTaken(s: State, bytes: nat, threw: bool)
    requires Counted(s) && Open(s) && HasRoom(s, bytes) && s.accepted && !(s.acceptWritten && s.pump.Idle?)
    ensures TakesMessage(s, Send(s, bytes, threw), bytes, threw)
  {
    hide Close, PumpOn, Total;
  }

  lemma PumpedTaken(s: State, bytes: nat, threw: bool)
    requires Counted(s) && Open(s) && HasRoom(s, bytes) && s.accepted && s.acceptWritten && s.pump.Idle?
    ensures TakesMessage(s, Send(s, bytes, threw), bytes, threw)
  {
    var e := Entry(s.nextId, bytes);
    var q := s.outboundQueue + [e];
    assert [q[0]] + q[1..] == q;
    var s1 := s.(outboundQueue := q, outboundBytes := s.outboundBytes + bytes, nextId := s.nextId + 1);
    PumpBegins(s1, threw);
    hide PumpOn, Close, Total;
    assert Send(s, bytes, threw) == PumpOn(s1, threw);
    hide Send;
  }

  lemma PumpBegins(s: State, threw: bool)
    requires !s.destroyed && s.outboundQueue != []
    ensures var t := PumpOn(s, threw);
            && t.nextId == s.nextId && t.closeSent == s.closeSent && t.outboundQueue == s.outboundQueue[1..]
            && t.pump == Writing(s.outboundQueue[0]) && t.wire == (if threw then s.wire else s.wire + [Data(s.outboundQueue[0].id, false)])
  {}

  /** The accept frame goes out once, on an open or closing socket that was not accepted. */
  lemma AcceptExactly(s: State, threw: bool)
    ensures var t := SendAccept(s, threw);
            if s.destroyed then t.wire == s.wire && t.sendQueue == []
            else if s.accepted || !s.accepting.NotAsked? then t == s
            else t.accepted && t.accepting.Asked? && t.sendQueue == s.sendQueue && t.wire == if threw then s.wire else s.wire + [AcceptLine]
  {}

  /** When the accept frame is out, all early messages go over to the flush, the first of them to the wire. */
  lemma FlushBeginsExactly(s: State, threw: bool)
    requires s.accepting.Asked? && AcceptLine in s.wire
    ensures var t := Step(s, AcceptResumes(true, threw));
            && t.acceptWritten && t.sendQueue == [] && t.outboundQueue == s.outboundQueue && t.nextId == s.nextId
            && if s.sendQueue == [] then t.flush.Ending? && t.wire == s.wire
               else t.flush == Flushing(s.sendQueue[1..]) && t.wire == if threw then s.wire else s.wire + [Data(s.sendQueue[0].id, true)]
  {}

  /** A close by the peer destroys the socket; a close frame goes back exactly if none was sent. */
  lemma PeerCloseExactly(s: State, threw: bool)
    ensures var t := Step(s, PeerCloses(threw));
            && t.destroyed && t.outboundQueue == s.outboundQueue && t.sendQueue == s.sendQueue
            && t.wire == if s.destroyed || s.closeSent || threw then s.wire else s.wire + [CloseLine]
  {}

  /** The end of the stream destroys it too, and fails what is queued. */
  lemma StreamEndExactly(s: State)
    ensures var t := Step(s, StreamEnds);
            && t.destroyed && t.wire == s.wire && (!s.destroyed ==> t.outboundQueue == [] && (!s.accepted ==> t.sendQueue == []))
  {}

  /** A pumped line that is out makes room and lets the next one go; one that fails empties the queue. */
  lemma PumpExactly(s: State, ok: bool, threw: bool)
    requires s.pump.Writing?
    ensures var t := Step(s, PumpResumes(ok, threw));
            && t.nextId == s.nextId && t.sendQueue == s.sendQueue && t.flush == s.flush
            && if !ok then t.pump.Idle? && t.outboundQueue == [] && t.outboundBytes == 0 && t.wire == s.wire
               else if s.destroyed || s.outboundQueue == [] then t.pump.Idle? && t.outboundQueue == s.outboundQueue && t.wire == s.wire
               else
                 && t.pump == Writing(s.outboundQueue[0]) && t.outboundQueue == s.outboundQueue[1..]
                 && t.wire == if threw then s.wire else s.wire + [Data(s.outboundQueue[0].id, false)]
  {}

  /** The flush writes its next early message, and gives up what is left when a write fails; behind it the pump starts. */
  lemma FlushExactly(s: State, ok: bool, threw: bool)
    requires s.flush.Flushing?
    ensures var t := Step(s, FlushResumes(ok, threw));
            && t.outboundQueue == s.outboundQueue && t.pump == s.pump
            && if !ok || s.flush.rest == [] then t.flush.Ending? && t.wire == s.wire
               else t.flush == Flushing(s.flush.rest[1..]) && t.wire == if threw then s.wire else s.wire + [Data(s.flush.rest[0].id, true)]
  {}

  /** A ping goes out exactly on an open socket. */
  lemma PingExactly(s: State, threw: bool)
    ensures Step(s, DoPing(threw)).wire == if Open(s) && !threw then s.wire + [Control] else s.wire
  {}

  /** Terminating destroys the socket and fails what is queued, and writes nothing. */
  lemma TerminateExactly(s: State)
    ensures var t := Step(s, Terminate); t.destroyed && t.wire == s.wire && (!s.destroyed ==> t.outboundQueue == [])
  {}

  // ---------------------------------------------------------------- no message gets lost

  predicate HasId(entries: seq<Entry>, id: nat) {
    exists i :: 0 <= i < |entries| && entries[i].id == id
  }

  /** The message is on the wire, or waits for its turn. */
  predicate Somewhere(s: State, id: nat) {
    || Data(id, true) in s.wire || Data(id, false) in s.wire
    || HasId(s.sendQueue, id) || HasId(s.outboundQueue, id) || (s.flush.Flushing? && HasId(s.flush.rest, id))
  }

  /** Every write of the action succeeds. */
  predicate Smooth(a: Action) {
    match a
    case DoSend(_, threw) => !threw
    case DoClose(threw) => !threw
    case DoPing(threw) => !threw
    case Accept(threw) => !threw
    case AcceptResumes(ok, threw) => ok && !threw
    case FlushResumes(ok, threw) => ok && !threw
    case PumpResumes(ok, threw) => ok && !threw
    case _ => true
  }

  lemma HeadOrRest(entries: seq<Entry>, id: nat)
    requires HasId(entries, id)
    ensures entries != [] && (entries[0].id == id || HasId(entries[1..], id))
  {
    var i :| 0 <= i < |entries| && entries[i].id == id;
    if i > 0 { assert entries[1..][i - 1].id == id; }
  }

  lemma HasAppended(entries: seq<Entry>, e: Entry)
    ensures forall id :: HasId(entries, id) ==> HasId(entries + [e], id)
    ensures HasId(entries + [e], e.id)
  {
    assert (entries + [e])[|entries|] == e;
    forall id | HasId(entries, id) ensures HasId(entries + [e], id) {
      var i :| 0 <= i < |entries| && entries[i].id == id;
      assert (entries + [e])[i].id == id;
    }
  }

  lemma PumpLosesNone(s: State, id: nat)
    requires Somewhere(s, id)
    ensures Somewhere(PumpOn(s, false), id)
  {
    if HasId(s.outboundQueue, id) { HeadOrRest(s.outboundQueue, id); }
    hide HasId;
  }

  lemma FlushLosesNone(s: State, entries: seq<Entry>, id: nat)
    requires Somewhere(s.(flush := Flushing(entries)), id)
    ensures Somewhere(FlushOn(s, entries, false), id)
  {
    if HasId(entries, id) { HeadOrRest(entries, id); }
    hide HasId;
  }

  lemma SendLosesNone(s: State, bytes: nat, id: nat)
    requires Open(s) && (id < s.nextId ==> Somewhere(s, id))
    ensures var t := Send(s, bytes, false); Open(t) && id < t.nextId ==> Somewhere(t, id)
  {
    var e := Entry(s.nextId, bytes);
    HasAppended(s.sendQueue, e);
    HasAppended(s.outboundQueue, e);
    hide HasId, PumpOn;
    var u := s.(outboundQueue := s.outboundQueue + [e], outboundBytes := s.outboundBytes + bytes, nextId := s.nextId + 1);
    if id <= s.nextId { PumpLosesNone(u, id); }
    PumpNumbers(u);
  }

  lemma PumpNumbers(s: State)
    ensures PumpOn(s, false).nextId == s.nextId
  {}

  lemma StepLosesNone(s: State, a: Action, id: nat)
    requires Inv(s) && Smooth(a) && (Open(s) && id < s.nextId ==> Somewhere(s, id))
    ensures var t := Step(s, a); Open(t) && id < t.nextId ==> Somewhere(t, id)
  {
    InvMeans(s);
    StaysOpen(s, a);
    hide HasId, Send, PumpOn, FlushOn, Inv, Counted, Awake, Somewhere;
    if Open(Step(s, a)) {
      match a
      case DoSend(bytes, _) => if bytes >= MinBytes { SendLosesNone(s, bytes, id); }
      case AcceptResumes(_, _) =>
        FlushNumbers(s, s.sendQueue);
        if id < s.nextId && s.accepting.Asked? && AcceptLine in s.wire {
          var u := DropEarly(s.(accepting := Over, acceptWritten := true));
          FlushWaits(s, u, id);
          FlushLosesNone(u, s.sendQueue, id);
        }
      case FlushResumes(_, _) => FlushStepLosesNone(s, id);
      case PumpResumes(_, _) =>
        if s.pump.Writing? {
          var left := if s.outboundBytes >= s.pump.entry.bytes then s.outboundBytes - s.pump.entry.bytes else 0;
          PumpNumbers(s.(outboundBytes := left));
          SameWaiting(s, s.(outboundBytes := left), id);
          if id < s.nextId { PumpLosesNone(s.(outboundBytes := left), id); }
        }
      case _ => OtherLosesNone(s, a, id);
    }
  }

  lemma SameWaiting(s: State, t: State, id: nat)
    requires t == s.(outboundBytes := t.outboundBytes, pump := t.pump)
    ensures Somewhere(t, id) == Somewhere(s, id)
  {
    hide HasId;
  }

  lemma OtherLosesNone(s: State, a: Action, id: nat)
    requires !a.DoSend? && !a.AcceptResumes? && !a.FlushResumes? && !a.PumpResumes? && Open(Step(s, a))
    requires id < s.nextId ==> Somewhere(s, id)
    ensures id < Step(s, a).nextId ==> Somewhere(Step(s, a), id)
  {
    hide HasId;
  }


  /** In a run of a socket whose flush has not begun. */
  lemma FlushWaits(s: State, u: State, id: nat)
    requires Somewhere(s, id) && u == DropEarly(s.(accepting := Over, acceptWritten := true)) && s.flush.NoFlush?
    ensures Somewhere(u.(flush := Flushing(s.sendQueue)), id)
  {
    hide HasId;
  }

  lemma FlushNumbers(s: State, entries: seq<Entry>)
    ensures FlushOn(s, entries, false).nextId == s.nextId
    ensures FlushOn(DropEarly(s.(accepting := Over, acceptWritten := true)), entries, false).nextId == s.nextId
  {}

  lemma FlushStepLosesNone(s: State, id: nat)
    requires Open(s) && id < s.nextId ==> Somewhere(s, id)
    ensures var t := Step(s, FlushResumes(true, false)); Open(t) && id < t.nextId ==> Somewhere(t, id)
  {
    hide HasId, PumpOn, FlushOn;
    StaysOpen(s, FlushResumes(true, false));
    if s.flush.Flushing? {
      FlushNumbers(s, s.flush.rest);
      if Open(s) && id < s.nextId { FlushLosesNone(s, s.flush.rest, id); }
    } else if s.flush.Ending? {
      PumpNumbers(s.(flush := NoFlush));
      if Open(s) && id < s.nextId { PumpLosesNone(s.(flush := NoFlush), id); }
    }
  }

  /** A socket that is open was open before. */
  lemma StaysOpen(s: State, a: Action)
    ensures Open(Step(s, a)) ==> Open(s)
  {}

  predicate AllSmooth(actions: seq<Action>) {
    forall i :: 0 <= i < |actions| ==> Smooth(actions[i])
  }

  /** While writes succeed and the socket is open, each message taken is on the wire or waits. */
  lemma {:induction false} NoMessageIsLost(alreadyAccepted: bool, actions: seq<Action>, id: nat)
    requires AllSmooth(actions)
    ensures var s := Run(Fresh(alreadyAccepted), actions); Open(s) && id < s.nextId ==> Somewhere(s, id)
  {
    hide Step, Inv, Somewhere, Smooth;
    if actions != [] {
      var before := actions[..|actions| - 1];
      NoMessageIsLost(alreadyAccepted, before, id);
      ReachableInv(alreadyAccepted, before);
      StepLosesNone(Run(Fresh(alreadyAccepted), before), actions[|actions| - 1], id);
    }
  }

  // ---------------------------------------------------------------- one close frame

  function CloseFrames(wire: seq<Line>): nat {
    if wire == [] then 0 else CloseFrames(wire[..|wire| - 1]) + (if wire[|wire| - 1].CloseLine? then 1 else 0)
  }

  lemma CloseFramesAppend(wire: seq<Line>, line: Line)
    ensures CloseFrames(wire + [line]) == CloseFrames(wire) + (if line.CloseLine? then 1 else 0)
  {
    assert (wire + [line])[..|wire|] == wire;
  }

  /** At most one close frame, and none while the socket is open. */
  predicate ClosedOnce(s: State) {
    CloseFrames(s.wire) <= (if Open(s) then 0 else 1)
  }

  lemma StepClosesOnce(s: State, a: Action)
    requires ClosedOnce(s)
    ensures ClosedOnce(Step(s, a))
  {
    hide CloseFrames, Step;
    forall line: Line ensures CloseFrames(s.wire + [line]) == CloseFrames(s.wire) + (if line.CloseLine? then 1 else 0) {
      CloseFramesAppend(s.wire, line);
    }
    if a.DoSend? { SendClosesOnce(s, a.bytes, a.threw); }
    else if a.DoClose? || a.PeerCloses? { CloseClosesOnce(s, a); }
    else { OtherClosesOnce(s, a); }
  }

  /** A line behind a wire adds one close frame or none. */
  ghost predicate Counts(wire: seq<Line>) {
    forall line: Line :: CloseFrames(wire + [line]) == CloseFrames(wire) + (if line.CloseLine? then 1 else 0)
  }

  lemma CloseClosesOnce(s: State, a: Action)
    requires ClosedOnce(s) && Counts(s.wire) && (a.DoClose? || a.PeerCloses?)
    ensures ClosedOnce(Step(s, a))
  {
    hide CloseFrames;
  }

  lemma SendClosesOnce(s: State, bytes: nat, threw: bool)
    requires ClosedOnce(s) && Counts(s.wire)
    ensures ClosedOnce(Step(s, DoSend(bytes, threw)))
  {
    hide CloseFrames, Close;
    assert ClosedOnce(Close(s, threw)) by { CloseClosesOnce(s, DoClose(threw)); }
  }

  lemma OtherClosesOnce(s: State, a: Action)
    requires ClosedOnce(s) && Counts(s.wire) && !a.DoSend? && !a.DoClose? && !a.PeerCloses?
    ensures ClosedOnce(Step(s, a))
  {
    hide CloseFrames;
  }

  lemma {:induction false} OneCloseFrame(alreadyAccepted: bool, actions: seq<Action>)
    ensures ClosedOnce(Run(Fresh(alreadyAccepted), actions))
  {
    hide Step, ClosedOnce;
    if actions == [] { FreshClosesNone(alreadyAccepted); }
    else {
      OneCloseFrame(alreadyAccepted, actions[..|actions| - 1]);
      StepClosesOnce(Run(Fresh(alreadyAccepted), actions[..|actions| - 1]), actions[|actions| - 1]);
    }
  }

  lemma FreshClosesNone(alreadyAccepted: bool)
    ensures ClosedOnce(Fresh(alreadyAccepted))
  {}

  /** An accept frame that does not get out leaves the early messages waiting for good: no flush begins any more. */
  lemma AcceptFailsExactly(s: State, threw: bool)
    requires s.accepting.Asked?
    ensures Step(s, AcceptResumes(false, threw)) == s.(accepting := Over)
  {}
}
