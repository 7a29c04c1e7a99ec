// The sending side of a VWS/1 socket object: messages sent before the handshake is
// accepted wait in one queue, later ones in another that a pump writes to the stream one
// at a time. Closing, a peer's close, and failing writes may come between any two steps.
//
// This file has the steps, the invariant that each of them keeps, and the object itself;
// what it means for whole runs is in SocketRuns.dfy.

module VwsSocket {
  const MaxBytes: nat := 1024 * 1024
  const MaxMessages: nat := 64

  /** The line of an empty text message, the shortest there is. */
  const MinBytes: nat := 26

  // ---------------------------------------------------------------- state

  /** A message, numbered in the order of the calls to send; bytes counts its line. */
  datatype Entry = Entry(id: nat, bytes: nat)

  /** What is written to the stream; early messages were sent before the accept. */
  datatype Line = AcceptLine | Data(id: nat, early: bool) | Control | CloseLine

  datatype Pump = Idle | Writing(entry: Entry)

  datatype Accepting = NotAsked | Asked | Over

  /** The flush of the early messages: the one being written, and those behind it. */
  datatype Flush = NoFlush | Flushing(rest: seq<Entry>) | Ending

  datatype State = State(
    accepted: bool,
    acceptWritten: bool,
    closeSent: bool,
    destroyed: bool,
    sendQueue: seq<Entry>,
    sendQueueBytes: nat,
    outboundQueue: seq<Entry>,
    outboundBytes: nat,
    pump: Pump,
    accepting: Accepting,
    flush: Flush,
    nextId: nat,
    wire: seq<Line>)

  /** A Broker's socket starts accepted, a Guest's does not. */
  function Fresh(alreadyAccepted: bool): State {
    State(alreadyAccepted, alreadyAccepted, false, false, [], 0, [], 0, Idle, NotAsked, NoFlush, 0, [])
  }

  function Total(entries: seq<Entry>): nat {
    if entries == [] then 0 else Total(entries[..|entries| - 1]) + entries[|entries| - 1].bytes
  }

  function Ids(entries: seq<Entry>): (r: seq<nat>)
    ensures |r| == |entries| && forall i :: 0 <= i < |entries| ==> r[i] == entries[i].id
  {
    if entries == [] then [] else [entries[0].id] + Ids(entries[1..])
  }

  // ---------------------------------------------------------------- steps

  /** A write that throws leaves nothing on the wire. */
  function Put(s: State, line: Line, threw: bool): State {
    if threw then s else s.(wire := s.wire + [line])
  }

  function FailOutbound(s: State): State {
    s.(outboundQueue := [], outboundBytes := 0)
  }

  function DropEarly(s: State): State {
    s.(sendQueue := [], sendQueueBytes := 0)
  }

  /** The pump's loop up to its next await. */
  function PumpOn(s: State, threw: bool): State {
    if s.destroyed || s.outboundQueue == [] then s.(pump := Idle)
    else
      var e := s.outboundQueue[0];
      Put(s.(outboundQueue := s.outboundQueue[1..], pump := Writing(e)), Data(e.id, false), threw)
  }

  function StartPump(s: State, threw: bool): State {
    if s.pump.Writing? then s else PumpOn(s, threw)
  }

  function Close(s: State, threw: bool): State {
    if s.closeSent || s.destroyed then s
    else
      var s1 := FailOutbound(s.(closeSent := true));
      Put(if s1.accepted then s1 else DropEarly(s1), CloseLine, threw)
  }

  function Send(s: State, bytes: nat, threw: bool): State {
    if s.closeSent || s.destroyed then s
    else if bytes > MaxBytes then Close(s, threw)
    else if !s.accepted then
      if |s.sendQueue| >= MaxMessages || s.sendQueueBytes + bytes > MaxBytes then Close(s, threw)
      else s.(sendQueue := s.sendQueue + [Entry(s.nextId, bytes)], sendQueueBytes := s.sendQueueBytes + bytes, nextId := s.nextId + 1)
    else if |s.outboundQueue| >= MaxMessages || s.outboundBytes + bytes > MaxBytes then Close(s, threw)
    else
      var s1 := s.(outboundQueue := s.outboundQueue + [Entry(s.nextId, bytes)], outboundBytes := s.outboundBytes + bytes,
                   nextId := s.nextId + 1);
      if s.acceptWritten then StartPump(s1, threw) else s1
  }

  /** The next early message, or the end of the flush. */
  function FlushOn(s: State, entries: seq<Entry>, threw: bool): State {
    if entries == [] then s.(flush := Ending)
    else Put(s.(flush := Flushing(entries[1..])), Data(entries[0].id, true), threw)
  }

  function SendAccept(s: State, threw: bool): State {
    if s.destroyed then DropEarly(s)
    else if s.accepting != NotAsked || s.accepted then s
    else Put(s.(accepted := true, accepting := Asked), AcceptLine, threw)
  }

  datatype Action =
    | DoSend(bytes: nat, threw: bool)
    | DoClose(threw: bool)
    | DoPing(threw: bool)
    | Accept(threw: bool)
    | AcceptResumes(ok: bool, threw: bool)
    | FlushResumes(ok: bool, threw: bool)
    | PumpResumes(ok: bool, threw: bool)
    | PeerCloses(threw: bool)
    | StreamEnds                    // the stream ended or closed
    | Terminate                     // terminate(), or the close handshake timed out

  function Step(s: State, a: Action): State {
    match a
    case DoSend(bytes, threw) => if bytes < MinBytes then s else Send(s, bytes, threw)
    case DoClose(threw) => Close(s, threw)
    case DoPing(threw) => if s.closeSent || s.destroyed then s else Put(s, Control, threw)
    case Accept(threw) => SendAccept(s, threw)
    case AcceptResumes(ok, threw) =>
      if !s.accepting.Asked? || (ok && AcceptLine !in s.wire) then s
      else if !ok then s.(accepting := Over)
      else FlushOn(DropEarly(s.(accepting := Over, acceptWritten := true)), s.sendQueue, threw)
    case FlushResumes(ok, threw) =>
      if s.flush.Flushing? then FlushOn(s, if ok then s.flush.rest else [], threw)
      else if s.flush.Ending? then StartPump(s.(flush := NoFlush), threw)
      else s
    case PumpResumes(ok, threw) =>
      if !s.pump.Writing? then s
      else if ok then
        var left := if s.outboundBytes >= s.pump.entry.bytes then s.outboundBytes - s.pump.entry.bytes else 0;
        PumpOn(s.(outboundBytes := left), threw)
      else FailOutbound(s.(pump := Idle))
    case PeerCloses(threw) =>
      if s.destroyed then s
      else if s.closeSent then s.(destroyed := true)
      else Put(s.(destroyed := true), CloseLine, threw)
    case StreamEnds =>
      if s.destroyed then s
      else
        var s1 := FailOutbound(s.(destroyed := true));
        if s1.accepted then s1 else DropEarly(s1)
    case Terminate => if s.destroyed then s else FailOutbound(s.(destroyed := true))
  }

  function Run(s: State, actions: seq<Action>): State {
    if actions == [] then s else Step(Run(s, actions[..|actions| - 1]), actions[|actions| - 1])
  }

  // ---------------------------------------------------------------- invariant

  /** The numbers of the early, or of the later, messages on the wire. */
  function OnWire(wire: seq<Line>, early: bool): seq<nat> {
    if wire == [] then []
    else
      var last := wire[|wire| - 1];
      OnWire(wire[..|wire| - 1], early) + (if last.Data? && last.early == early then [last.id] else [])
  }

  predicate Ascending(ids: seq<nat>, bound: nat) {
    && (forall i, j :: 0 <= i < j < |ids| ==> ids[i] < ids[j])
    && (forall i :: 0 <= i < |ids| ==> ids[i] < bound)
  }

  predicate Ordered(wire: seq<Line>, early: bool, waiting: seq<Entry>, bound: nat) {
    Ascending(OnWire(wire, early) + Ids(waiting), bound)
  }

  /** The early messages still to be written. */
  function Early(s: State): seq<Entry> {
    if s.flush.Flushing? then s.flush.rest else s.sendQueue
  }

  /** Each kind of message goes to the wire in the order of the calls, and only once. */
  predicate InOrder(s: State) {
    Ordered(s.wire, false, s.outboundQueue, s.nextId) && Ordered(s.wire, true, Early(s), s.nextId)
  }

  function InFlight(s: State): nat {
    if s.pump.Writing? then s.pump.entry.bytes else 0
  }

  predicate Counted(s: State) {
    && (!s.closeSent && !s.destroyed ==> s.outboundBytes == Total(s.outboundQueue) + InFlight(s))
    && s.outboundBytes <= MaxBytes && |s.outboundQueue| <= MaxMessages
    && (!s.closeSent && !s.destroyed ==> s.sendQueueBytes == Total(s.sendQueue))
    && s.sendQueueBytes <= MaxBytes && |s.sendQueue| <= MaxMessages
  }

  /** Nobody waits in the queue while the pump sleeps. */
  predicate Awake(s: State) {
    s.outboundQueue != [] && s.acceptWritten && !s.destroyed ==> s.pump.Writing? || !s.flush.NoFlush?
  }

  predicate Stages(s: State) {
    && (s.acceptWritten ==> s.accepted && s.sendQueue == [])
    && (s.accepting.Asked? ==> s.accepted && !s.acceptWritten)
    && (!s.accepted ==> s.outboundQueue == [] && s.accepting.NotAsked?)
    && (!s.flush.NoFlush? || s.pump.Writing? ==> s.acceptWritten)
    && (s.closeSent ==> s.outboundQueue == [] && (!s.accepted ==> s.sendQueue == []))
    && (CloseLine in s.wire ==> s.closeSent || s.destroyed)
  }

  predicate Inv(s: State) {
    InOrder(s) && Counted(s) && Awake(s) && Stages(s)
  }

  // ---------------------------------------------------------------- small facts

  lemma {:induction false} TotalHead(entries: seq<Entry>)
    requires entries != []
    ensures Total(entries) == entries[0].bytes + Total(entries[1..])
  {
    if |entries| > 1 {
      TotalHead(entries[..|entries| - 1]);
      assert entries[1..][..|entries| - 2] == entries[..|entries| - 1][1..];
    } else {
      assert entries[..0] == [];
      assert Total(entries[1..]) == 0;
    }
  }

  lemma TotalAppend(entries: seq<Entry>, e: Entry)
    ensures Total(entries + [e]) == Total(entries) + e.bytes
  {
    assert (entries + [e])[..|entries|] == entries;
  }

  lemma IdsAppend(entries: seq<Entry>, e: Entry)
    ensures Ids(entries + [e]) == Ids(entries) + [e.id]
  {}

  lemma IdsHead(entries: seq<Entry>)
    requires entries != []
    ensures Ids(entries) == [entries[0].id] + Ids(entries[1..])
  {}

  lemma OnWireAppend(wire: seq<Line>, line: Line, early: bool)
    ensures OnWire(wire + [line], early) == OnWire(wire, early) + (if line.Data? && line.early == early then [line.id] else [])
  {
    assert (wire + [line])[..|wire|] == wire;
  }

  /** Parts may leave an ascending sequence. */
  lemma AscendingWithout(a: seq<nat>, b: seq<nat>, c: seq<nat>, bound: nat)
    requires Ascending(a + b + c, bound)
    ensures Ascending(a + c, bound)
  {
    var all, some := a + b + c, a + c;
    assert forall i :: 0 <= i < |some| ==> some[i] == all[if i < |a| then i else i + |b|];
  }

  lemma OtherLine(wire: seq<Line>, line: Line, early: bool, waiting: seq<Entry>, bound: nat)
    requires Ordered(wire, early, waiting, bound) && !(line.Data? && line.early == early)
    ensures Ordered(wire + [line], early, waiting, bound)
  {
    OnWireAppend(wire, line, early);
    assert OnWire(wire, early) + [] == OnWire(wire, early);
  }

  /** The first waiting message goes to the wire, or nowhere. */
  lemma FirstLeaves(wire: seq<Line>, early: bool, waiting: seq<Entry>, bound: nat)
    requires Ordered(wire, early, waiting, bound) && waiting != []
    ensures Ordered(wire + [Data(waiting[0].id, early)], early, waiting[1..], bound)
    ensures Ordered(wire, early, waiting[1..], bound)
  {
    hide OnWire, Ids, Ascending;
    var id, before, behind := waiting[0].id, OnWire(wire, early), Ids(waiting[1..]);
    OnWireAppend(wire, Data(id, early), early);
    IdsHead(waiting);
    assert before + Ids(waiting) == before + [id] + behind;
    AscendingWithout(before, [id], behind, bound);
  }

  lemma LastJoins(wire: seq<Line>, early: bool, waiting: seq<Entry>, bound: nat, bytes: nat)
    requires Ordered(wire, early, waiting, bound)
    ensures Ordered(wire, early, waiting + [Entry(bound, bytes)], bound + 1)
    ensures Ordered(wire, early, waiting, bound + 1)
  {
    IdsAppend(waiting, Entry(bound, bytes));
    assert OnWire(wire, early) + (Ids(waiting) + [bound]) == (OnWire(wire, early) + Ids(waiting)) + [bound];
  }

  lemma AllLeave(wire: seq<Line>, early: bool, waiting: seq<Entry>, bound: nat)
    requires Ordered(wire, early, waiting, bound)
    ensures Ordered(wire, early, [], bound)
  {
    assert OnWire(wire, early) + Ids(waiting) + [] == OnWire(wire, early) + Ids(waiting);
    AscendingWithout(OnWire(wire, early), Ids(waiting), [], bound);
    assert Ids([]) == [];
  }

  // ---------------------------------------------------------------- the pieces keep it

  /** A line without a message. */
  lemma PutControl(s: State, line: Line, threw: bool)
    requires Inv(s) && !line.Data? && (line.CloseLine? ==> s.closeSent || s.destroyed)
    ensures Inv(Put(s, line, threw))
  {
    hide Ordered, Total;
    if !threw {
      OtherLine(s.wire, line, false, s.outboundQueue, s.nextId);
      OtherLine(s.wire, line, true, Early(s), s.nextId);
      assert Counted(s.(wire := s.wire + [line]));
      assert Awake(s.(wire := s.wire + [line]));
    }
  }

  lemma FailOutboundKeeps(s: State)
    requires InOrder(s) && Stages(s) && (s.closeSent || s.destroyed || s.pump.Idle?)
    requires s.sendQueueBytes <= MaxBytes && |s.sendQueue| <= MaxMessages
    requires !s.closeSent && !s.destroyed ==> s.sendQueueBytes == Total(s.sendQueue)
    ensures Inv(FailOutbound(s))
  {
    hide Ordered;
    AllLeave(s.wire, false, s.outboundQueue, s.nextId);
  }

  lemma DropEarlyKeeps(s: State)
    requires Inv(s)
    ensures Inv(DropEarly(s))
  {
    hide Ordered;
    AllLeave(s.wire, true, Early(s), s.nextId);
  }

  lemma PumpOnKeeps(s: State, threw: bool)
    requires InOrder(s) && Counted(s.(pump := Idle)) && Stages(s) && s.acceptWritten
    ensures Inv(PumpOn(s, threw))
  {
    hide Ordered, Total;
    if !s.destroyed && s.outboundQueue != [] {
      TotalHead(s.outboundQueue);
      FirstLeaves(s.wire, false, s.outboundQueue, s.nextId);
      OtherLine(s.wire, Data(s.outboundQueue[0].id, false), true, Early(s), s.nextId);
    }
  }

  lemma StartPumpKeeps(s: State, threw: bool)
    requires InOrder(s) && Counted(s) && Stages(s) && s.acceptWritten
    ensures Inv(StartPump(s, threw))
  {
    if s.pump.Idle? { PumpOnKeeps(s, threw); }
  }

  lemma CloseKeeps(s: State, threw: bool)
    requires Inv(s)
    ensures Inv(Close(s, threw))
  {
    hide Ordered, Total;
    if !s.closeSent && !s.destroyed {
      EndKeeps(s);
      var s1 := FailOutbound(s.(closeSent := true));
      PutControl(if s1.accepted then s1 else DropEarly(s1), CloseLine, threw);
    }
  }

  /** Closing or ending: the outbound queue goes, and before the accept the early one too. */
  lemma EndKeeps(s: State)
    requires Inv(s)
    ensures var s1 := FailOutbound(s.(closeSent := true)); Inv(if s1.accepted then s1 else DropEarly(s1))
    ensures var s1 := FailOutbound(s.(destroyed := true)); Inv(if s1.accepted then s1 else DropEarly(s1)) && Inv(s1)
  {
    hide Ordered;
    AllLeave(s.wire, false, s.outboundQueue, s.nextId);
    AllLeave(s.wire, true, Early(s), s.nextId);
  }

  lemma SendKeeps(s: State, bytes: nat, threw: bool)
    requires Inv(s)
    ensures Inv(Send(s, bytes, threw))
  {
    hide Ordered, Total;
    CloseKeeps(s, threw);
    if !s.closeSent && !s.destroyed && bytes <= MaxBytes {
      var e := Entry(s.nextId, bytes);
      LastJoins(s.wire, true, Early(s), s.nextId, bytes);
      LastJoins(s.wire, false, s.outboundQueue, s.nextId, bytes);
      TotalAppend(s.sendQueue, e);
      TotalAppend(s.outboundQueue, e);
      if s.acceptWritten && |s.outboundQueue| < MaxMessages && s.outboundBytes + bytes <= MaxBytes {
        var s1 := s.(outboundQueue := s.outboundQueue + [e], outboundBytes := s.outboundBytes + bytes, nextId := s.nextId + 1);
        StartPumpKeeps(s1, threw);
      }
    }
  }

  /** Writing the first of the early messages still to be written. */
  lemma FlushOnKeeps(s: State, entries: seq<Entry>, threw: bool)
    requires s.acceptWritten && s.sendQueue == [] && Counted(s) && Stages(s)
    requires Ordered(s.wire, false, s.outboundQueue, s.nextId) && Ordered(s.wire, true, entries, s.nextId)
    ensures Inv(FlushOn(s, entries, threw))
  {
    hide Ordered, Total;
    AllLeave(s.wire, true, entries, s.nextId);
    if entries != [] {
      FirstLeaves(s.wire, true, entries, s.nextId);
      OtherLine(s.wire, Data(entries[0].id, true), false, s.outboundQueue, s.nextId);
    }
  }

  lemma AcceptResumesKeeps(s: State, ok: bool, threw: bool)
    requires Inv(s)
    ensures Inv(Step(s, AcceptResumes(ok, threw)))
  {
    hide Ordered, FlushOn;
    if s.accepting.Asked? && ok && AcceptLine in s.wire {
      var s1 := DropEarly(s.(accepting := Over, acceptWritten := true));
      assert Total(s1.sendQueue) == 0;
      assert s.flush.NoFlush?;
      FlushOnKeeps(s1, s.sendQueue, threw);
    }
  }

  lemma FlushResumesKeeps(s: State, ok: bool, threw: bool)
    requires Inv(s)
    ensures Inv(Step(s, FlushResumes(ok, threw)))
  {
    hide Ordered, Total;
    if s.flush.Flushing? {
      AllLeave(s.wire, true, s.flush.rest, s.nextId);
      FlushOnKeeps(s, if ok then s.flush.rest else [], threw);
    } else if s.flush.Ending? {
      StartPumpKeeps(s.(flush := NoFlush), threw);
    }
  }

  lemma PumpResumesKeeps(s: State, ok: bool, threw: bool)
    requires Inv(s)
    ensures Inv(Step(s, PumpResumes(ok, threw)))
  {
    hide Ordered;
    if s.pump.Writing? {
      if ok {
        var left := if s.outboundBytes >= s.pump.entry.bytes then s.outboundBytes - s.pump.entry.bytes else 0;
        PumpOnKeeps(s.(outboundBytes := left), threw);
      } else {
        FailOutboundKeeps(s.(pump := Idle));
      }
    }
  }

  lemma StepKeepsInv(s: State, a: Action)
    requires Inv(s)
    ensures Inv(Step(s, a))
  {
    match a
    case DoSend(bytes, threw) => if bytes >= MinBytes { SendKeeps(s, bytes, threw); }
    case DoClose(threw) => CloseKeeps(s, threw);
    case DoPing(threw) => if !s.closeSent && !s.destroyed { PutControl(s, Control, threw); }
    case Accept(threw) => AcceptKeeps(s, threw);
    case AcceptResumes(ok, threw) => AcceptResumesKeeps(s, ok, threw);
    case FlushResumes(ok, threw) => FlushResumesKeeps(s, ok, threw);
    case PumpResumes(ok, threw) => PumpResumesKeeps(s, ok, threw);
    case PeerCloses(threw) => PeerClosesKeeps(s, threw);
    case StreamEnds => EndKeeps(s);
    case Terminate => EndKeeps(s);
  }

  lemma AcceptKeeps(s: State, threw: bool)
    requires Inv(s)
    ensures Inv(SendAccept(s, threw))
  {
    hide Ordered, Total;
    if s.destroyed { DropEarlyKeeps(s); }
    else if s.accepting.NotAsked? && !s.accepted { PutControl(s.(accepted := true, accepting := Asked), AcceptLine, threw); }
  }

  lemma PeerClosesKeeps(s: State, threw: bool)
    requires Inv(s)
    ensures Inv(Step(s, PeerCloses(threw)))
  {
    hide Ordered, Total;
    if !s.destroyed && !s.closeSent { PutControl(s.(destroyed := true), CloseLine, threw); }
  }

  lemma {:induction false} RunKeepsInv(s: State, actions: seq<Action>)
    requires Inv(s)
    ensures Inv(Run(s, actions))
  {
    if actions != [] {
      hide Step, Inv;
      RunKeepsInv(s, actions[..|actions| - 1]);
      StepKeepsInv(Run(s, actions[..|actions| - 1]), actions[|actions| - 1]);
    }
  }

  lemma FreshInv(alreadyAccepted: bool)
    ensures Inv(Fresh(alreadyAccepted))
  {}

  // ---------------------------------------------------------------- the socket object

  class Socket {
    var accepted: bool
    var acceptWritten: bool
    var closeSent: bool
    var destroyed: bool
    var sendQueue: seq<Entry>
    var sendQueueBytes: nat
    var outboundQueue: seq<Entry>
    var outboundBytes: nat
    var pump: Pump
    var accepting: Accepting
    var flush: Flush
    var nextId: nat
    var wire: seq<Line>

    ghost function Now(): State
      reads this
    {
      State(accepted, acceptWritten, closeSent, destroyed, sendQueue, sendQueueBytes, outboundQueue, outboundBytes,
            pump, accepting, flush, nextId, wire)
    }

    /** Each kind of message is on the wire in send order and once, and the counters are exact and bounded. */
    ghost predicate Valid()
      reads this
    {
      Inv(Now())
    }

    constructor (alreadyAccepted: bool)
      ensures Now() == Fresh(alreadyAccepted) && Valid()
    {
      hide Inv;
      accepted, acceptWritten, closeSent, destroyed := alreadyAccepted, alreadyAccepted, false, false;
      sendQueue, sendQueueBytes, outboundQueue, outboundBytes := [], 0, [], 0;
      pump, accepting, flush, nextId, wire := Idle, NotAsked, NoFlush, 0, [];
      new;
      FreshInv(alreadyAccepted);
    }

    method WriteLine(line: Line, threw: bool)
      modifies this`wire
      ensures Now() == Put(old(Now()), line, threw)
    {
      if !threw { wire := wire + [line]; }
    }

    method FailOutboundQueue()
      modifies this`outboundQueue, this`outboundBytes
      ensures Now() == FailOutbound(old(Now()))
    {
      outboundQueue, outboundBytes := [], 0;
    }

    method DropSendQueue()
      modifies this`sendQueue, this`sendQueueBytes
      ensures Now() == DropEarly(old(Now()))
    {
      sendQueue, sendQueueBytes := [], 0;
    }

    method CloseIt(threw: bool)
      requires Valid()
      modifies this
      ensures Now() == Close(old(Now()), threw)
      ensures Valid()
    {
      hide Inv;
      CloseKeeps(Now(), threw);
      if closeSent || destroyed { return; }
      closeSent := true;
      FailOutboundQueue();
      if !accepted { DropSendQueue(); }
      WriteLine(CloseLine, threw);
    }

    /** The pump up to its next await. */
    method PumpOutboundQueue(threw: bool)
      modifies this
      ensures Now() == PumpOn(old(Now()), threw)
    {
      pump := Idle;
      if destroyed || outboundQueue == [] { return; }
      var entry := outboundQueue[0];
      outboundQueue := outboundQueue[1..];
      pump := Writing(entry);
      WriteLine(Data(entry.id, false), threw);
    }

    method SendMessage(bytes: nat, threw: bool)
      requires Valid()
      modifies this
      ensures Now() == Send(old(Now()), bytes, threw)
      ensures Valid()
    {
      hide Close, PumpOn, Inv;
      SendKeeps(Now(), bytes, threw);
      if closeSent || destroyed { return; }
      if bytes > MaxBytes { CloseIt(threw); return; }
      if !accepted {
        if |sendQueue| >= MaxMessages || sendQueueBytes + bytes > MaxBytes { CloseIt(threw); return; }
        sendQueue, sendQueueBytes := sendQueue + [Entry(nextId, bytes)], sendQueueBytes + bytes;
        nextId := nextId + 1;
        return;
      }
      if |outboundQueue| >= MaxMessages || outboundBytes + bytes > MaxBytes { CloseIt(threw); return; }
      outboundQueue, outboundBytes := outboundQueue + [Entry(nextId, bytes)], outboundBytes + bytes;
      nextId := nextId + 1;
      if acceptWritten && pump.Idle? { PumpOutboundQueue(threw); }
    }

    method AcceptIt(threw: bool)
      requires Valid()
      modifies this
      ensures Now() == SendAccept(old(Now()), threw)
      ensures Valid()
    {
      hide Inv;
      AcceptKeeps(Now(), threw);
      if destroyed { DropSendQueue(); return; }
      if accepting != NotAsked || accepted { return; }
      accepted, accepting := true, Asked;
      WriteLine(AcceptLine, threw);
    }

    method FlushNext(entries: seq<Entry>, threw: bool)
      modifies this
      ensures Now() == FlushOn(old(Now()), entries, threw)
    {
      if entries == [] { flush := Ending; return; }
      flush := Flushing(entries[1..]);
      WriteLine(Data(entries[0].id, true), threw);
    }

    /** The accept frame's write is over. */
    method AcceptDone(ok: bool, threw: bool)
      requires accepting.Asked? && (ok ==> AcceptLine in wire)
      requires Valid()
      modifies this
      ensures Now() == Step(old(Now()), AcceptResumes(ok, threw))
      ensures Valid()
    {
      hide FlushOn, Inv;
      AcceptResumesKeeps(Now(), ok, threw);
      accepting := Over;
      if !ok { return; }
      acceptWritten := true;
      var queue := sendQueue;
      DropSendQueue();
      FlushNext(queue, threw);
    }

    /** The pump's write is over. */
    method WriteDone(ok: bool, threw: bool)
      requires pump.Writing?
      requires Valid()
      modifies this
      ensures Now() == Step(old(Now()), PumpResumes(ok, threw))
      ensures Valid()
    {
      hide PumpOn, Inv;
      PumpResumesKeeps(Now(), ok, threw);
      if !ok {
        FailOutboundQueue();
        pump := Idle;
        return;
      }
      outboundBytes := if outboundBytes >= pump.entry.bytes then outboundBytes - pump.entry.bytes else 0;
      PumpOutboundQueue(threw);
    }

    method PeerClosed(threw: bool)
      requires Valid()
      modifies this
      ensures Now() == Step(old(Now()), PeerCloses(threw))
      ensures Valid()
    {
      hide Inv;
      PeerClosesKeeps(Now(), threw);
      if destroyed { return; }
      destroyed := true;
      if !closeSent { WriteLine(CloseLine, threw); }
    }

    method StreamEnded()
      requires Valid()
      modifies this
      ensures Now() == Step(old(Now()), StreamEnds)
      ensures Valid()
    {
      hide Inv;
      EndKeeps(Now());
      if destroyed { return; }
      destroyed := true;
      FailOutboundQueue();
      if !accepted { DropSendQueue(); }
    }
  }
}
