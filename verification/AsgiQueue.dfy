// The Python Guest's bounded queue of WebSocket events for an ASGI application.

module AsgiQueue {
  import opened Prelude

  const MaxBytes: nat := 1024 * 1024
  const MaxMessages: nat := 64

  /** An event for the application; only messages carry bytes. */
  datatype Event = Connect | Message(bytes: nat) | Disconnect

  function Bytes(e: Event): nat {
    if e.Message? then e.bytes else 0
  }

  /** `erring` while a protocol error is being written. */
  datatype State = State(events: seq<Event>, queuedBytes: nat, closed: bool, erring: bool)

  const Initial: State := State([Connect], 0, false, false)

  function Total(events: seq<Event>): nat {
    if events == [] then 0 else Bytes(events[0]) + Total(events[1..])
  }

  function Error(s: State): State {
    if s.closed then s else s.(erring := true)
  }

  /** `_put_event`; a forced event makes room for itself. */
  function Put(s: State, e: Event, force: bool): State {
    var size := Bytes(e);
    var tooMuch := size > MaxBytes || s.queuedBytes + size > MaxBytes;
    if tooMuch && !force then Error(s)
    else
      var s1 := if tooMuch then s.(events := [], queuedBytes := 0) else s;
      if |s1.events| < MaxMessages then s1.(events := s1.events + [e], queuedBytes := s1.queuedBytes + size)
      else if force then s1.(events := s1.events[1..] + [e])
      else Error(s1)
  }

  datatype Action =
    | Receive
    | Feed(bytes: nat)        // a text or binary frame
    | Malformed               // any frame that is a protocol error
    | ErrorWritten            // the close frame of a protocol error is out
    | PeerCloses              // the peer's close frame, once the reply is out
    | Lost                    // disconnect()

  function Step(s: State, a: Action): State {
    match a
    case Receive =>
      if s.events == [] then s
      else
        var b := Bytes(s.events[0]);
        s.(events := s.events[1..], queuedBytes := if s.queuedBytes >= b then s.queuedBytes - b else 0)
    case Feed(bytes) => Put(s, Message(bytes), false)
    case Malformed => Error(s)
    case ErrorWritten => if s.erring then s.(erring := false, closed := true) else s
    case PeerCloses => Put(s.(closed := true), Disconnect, true)
    case Lost =>
      if s.closed then s
      else s.(closed := true, events := if |s.events| < MaxMessages then s.events + [Disconnect] else s.events[1..] + [Disconnect])
  }

  function Run(actions: seq<Action>): State {
    if actions == [] then Initial else Step(Run(actions[..|actions| - 1]), actions[|actions| - 1])
  }

  lemma {:induction false} TotalAppend(events: seq<Event>, e: Event)
    ensures Total(events + [e]) == Total(events) + Bytes(e)
  {
    if events != [] {
      assert (events + [e])[1..] == events[1..] + [e];
      TotalAppend(events[1..], e);
    }
  }

  /** Within the limits; the counter covers what is queued, exactly so while the connection is open. */
  predicate Bounded(s: State) {
    && |s.events| <= MaxMessages && s.queuedBytes <= MaxBytes
    && Total(s.events) <= s.queuedBytes
    && (!s.closed ==> Total(s.events) == s.queuedBytes)
  }

  lemma StepKeepsBounded(s: State, a: Action)
    requires Bounded(s)
    ensures Bounded(Step(s, a))
  {
    TotalAppend(s.events, Disconnect);
    if s.events != [] { TotalAppend(s.events[1..], Disconnect); }
    match a
    case Feed(bytes) => TotalAppend(s.events, Message(bytes));
    case _ =>
  }

  lemma {:induction false} QueueStaysBounded(actions: seq<Action>)
    ensures Bounded(Run(actions))
  {
    if actions != [] {
      hide Step, Bounded;
      QueueStaysBounded(actions[..|actions| - 1]);
      StepKeepsBounded(Run(actions[..|actions| - 1]), actions[|actions| - 1]);
    } else {
      assert Total([Connect]) == Bytes(Connect) + Total([Connect][1..]);
    }
  }

  /** A close or a lost connection always reaches the queue, behind whatever still fits. */
  lemma {:induction false} DisconnectIsQueued(actions: seq<Action>, a: Action)
    requires a.PeerCloses? || (a.Lost? && !Run(actions).closed)
    ensures var t := Step(Run(actions), a); t.closed && t.events != [] && t.events[|t.events| - 1] == Disconnect
  {
    QueueStaysBounded(actions);
  }

  // ---------------------------------------------------------------- what the application gets

  /** A frame is queued last exactly if it fits; otherwise it is a protocol error, unless the connection is closed. */
  lemma FrameIsQueuedExactly(actions: seq<Action>, bytes: nat)
    requires !Run(actions).closed
    ensures var s := Run(actions);
            var t := Step(s, Feed(bytes));
            if |s.events| < 64 && Total(s.events) + bytes <= 1048576
            then t == s.(events := s.events + [Message(bytes)], queuedBytes := s.queuedBytes + bytes)
            else t == s.(erring := true)
  {
    QueueStaysBounded(actions);
  }

  /** A protocol error is told the peer exactly once, and closes the connection when it is out. */
  lemma ErrorExactly(s: State)
    ensures Step(s, Malformed) == if s.closed then s else s.(erring := true)
    ensures Step(s, ErrorWritten) == if s.erring then s.(erring := false, closed := true) else s
  {}

  /** What a step takes off the front, and what it adds at the back. */
  function Off(s: State, a: Action): nat {
    if s.events == [] then 0
    else if a.Receive? || ((a.PeerCloses? || (a.Lost? && !s.closed)) && |s.events| >= 64) then 1 else 0
  }

  function On(s: State, a: Action): seq<Event> {
    match a
    case Feed(bytes) => if |s.events| < 64 && s.queuedBytes + bytes <= 1048576 then [Message(bytes)] else []
    case PeerCloses => [Disconnect]
    case Lost => if s.closed then [] else [Disconnect]
    case _ => []
  }

  /** Events leave the queue in the order they came, one at a time. */
  lemma StepMovesExactly(actions: seq<Action>, a: Action)
    ensures var s := Run(actions);
            Step(s, a).events == s.events[Off(s, a)..] + On(s, a)
  {
    QueueStaysBounded(actions);
    var s := Run(actions);
    assert s.events[0..] == s.events && s.events + [] == s.events;
    assert forall e: seq<Event> :: e + [] == e;
  }

  /** Every event ever queued, the connect event first, and how many have left. */
  function Queued(actions: seq<Action>): seq<Event> {
    if actions == [] then [Connect]
    else Queued(actions[..|actions| - 1]) + On(Run(actions[..|actions| - 1]), actions[|actions| - 1])
  }

  function Gone(actions: seq<Action>): nat {
    if actions == [] then 0
    else Gone(actions[..|actions| - 1]) + Off(Run(actions[..|actions| - 1]), actions[|actions| - 1])
  }

  /** Over any run the queue is what was queued less what has left, in order: the application gets every event but those dropped for a disconnect. */
  lemma {:induction false} EventsGoInOrder(actions: seq<Action>)
    ensures Gone(actions) <= |Queued(actions)| && Run(actions).events == Queued(actions)[Gone(actions)..]
  {
    if actions != [] {
      var before, a := actions[..|actions| - 1], actions[|actions| - 1];
      var s, all, n := Run(before), Queued(before), Gone(before);
      EventsGoInOrder(before);
      StepMovesExactly(before, a);
      hide Step, On;
      assert (all + On(s, a))[n + Off(s, a)..] == all[n..][Off(s, a)..] + On(s, a);
    }
  }

  // ---------------------------------------------------------------- how far the counter is off

  /** The bytes of the event that a forced one pushes out of a full queue. */
  function Dropped(s: State, a: Action): nat {
    if (a.PeerCloses? || (a.Lost? && !s.closed)) && |s.events| == MaxMessages then Bytes(s.events[0]) else 0
  }

  function Drift(actions: seq<Action>): nat {
    if actions == [] then 0
    else
      var before := actions[..|actions| - 1];
      Drift(before) + Dropped(Run(before), actions[|actions| - 1])
  }

  /** Making room in a full queue forgets to subtract the event that is dropped. */
  lemma StepDrifts(s: State, a: Action, drift: nat)
    requires Bounded(s) && s.queuedBytes == Total(s.events) + drift
    ensures var t := Step(s, a); t.queuedBytes == Total(t.events) + drift + Dropped(s, a)
  {
    TotalAppend(s.events, Disconnect);
    if s.events != [] { TotalAppend(s.events[1..], Disconnect); }
    match a
    case Feed(bytes) => TotalAppend(s.events, Message(bytes));
    case _ =>
  }

  /** In every run the counter exceeds what is queued by exactly the bytes that forced events dropped. */
  lemma {:induction false} CounterIsOffByDropped(actions: seq<Action>)
    ensures var s := Run(actions); s.queuedBytes == Total(s.events) + Drift(actions)
  {
    if actions == [] {
      assert Total([Connect]) == Bytes(Connect) + Total([Connect][1..]);
    } else {
      hide Step, Bounded, Dropped;
      var before := actions[..|actions| - 1];
      QueueStaysBounded(before);
      CounterIsOffByDropped(before);
      StepDrifts(Run(before), actions[|actions| - 1], Drift(before));
    }
  }

  /** No forced event of the run met a full queue whose first event has bytes. */
  ghost predicate NothingDropped(actions: seq<Action>) {
    forall n: nat :: n < |actions| ==> Dropped(Run(actions[..n]), actions[n]) == 0
  }

  lemma {:induction false} DriftIsDropped(actions: seq<Action>)
    ensures Drift(actions) == 0 <==> NothingDropped(actions)
  {
    hide Dropped, Run;
    if actions == [] {
    } else {
      var last := |actions| - 1;
      var before := actions[..last];
      DriftIsDropped(before);
      assert forall n: nat :: n < last ==> before[..n] == actions[..n] && before[n] == actions[n];
      if NothingDropped(before) && Dropped(Run(before), actions[last]) == 0 {
        forall n: nat | n < |actions| ensures Dropped(Run(actions[..n]), actions[n]) == 0 {
          if n < last { assert Dropped(Run(before[..n]), before[n]) == 0; }
        }
      }
      if NothingDropped(actions) {
        forall n: nat | n < last ensures Dropped(Run(before[..n]), before[n]) == 0 {
          assert Dropped(Run(actions[..n]), actions[n]) == 0;
        }
      }
    }
  }

  /** The counter is exact exactly if no forced event dropped bytes from a full queue. */
  lemma {:induction false} CounterIsExactExactly(actions: seq<Action>)
    ensures Run(actions).queuedBytes == Total(Run(actions).events) <==> NothingDropped(actions)
  {
    CounterIsOffByDropped(actions);
    DriftIsDropped(actions);
    hide Run, NothingDropped, Drift;
  }

  /** A forced event never finds too many bytes, so the branch that clears the queue for it is not taken. */
  lemma {:induction false} ForcedEventsNeverClear(actions: seq<Action>)
    ensures Run(actions).queuedBytes + Bytes(Disconnect) <= MaxBytes
  {
    QueueStaysBounded(actions);
    hide Run;
  }

  function Feeds(n: nat): seq<Action> {
    if n == 0 then [Receive] else Feeds(n - 1) + [Feed(1)]
  }

  function Ones(n: nat): seq<Event> {
    if n == 0 then [] else Ones(n - 1) + [Message(1)]
  }

  lemma {:induction false} OnesAre(n: nat)
    ensures |Ones(n)| == n && Total(Ones(n)) == n && forall i :: 0 <= i < n ==> Ones(n)[i] == Message(1)
  {
    if n > 0 {
      OnesAre(n - 1);
      TotalAppend(Ones(n - 1), Message(1));
    }
  }

  lemma RunOne(actions: seq<Action>, a: Action)
    ensures Run(actions + [a]) == Step(Run(actions), a)
  {
    assert (actions + [a])[..|actions|] == actions;
  }

  lemma {:induction false} AfterFeeds(n: nat)
    requires n <= MaxMessages
    ensures Run(Feeds(n)) == State(Ones(n), n, false, false)
  {
    if n == 0 {
      var none: seq<Action> := [];
      RunOne(none, Receive);
      assert none + [Receive] == Feeds(0);
      assert Run(none) == Initial;
    } else {
      AfterFeeds(n - 1);
      OnesAre(n - 1);
      hide Run, Ones;
      RunOne(Feeds(n - 1), Feed(1));
      assert Feeds(n) == Feeds(n - 1) + [Feed(1)];
      assert Step(Run(Feeds(n - 1)), Feed(1)).events == Ones(n - 1) + [Message(1)];
      OnesNext(n);
    }
  }

  lemma OnesNext(n: nat)
    requires n > 0
    ensures Ones(n) == Ones(n - 1) + [Message(1)]
  {}

  /** A run that leaves the counter off: a full queue of one-byte messages, and then the peer's close. */
  lemma {:induction false} FullQueueDrifts(n: nat)
    requires n == MaxMessages
    ensures var s, t := Run(Feeds(n)), Run(Feeds(n) + [PeerCloses]);
            && |s.events| == MaxMessages && !s.closed && s.queuedBytes == Total(s.events)
            && t.queuedBytes == Total(t.events) + 1
  {
    hide Run, Ones, Feeds;
    AfterFeeds(n);
    OnesAre(n);
    var s := Run(Feeds(n));
    RunOne(Feeds(n), PeerCloses);
    QueueStaysBounded(Feeds(n));
    StepDrifts(s, PeerCloses, 0);
  }

  /** What is forced into the queue is the disconnect of a closed connection, which has no bytes. */
  lemma PutKeepsBounded(s: State, e: Event, force: bool)
    requires Bounded(s) && (force ==> e.Disconnect? && s.closed)
    ensures Bounded(Put(s, e, force))
  {
    TotalAppend(s.events, e);
    if s.events != [] { TotalAppend(s.events[1..], e); }
  }

  class EventQueue {
    var events: seq<Event>
    var queuedBytes: nat
    var closed: bool
    var erring: bool

    ghost function Now(): State
      reads this
    {
      State(events, queuedBytes, closed, erring)
    }

    ghost predicate Valid()
      reads this
    {
      Bounded(Now())
    }

    constructor ()
      ensures Now() == Initial && Valid()
    {
      events, queuedBytes, closed, erring := [Connect], 0, false, false;
    }

    method Take() returns (e: Option<Event>)
      requires Valid()
      modifies this
      ensures Now() == Step(old(Now()), Receive)
      ensures e == if old(events) == [] then None else Some(old(events)[0])
      ensures Valid()
    {
      hide Bounded;
      StepKeepsBounded(Now(), Receive);
      if events == [] { return None; }
      e := Some(events[0]);
      events := events[1..];
      queuedBytes := if queuedBytes >= Bytes(e.value) then queuedBytes - Bytes(e.value) else 0;
    }

    method ProtocolError()
      modifies this`erring
      ensures Now() == Error(old(Now()))
    {
      if !closed { erring := true; }
    }

    method PutEvent(e: Event, force: bool)
      requires Valid()
      modifies this
      ensures Now() == Put(old(Now()), e, force)
      ensures (force ==> e.Disconnect? && old(closed)) ==> Valid()
    {
      hide Bounded;
      if force ==> e.Disconnect? && closed { PutKeepsBounded(Now(), e, force); }
      var size := Bytes(e);
      if size > MaxBytes || queuedBytes + size > MaxBytes {
        if !force { ProtocolError(); return; }
        while events != []
          invariant Now() == old(Now()).(events := events)
          decreases |events|
        {
          events := events[1..];
        }
        queuedBytes := 0;
      }
      if |events| < MaxMessages {
        events := events + [e];
        queuedBytes := queuedBytes + size;
      } else if force {
        events := events[1..] + [e];
      } else {
        ProtocolError();
      }
    }

    method Disconnected()
      requires Valid()
      modifies this
      ensures Now() == Step(old(Now()), Lost)
      ensures Valid()
    {
      hide Bounded;
      StepKeepsBounded(Now(), Lost);
      if closed { return; }
      closed := true;
      events := (if |events| < MaxMessages then events else events[1..]) + [Disconnect];
    }
  }
}
