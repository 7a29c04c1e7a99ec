// Received messages of a VWS/1 socket: queued, then handed to its listeners.

module InboundQueue {
  const MaxMessages: nat := 64
  const MaxBytes: nat := 1024 * 1024

  // Messages found in one piece of the stream are queued and handed over one after another; the
  // stream is paused meanwhile, and a full queue is a fault.

  /** What the listeners do with a message: all return at once, one is awaited, or one throws at once. */
  datatype How = Return | Await | Throw

  datatype Message = Message(id: nat, bytes: nat, how: How)

  datatype State = State(
    queue: seq<Message>,
    bytes: int,                    // inboundQueueBytes
    awaited: bool,                 // processInboundQueue waits for a listener
    paused: bool,
    destroyed: bool,
    accepted: seq<Message>,        // what was ever queued
    delivered: seq<Message>,       // what was ever handed to the listeners
    faults: nat,                   // 1009 faults of the queue
    failures: nat)                 // 1011 faults of a listener

  const Initial: State := State([], 0, false, false, false, [], [], 0, 0)

  /** The end of `processInboundQueue`: the stream goes on once the queue is empty. */
  function Leave(s: State): State {
    if !s.destroyed && s.queue == [] then s.(paused := false) else s
  }

  /** The loop of `processInboundQueue`, up to the first listener it waits for. */
  function Process(s: State): State
    decreases |s.queue|
  {
    if s.destroyed || s.queue == [] then Leave(s)
    else
      var m := s.queue[0];
      var s1 := s.(queue := s.queue[1..], bytes := s.bytes - m.bytes, delivered := s.delivered + [m]);
      match m.how
      case Return => Process(s1)
      case Await => s1.(awaited := true)
      case Throw => Leave(s1.(failures := s1.failures + 1))
  }

  predicate Full(s: State, m: Message) {
    m.bytes > MaxBytes || |s.queue| >= MaxMessages || s.bytes + m.bytes > MaxBytes
  }

  function Queued(s: State, m: Message): State {
    s.(queue := s.queue + [m], bytes := s.bytes + m.bytes, accepted := s.accepted + [m], paused := true)
  }

  function Enqueue(s: State, m: Message): State {
    if Full(s, m) then s.(faults := s.faults + 1)
    else if s.awaited then Queued(s, m)
    else Process(Queued(s, m))
  }

  /** The messages of one piece of the stream; a full queue does not stop the parser. */
  function EnqueueAll(s: State, messages: seq<Message>): State
    decreases |messages|
  {
    if messages == [] then s else EnqueueAll(Enqueue(s, messages[0]), messages[1..])
  }

  datatype Action =
    | Data(messages: seq<Message>)   // a piece of the stream
    | Settles(ok: bool)              // the listener waited for is done, or fails
    | Destroy                        // the peer's close, the stream's end, or the close timer

  /** A paused stream gives no data. */
  predicate Flows(s: State) {
    !s.paused && !s.destroyed
  }

  function Settled(s: State, ok: bool): State {
    var s1 := s.(awaited := false);
    if ok then Process(s1) else Leave(s1.(failures := s1.failures + 1))
  }

  function Step(s: State, a: Action): State {
    match a
    case Data(messages) => if Flows(s) then EnqueueAll(s, messages) else s
    case Settles(ok) => if s.awaited then Settled(s, ok) else s
    case Destroy => s.(destroyed := true)
  }

  function RunFrom(s: State, actions: seq<Action>): State
    decreases |actions|
  {
    if actions == [] then s else Step(RunFrom(s, actions[..|actions| - 1]), actions[|actions| - 1])
  }

  // ---------------------------------------------------------------- what every step keeps

  function Sum(messages: seq<Message>): nat {
    if messages == [] then 0 else messages[0].bytes + Sum(messages[1..])
  }

  lemma {:induction false} SumAppend(a: seq<Message>, b: seq<Message>)
    ensures Sum(a + b) == Sum(a) + Sum(b)
  {
    if a == [] { assert a + b == b; }
    else {
      assert (a + b)[1..] == a[1..] + b;
      SumAppend(a[1..], b);
    }
  }

  /** Messages are handed over in their order and once, the rest waits, and the counter is exact. */
  predicate Counted(s: State) {
    && s.accepted == s.delivered + s.queue
    && s.bytes == Sum(s.queue) && |s.queue| <= MaxMessages && Sum(s.queue) <= MaxBytes
  }

  /** While the socket lives, the stream is paused exactly while a message is handled or waits; only a failure leaves one waiting for nobody. */
  predicate Awake(s: State) {
    !s.destroyed ==> (s.paused <==> s.awaited || s.queue != []) && (s.queue != [] && !s.awaited ==> s.failures > 0)
  }

  predicate Inv(s: State) {
    Counted(s) && Awake(s)
  }

  lemma {:induction false} ProcessKeeps(s: State)
    requires Counted(s) && !s.awaited && (!s.destroyed ==> s.paused)
    ensures var t := Process(s);
            && Inv(t) && t.accepted == s.accepted && t.faults == s.faults && t.failures >= s.failures && t.destroyed == s.destroyed
    decreases |s.queue|
  {
    if !s.destroyed && s.queue != [] {
      var m := s.queue[0];
      var s1 := s.(queue := s.queue[1..], bytes := s.bytes - m.bytes, delivered := s.delivered + [m]);
      assert s.queue == [m] + s.queue[1..];
      assert s.delivered + s.queue == s1.delivered + s1.queue;
      if m.how.Return? { ProcessKeeps(s1); }
    }
  }

  lemma QueuedKeeps(s: State, m: Message)
    requires Counted(s) && !Full(s, m)
    ensures Counted(Queued(s, m))
  {
    SumAppend(s.queue, [m]);
    assert s.delivered + (s.queue + [m]) == (s.delivered + s.queue) + [m];
  }

  lemma EnqueueKeeps(s: State, m: Message)
    requires Inv(s)
    ensures Inv(Enqueue(s, m)) && Enqueue(s, m).faults == s.faults + (if Full(s, m) then 1 else 0)
    ensures Enqueue(s, m).destroyed == s.destroyed
  {
    if !Full(s, m) {
      QueuedKeeps(s, m);
      hide Process, Counted;
      if !s.awaited { ProcessKeeps(Queued(s, m)); }
    }
  }

  lemma {:induction false} EnqueueAllKeeps(s: State, messages: seq<Message>)
    requires Inv(s)
    ensures Inv(EnqueueAll(s, messages)) && EnqueueAll(s, messages).faults >= s.faults
    decreases |messages|
  {
    if messages != [] {
      hide Enqueue, Inv;
      EnqueueKeeps(s, messages[0]);
      EnqueueAllKeeps(Enqueue(s, messages[0]), messages[1..]);
    }
  }

  lemma StepKeepsInv(s: State, a: Action)
    requires Inv(s)
    ensures Inv(Step(s, a))
  {
    hide Process, EnqueueAll;
    match a
    case Data(messages) => EnqueueAllKeeps(s, messages);
    case Settles(ok) => if s.awaited && ok { ProcessKeeps(s.(awaited := false)); }
    case Destroy =>
  }

  /**
   * In every run the messages taken from the stream reach the listeners in order and once,
   * the queue stays within its limits, and the stream is paused exactly while one is handled or waits.
   */
  lemma {:induction false} RunKeepsInv(actions: seq<Action>)
    ensures Inv(RunFrom(Initial, actions))
  {
    if actions != [] {
      hide Step, Inv;
      RunKeepsInv(actions[..|actions| - 1]);
      StepKeepsInv(RunFrom(Initial, actions[..|actions| - 1]), actions[|actions| - 1]);
    } else { assert Initial.delivered + Initial.queue == []; }
  }

  // ---------------------------------------------------------------- when the queue overflows

  /** The first message a listener is awaited for, or |messages|. */
  function FirstAwaited(messages: seq<Message>): (j: nat)
    ensures j <= |messages| && (j < |messages| ==> messages[j].how.Await?)
    ensures forall i :: 0 <= i < j ==> !messages[i].how.Await?
  {
    if messages == [] || messages[0].how.Await? then 0 else 1 + FirstAwaited(messages[1..])
  }

  /** A message of the piece is too large by itself, or too much follows the first one that is awaited. */
  predicate Overflows(messages: seq<Message>) {
    var j := FirstAwaited(messages);
    || (exists i :: 0 <= i < |messages| && i <= j && messages[i].bytes > 1048576)
    || (j < |messages| && (|messages| - j - 1 > 64 || Sum(messages[j + 1..]) > 1048576))
  }

  /** While a listener is awaited, messages pile up. */
  lemma {:induction false} PilesUp(s: State, messages: seq<Message>)
    requires Inv(s) && s.awaited && !s.destroyed
    ensures EnqueueAll(s, messages).faults > s.faults <==>
              |s.queue| + |messages| > MaxMessages || Sum(s.queue) + Sum(messages) > MaxBytes
    decreases |messages|
  {
    if messages != [] {
      var m := messages[0];
      EnqueueKeeps(s, m);
      EnqueueAllKeeps(Enqueue(s, m), messages[1..]);
      if !Full(s, m) {
        SumAppend(s.queue, [m]);
        hide Process, Inv;
        PilesUp(Enqueue(s, m), messages[1..]);
      }
    }
  }

  lemma AloneIsHandled(s: State, m: Message)
    requires s.queue == [m] && !s.destroyed
    ensures var t := Process(s);
            && t.delivered == s.delivered + [m] && t.queue == [] && t.bytes == s.bytes - m.bytes
            && !t.destroyed && (if m.how.Await? then t.awaited else t.awaited == s.awaited && !t.paused)
  {
    assert s.queue[1..] == [];
  }

  /** A message that is handled at once leaves the queue as empty as it was. */
  lemma HandledAtOnce(s: State, m: Message)
    requires Inv(s) && Flows(s) && m.bytes <= MaxBytes
    ensures var t := Enqueue(s, m);
            && t.delivered == s.delivered + [m] && t.queue == []
            && (if m.how.Await? then t.awaited && !t.destroyed else Flows(t))
  {
    assert s.queue == [] && !s.awaited && Sum(s.queue) == 0;
    AloneIsHandled(Queued(s, m), m);
  }

  lemma OverflowsBehind(messages: seq<Message>)
    requires messages != [] && messages[0].bytes <= MaxBytes
    ensures messages[0].how.Await? ==>
              (Overflows(messages) <==> |messages[1..]| > MaxMessages || Sum(messages[1..]) > MaxBytes)
    ensures !messages[0].how.Await? ==> (Overflows(messages) <==> Overflows(messages[1..]))
  {
    var rest := messages[1..];
    if !messages[0].how.Await? {
      var j := FirstAwaited(rest);
      assert FirstAwaited(messages) == j + 1;
      if j < |rest| { assert messages[j + 2..] == rest[j + 1..]; }
      if i :| 0 <= i < |messages| && i <= j + 1 && messages[i].bytes > MaxBytes { assert rest[i - 1].bytes > MaxBytes; }
      if i :| 0 <= i < |rest| && i <= j && rest[i].bytes > MaxBytes { assert messages[i + 1].bytes > MaxBytes; }
    }
  }

  /** A piece of the stream makes the queue overflow exactly if its messages do by themselves. */
  lemma {:induction false} PieceFaultsExactly(s: State, messages: seq<Message>)
    requires Inv(s) && Flows(s)
    ensures EnqueueAll(s, messages).faults > s.faults <==> Overflows(messages)
    decreases |messages|
  {
    hide Process, Enqueue, Overflows, Inv;
    if messages == [] { assert !Overflows(messages) by { NothingOverflows(); } }
    else {
      var m := messages[0];
      EnqueueKeeps(s, m);
      EnqueueAllKeeps(Enqueue(s, m), messages[1..]);
      if m.bytes > MaxBytes { TooLarge(messages); }
      else {
        HandledAtOnce(s, m);
        OverflowsBehind(messages);
        NotFull(s, m);
        if m.how.Await? { PilesUp(Enqueue(s, m), messages[1..]); } else { PieceFaultsExactly(Enqueue(s, m), messages[1..]); }
      }
    }
  }

  lemma NothingOverflows()
    ensures !Overflows([])
  {}

  lemma TooLarge(messages: seq<Message>)
    requires messages != [] && messages[0].bytes > MaxBytes
    ensures Overflows(messages)
  {}

  lemma NotFull(s: State, m: Message)
    requires Inv(s) && Flows(s) && m.bytes <= MaxBytes
    ensures !Full(s, m)
  {}

  /** Step i of a run takes a piece of the stream that overflows. */
  predicate OverflowsAt(actions: seq<Action>, i: nat)
    requires i < |actions|
  {
    actions[i].Data? && Flows(RunFrom(Initial, actions[..i])) && Overflows(actions[i].messages)
  }

  /**
   * Over any run the queue is at fault exactly if some piece taken from the stream overflows:
   * how the stream is cut decides it, and nothing else.
   */
  lemma {:induction false} QueueFaultsExactly(actions: seq<Action>)
    ensures RunFrom(Initial, actions).faults > 0 <==> exists i :: 0 <= i < |actions| && OverflowsAt(actions, i)
  {
    if actions != [] {
      var before, a := actions[..|actions| - 1], actions[|actions| - 1];
      var s := RunFrom(Initial, before);
      QueueFaultsExactly(before);
      RunKeepsInv(before);
      StepFaults(s, a);
      hide Step, Overflows, Inv;
      if i :| 0 <= i < |before| && OverflowsAt(before, i) { assert before[..i] == actions[..i]; assert OverflowsAt(actions, i); }
      if i :| 0 <= i < |actions| && OverflowsAt(actions, i) {
        if i < |before| { assert before[..i] == actions[..i]; assert OverflowsAt(before, i); }
      }
      if a.Data? && Flows(s) && Overflows(a.messages) { assert OverflowsAt(actions, |actions| - 1); }
    }
  }

  lemma StepFaults(s: State, a: Action)
    requires Inv(s)
    ensures Step(s, a).faults >= s.faults
    ensures Step(s, a).faults > s.faults <==> a.Data? && Flows(s) && Overflows(a.messages)
  {
    hide Process, EnqueueAll, Overflows;
    match a
    case Data(messages) => if Flows(s) { EnqueueAllKeeps(s, messages); PieceFaultsExactly(s, messages); }
    case Settles(ok) => if s.awaited && ok { ProcessKeeps(s.(awaited := false)); }
    case Destroy =>
  }

  /** With every message in a piece of its own, and none too large, no run overflows the queue. */
  lemma OneByOneNeverFaults(actions: seq<Action>)
    requires forall i :: 0 <= i < |actions| && actions[i].Data? ==> |actions[i].messages| == 1 && actions[i].messages[0].bytes <= MaxBytes
    ensures RunFrom(Initial, actions).faults == 0
  {
    QueueFaultsExactly(actions);
    forall i | 0 <= i < |actions| ensures !OverflowsAt(actions, i) {}
  }

  function Bytes(n: nat): (messages: seq<Message>)
    ensures |messages| == n && forall i :: 0 <= i < n ==> messages[i] == Message(i, 1, Await)
  {
    if n == 0 then [] else Bytes(n - 1) + [Message(n - 1, 1, Await)]
  }

  /** Messages of one byte that are each awaited, all in one piece: at fault exactly if there are more than 65. */
  lemma OnePieceFaults(n: nat)
    requires n <= MaxBytes
    ensures RunFrom(Initial, [Data(Bytes(n))]).faults > 0 <==> n > 65
  {
    var actions := [Data(Bytes(n))];
    assert actions[..0] == [];
    QueueFaultsExactly(actions);
    if n > 0 {
      assert FirstAwaited(Bytes(n)) == 0;
      SumOfOnes(Bytes(n)[1..]);
    }
    if Overflows(Bytes(n)) { assert OverflowsAt(actions, 0); }
  }

  lemma {:induction false} SumOfOnes(messages: seq<Message>)
    requires forall i :: 0 <= i < |messages| ==> messages[i].bytes == 1
    ensures Sum(messages) == |messages|
  {
    if messages != [] { SumOfOnes(messages[1..]); }
  }

  // ---------------------------------------------------------------- a listener that fails

  /** Nothing is ever handed to the listeners again. */
  ghost predicate Stuck(s: State) {
    forall more :: RunFrom(s, more).delivered == s.delivered
  }

  lemma {:induction false} StuckStays(s: State, more: seq<Action>)
    requires s.destroyed || (!s.awaited && s.paused)
    ensures var t := RunFrom(s, more); t.delivered == s.delivered && (t.destroyed || (!t.awaited && t.paused))
    decreases |more|
  {
    if more != [] {
      hide EnqueueAll;
      StuckStays(s, more[..|more| - 1]);
    }
  }

  /** What goes on: the listener settles, or the stream gives a message. */
  lemma GoesOn(s: State) returns (more: seq<Action>)
    requires Inv(s) && !s.destroyed && (s.awaited || s.queue == [])
    ensures |RunFrom(s, more).delivered| > |s.delivered|
  {
    var none: seq<Action> := [];
    var m := Message(0, 0, Return);
    assert RunFrom(s, none) == s;
    if s.awaited && s.queue != [] {
      more := [Settles(true)];
      ProcessDelivers(s.(awaited := false));
    } else if s.awaited {
      more := [Settles(true), Data([m])];
      var t := Step(s, Settles(true));
      assert more[..1] == [Settles(true)] && [Settles(true)][..0] == none;
      assert RunFrom(s, more[..1]) == t;
      StepKeepsInv(s, Settles(true));
      HandledAtOnce(t, m);
      EnqueueOne(t, m);
    } else {
      more := [Data([m])];
      HandledAtOnce(s, m);
      EnqueueOne(s, m);
    }
  }

  lemma {:induction false} ProcessDelivers(s: State)
    ensures |Process(s).delivered| >= |s.delivered|
    ensures !s.destroyed && s.queue != [] ==> |Process(s).delivered| > |s.delivered|
    decreases |s.queue|
  {
    if !s.destroyed && s.queue != [] {
      var m := s.queue[0];
      ProcessDelivers(s.(queue := s.queue[1..], bytes := s.bytes - m.bytes, delivered := s.delivered + [m]));
    }
  }

  /** A socket hands nothing over any more exactly if it is destroyed, or messages wait and no listener is awaited. */
  lemma StuckExactly(s: State)
    requires Inv(s)
    ensures Stuck(s) <==> s.destroyed || (!s.awaited && s.queue != [])
  {
    if s.destroyed || (!s.awaited && s.queue != []) {
      forall more ensures RunFrom(s, more).delivered == s.delivered { StuckStays(s, more); }
    } else {
      var more := GoesOn(s);
      assert RunFrom(s, more).delivered != s.delivered;
    }
  }

  /** The first message whose listeners do not all return at once, or |messages|. */
  function FirstHeld(messages: seq<Message>): (j: nat)
    ensures j <= |messages| && (j < |messages| ==> !messages[j].how.Return?)
    ensures forall i :: 0 <= i < j ==> messages[i].how.Return?
  {
    if messages == [] || !messages[0].how.Return? then 0 else 1 + FirstHeld(messages[1..])
  }

  /** The listener awaited fails with a message behind, or the first listener then not to return at once throws with one behind. */
  predicate Strands(queue: seq<Message>, ok: bool) {
    if !ok then queue != []
    else var j := FirstHeld(queue); j + 1 < |queue| && queue[j].how.Throw?
  }

  lemma {:induction false} ProcessStrands(s: State)
    requires !s.destroyed && !s.awaited
    ensures var t := Process(s);
            !t.destroyed && (!t.awaited && t.queue != [] <==> Strands(s.queue, true))
    decreases |s.queue|
  {
    if s.queue != [] && s.queue[0].how.Return? {
      var m := s.queue[0];
      ProcessStrands(s.(queue := s.queue[1..], bytes := s.bytes - m.bytes, delivered := s.delivered + [m]));
      assert FirstHeld(s.queue) == 1 + FirstHeld(s.queue[1..]);
    }
  }

  /** The end of an awaited listener strands messages exactly in these two ways. */
  lemma SettlingStrandsExactly(s: State, ok: bool)
    requires Inv(s) && s.awaited && !s.destroyed
    ensures Stuck(Step(s, Settles(ok))) <==> Strands(s.queue, ok)
  {
    StepKeepsInv(s, Settles(ok));
    hide Stuck, Inv;
    StuckExactly(Step(s, Settles(ok)));
    if ok { ProcessStrands(s.(awaited := false)); }
  }

  /** A piece of the stream never does. */
  lemma {:induction false} PieceStrandsNothing(s: State, messages: seq<Message>)
    requires Inv(s) && !s.destroyed && (s.awaited || s.queue == [])
    ensures var t := EnqueueAll(s, messages); !t.destroyed && (t.awaited || t.queue == [])
    decreases |messages|
  {
    if messages != [] {
      var m := messages[0];
      EnqueueKeeps(s, m);
      if !s.awaited && m.bytes <= MaxBytes { HandledAtOnce(s, m); }
      hide Process;
      assert s.awaited ==> Enqueue(s, m).awaited;
      PieceStrandsNothing(Enqueue(s, m), messages[1..]);
    }
  }

  /** Step i ends an awaited listener of a living socket and strands messages. */
  predicate StrandsAt(actions: seq<Action>, i: nat)
    requires i < |actions|
  {
    var s := RunFrom(Initial, actions[..i]);
    actions[i].Settles? && s.awaited && !s.destroyed && Strands(s.queue, actions[i].ok)
  }

  lemma StrandsLater(actions: seq<Action>, i: nat)
    requires i + 1 < |actions|
    ensures StrandsAt(actions, i) == StrandsAt(actions[..|actions| - 1], i)
  {
    assert actions[..|actions| - 1][..i] == actions[..i];
    hide RunFrom, Strands;
  }

  /** Waiting for nobody is how a living socket is stuck. */
  predicate Idle(s: State) {
    !s.awaited && s.queue != []
  }

  lemma StepIdles(s: State, a: Action)
    requires Inv(s) && !Step(s, a).destroyed
    ensures !s.destroyed
    ensures Idle(Step(s, a)) <==> Idle(s) || (a.Settles? && s.awaited && Strands(s.queue, a.ok))
  {
    hide Process, EnqueueAll, Strands;
    match a
    case Data(messages) => if Flows(s) { PieceStrandsNothing(s, messages); }
    case Settles(ok) =>
      if s.awaited && ok {
        ProcessKeeps(s.(awaited := false));
        ProcessStrands(s.(awaited := false));
      }
      FailingStrands(s.queue);
    case Destroy =>
  }

  lemma FailingStrands(queue: seq<Message>)
    ensures Strands(queue, false) <==> queue != []
  {}

  /** Over any run: a socket that lives is stuck exactly if a step of the run stranded messages. */
  lemma {:induction false} RunStrandsExactly(actions: seq<Action>)
    requires !RunFrom(Initial, actions).destroyed
    ensures Stuck(RunFrom(Initial, actions)) <==> exists i :: 0 <= i < |actions| && StrandsAt(actions, i)
  {
    RunKeepsInv(actions);
    StuckExactly(RunFrom(Initial, actions));
    hide Stuck, Inv, StrandsAt;
    RunIdles(actions);
  }

  lemma {:induction false} RunIdles(actions: seq<Action>)
    requires !RunFrom(Initial, actions).destroyed
    ensures Idle(RunFrom(Initial, actions)) <==> exists i :: 0 <= i < |actions| && StrandsAt(actions, i)
  {
    if actions != [] {
      var before, a := actions[..|actions| - 1], actions[|actions| - 1];
      var s := RunFrom(Initial, before);
      RunKeepsInv(before);
      StepIdles(s, a);
      RunIdles(before);
      hide Step, Inv, Strands, Idle;
      if i :| 0 <= i < |before| && StrandsAt(before, i) { StrandsLater(actions, i); }
      if i :| 0 <= i < |actions| && StrandsAt(actions, i) { if i < |before| { StrandsLater(actions, i); } }
      if a.Settles? && s.awaited && Strands(s.queue, a.ok) { assert StrandsAt(actions, |actions| - 1); }
    }
  }

  const First: Message := Message(0, 1, Await)
  const Second: Message := Message(1, 1, Throw)
  const Third: Message := Message(2, 1, Return)

  /** Two messages in one piece: the first is awaited and fails, and the second is stuck. */
  lemma FailureIsReached(second: How)
    ensures var b := Message(1, 1, second);
            var s := RunFrom(Initial, [Data([First, b]), Settles(false)]);
            !s.destroyed && s.queue == [b] && s.delivered == [First] && Stuck(s)
  {
    var b := Message(1, 1, second);
    var all := [Data([First, b]), Settles(false)];
    PileUp([b]);
    hide EnqueueAll;
    TwoActions(Data([First, b]), Settles(false));
    assert [First] + [b] == [First, b];
    var s := RunFrom(Initial, all);
    forall more ensures RunFrom(s, more).delivered == s.delivered { StuckStays(s, more); }
  }

  /** Three messages in one piece: the first is awaited and done, the second throws, and the third is stuck. */
  lemma ThrowIsReached()
    ensures var s := RunFrom(Initial, [Data([First, Second, Third]), Settles(true)]);
            !s.destroyed && s.queue == [Third] && s.delivered == [First, Second] && Stuck(s)
  {
    var all := [Data([First, Second, Third]), Settles(true)];
    PileUp([Second, Third]);
    hide EnqueueAll;
    TwoActions(Data([First, Second, Third]), Settles(true));
    assert [First] + [Second, Third] == [First, Second, Third];
    assert [Second, Third][1..] == [Third] && [First] + [Second] == [First, Second];
    var s := RunFrom(Initial, all);
    forall more ensures RunFrom(s, more).delivered == s.delivered { StuckStays(s, more); }
  }

  lemma FirstIsAwaited()
    ensures Enqueue(Initial, First) == State([], 0, true, true, false, [First], [First], 0, 0)
  {
    var s := Queued(Initial, First);
    assert s.queue == [First] && [First][1..] == [];
    assert Process(s) == State([], 0, true, true, false, [First], [First], 0, 0);
  }

  /** Behind First, which is awaited, small messages pile up. */
  lemma {:induction false} PileUp(more: seq<Message>)
    requires |more| <= 2 && forall i :: 0 <= i < |more| ==> more[i].bytes == 1
    ensures EnqueueAll(Initial, [First] + more) == State(more, |more|, true, true, false, [First] + more, [First], 0, 0)
  {
    hide Enqueue;
    var none: seq<Message> := [];
    FirstIsAwaited();
    assert ([First] + more)[1..] == more;
    var one := State(none, 0, true, true, false, [First], [First], 0, 0);
    if more == [] { assert [First] + more == [First]; }
    else {
      var two := PileOne(one, more[0]);
      assert none + [more[0]] == [more[0]];
      if |more| == 1 {
        assert more == [more[0]] && more[1..] == none;
        assert [First] + [more[0]] == [First] + more;
        assert EnqueueAll(two, none) == two;
        assert EnqueueAll(one, more) == two;
      } else {
        var three := PileOne(two, more[1]);
        assert more[1..][0] == more[1] && more[1..][1..] == none && more == [more[0]] + [more[1]];
        assert [First] + [more[0]] + [more[1]] == [First] + more;
        assert EnqueueAll(three, none) == three;
        assert EnqueueAll(two, more[1..]) == three;
        assert EnqueueAll(one, more) == three;
      }
    }
  }

  lemma PileOne(s: State, m: Message) returns (t: State)
    requires s.awaited && !Full(s, m)
    ensures t == Enqueue(s, m) == Queued(s, m)
  {
    hide Process;
    t := Enqueue(s, m);
  }

  lemma TwoActions(a: Action, b: Action)
    ensures RunFrom(Initial, [a, b]) == Step(Step(Initial, a), b)
  {
    hide Step;
    var none: seq<Action> := [];
    assert [a, b][..1] == [a] && [a][..0] == none;
    assert RunFrom(Initial, none) == Initial;
    assert RunFrom(Initial, [a]) == Step(Initial, a);
  }

  lemma EnqueueOne(s: State, m: Message)
    ensures EnqueueAll(s, [m]) == Enqueue(s, m)
  {
    hide Enqueue;
    assert [m][1..] == [];
  }

  // ---------------------------------------------------------------- the socket's queue

  class Inbound {
    var queue: seq<Message>
    var bytes: int
    var processing: bool
    var paused: bool
    var destroyed: bool
    var accepted: seq<Message>
    var delivered: seq<Message>
    var faults: nat
    var failures: nat

    ghost function Now(): State
      reads this
    {
      State(queue, bytes, processing, paused, destroyed, accepted, delivered, faults, failures)
    }

    ghost predicate Valid()
      reads this
    {
      Inv(Now())
    }

    constructor ()
      ensures Now() == Initial && Valid()
    {
      queue, bytes, processing, paused, destroyed, accepted, delivered, faults, failures := [], 0, false, false, false, [], [], 0, 0;
    }

    /** Queues a message, or refuses it; an idle queue is worked off at once. */
    method EnqueueInbound(m: Message)
      requires Valid()
      modifies this
      ensures Valid() && Now() == Enqueue(old(Now()), m)
      ensures faults == old(faults) + if Full(old(Now()), m) then 1 else 0
    {
      EnqueueKeeps(Now(), m);
      if m.bytes > MaxBytes || |queue| >= MaxMessages || bytes + m.bytes > MaxBytes {
        faults := faults + 1;
        return;
      }
      queue, bytes, accepted := queue + [m], bytes + m.bytes, accepted + [m];
      paused := true;
      hide Inv;
      if !processing { ProcessQueue(); }
    }

    method ListenerSettles(ok: bool)
      requires Valid() && processing
      modifies this
      ensures Valid() && Now() == Step(old(Now()), Settles(ok))
    {
      StepKeepsInv(Now(), Settles(ok));
      processing := false;
      hide Inv;
      if ok { ProcessQueue(); }
      else {
        failures := failures + 1;
        Resume();
      }
    }

    /** Hands messages over until one is awaited, one throws, or none is left. */
    method ProcessQueue()
      requires !processing
      modifies this
      ensures Now() == Process(old(Now()))
    {
      ghost var goal := Process(Now());
      while !destroyed && queue != []
        invariant !processing && Process(Now()) == goal
        decreases |queue|
      {
        var m := queue[0];
        queue, bytes, delivered := queue[1..], bytes - m.bytes, delivered + [m];
        if m.how.Await? {
          processing := true;
          return;
        }
        if m.how.Throw? {
          failures := failures + 1;
          break;
        }
      }
      Resume();
    }

    method Resume()
      modifies this
      ensures Now() == Leave(old(Now()))
    {
      if !destroyed && queue == [] { paused := false; }
    }
  }
}
