// The Python Broker's WebSocket accounts for the frames that wait for its send lock.

module SendAccounting {
  const MaxBytes: nat := 1024 * 1024
  const MaxMessages: nat := 64

  datatype Phase = Waiting | Holding | Done

  /** One call of `_send_frame` that was let in. */
  datatype Sender = Sender(bytes: nat, phase: Phase)

  datatype State = State(
    senders: seq<Sender>,
    pending: nat,             // _pending_messages
    reserved: nat,            // _reserved_bytes
    outbound: nat,            // _outbound_bytes
    closed: bool)

  const Initial: State := State([], 0, 0, 0, false)

  datatype Action =
    | Start(bytes: nat)
    | Acquire(i: nat)         // the send lock is granted
    | Finish(i: nat)          // sent, failed or cancelled while holding the lock
    | GiveUp(i: nat)          // cancelled while waiting for it
    | Close

  function Less(a: nat, b: nat): nat {
    if a >= b then a - b else 0
  }

  predicate LockFree(senders: seq<Sender>) {
    forall i :: 0 <= i < |senders| ==> !senders[i].phase.Holding?
  }

  predicate Admits(s: State, bytes: nat) {
    !s.closed && bytes <= MaxBytes && s.pending < MaxMessages && s.reserved + bytes <= MaxBytes
  }

  function Leave(s: State, i: nat): State
    requires i < |s.senders|
  {
    var b := s.senders[i].bytes;
    s.(senders := s.senders[i := Sender(b, Done)], pending := Less(s.pending, 1), reserved := Less(s.reserved, b))
  }

  function Step(s: State, a: Action): State {
    match a
    case Start(bytes) =>
      if !Admits(s, bytes) then s
      else s.(senders := s.senders + [Sender(bytes, Waiting)], pending := s.pending + 1, reserved := s.reserved + bytes)
    case Acquire(i) =>
      if i < |s.senders| && s.senders[i].phase.Waiting? && LockFree(s.senders) then
        s.(senders := s.senders[i := s.senders[i].(phase := Holding)], outbound := s.outbound + s.senders[i].bytes)
      else s
    case Finish(i) =>
      if i < |s.senders| && s.senders[i].phase.Holding? then
        Leave(s.(outbound := Less(s.outbound, s.senders[i].bytes)), i)
      else s
    case GiveUp(i) => if i < |s.senders| && s.senders[i].phase.Waiting? then Leave(s, i) else s
    case Close => s.(closed := true)
  }

  function Run(actions: seq<Action>): State {
    if actions == [] then Initial else Step(Run(actions[..|actions| - 1]), actions[|actions| - 1])
  }

  // sums over the senders that are not done

  function Active(senders: seq<Sender>): nat {
    if senders == [] then 0 else Active(senders[1..]) + (if senders[0].phase.Done? then 0 else 1)
  }

  function ActiveBytes(senders: seq<Sender>): nat {
    if senders == [] then 0 else ActiveBytes(senders[1..]) + (if senders[0].phase.Done? then 0 else senders[0].bytes)
  }

  function HeldBytes(senders: seq<Sender>): nat {
    if senders == [] then 0 else HeldBytes(senders[1..]) + (if senders[0].phase.Holding? then senders[0].bytes else 0)
  }

  lemma {:induction false} Joins(senders: seq<Sender>, bytes: nat)
    ensures var more := senders + [Sender(bytes, Waiting)];
            Active(more) == Active(senders) + 1 && ActiveBytes(more) == ActiveBytes(senders) + bytes && HeldBytes(more) == HeldBytes(senders)
  {
    if senders != [] {
      assert (senders + [Sender(bytes, Waiting)])[1..] == senders[1..] + [Sender(bytes, Waiting)];
      Joins(senders[1..], bytes);
    }
  }

  lemma {:induction false} Changes(senders: seq<Sender>, i: nat, phase: Phase)
    requires i < |senders|
    ensures var was, then_ := senders[i], senders[i := senders[i].(phase := phase)];
            && Active(then_) + (if was.phase.Done? then 0 else 1) == Active(senders) + (if phase.Done? then 0 else 1)
            && ActiveBytes(then_) + (if was.phase.Done? then 0 else was.bytes) == ActiveBytes(senders) + (if phase.Done? then 0 else was.bytes)
            && HeldBytes(then_) + (if was.phase.Holding? then was.bytes else 0) == HeldBytes(senders) + (if phase.Holding? then was.bytes else 0)
  {
    var then_ := senders[i := senders[i].(phase := phase)];
    if i == 0 { assert then_[1..] == senders[1..]; }
    else {
      Changes(senders[1..], i - 1, phase);
      assert then_[1..] == senders[1..][i - 1 := senders[i].(phase := phase)];
    }
  }

  /** The counters are what the calls in progress add up to, and one call at most holds the lock. */
  ghost predicate Exact(s: State) {
    && s.pending == Active(s.senders) && s.reserved == ActiveBytes(s.senders) && s.outbound == HeldBytes(s.senders)
    && s.pending <= MaxMessages && s.reserved <= MaxBytes
    && (forall i, j :: 0 <= i < j < |s.senders| ==> !(s.senders[i].phase.Holding? && s.senders[j].phase.Holding?))
  }

  lemma StepKeepsExact(s: State, a: Action)
    requires Exact(s)
    ensures Exact(Step(s, a))
  {
    match a
    case Start(bytes) => Joins(s.senders, bytes);
    case Acquire(i) => if i < |s.senders| { Changes(s.senders, i, Holding); }
    case Finish(i) => if i < |s.senders| { Changes(s.senders, i, Done); }
    case GiveUp(i) => if i < |s.senders| { Changes(s.senders, i, Done); }
    case Close =>
  }

  /** In every run the counters are exact and within their limits, so no subtraction is ever cut off at zero. */
  lemma {:induction false} CountersAreExact(actions: seq<Action>)
    ensures Exact(Run(actions))
  {
    if actions != [] {
      hide Exact, Step;
      CountersAreExact(actions[..|actions| - 1]);
      StepKeepsExact(Run(actions[..|actions| - 1]), actions[|actions| - 1]);
    } else {
      assert Exact(Initial);
    }
  }

  /** A call is let in exactly if the socket is open and there is room among the calls in progress. */
  lemma AdmittedExactly(actions: seq<Action>, bytes: nat)
    ensures var s := Run(actions);
            var t := Step(s, Start(bytes));
            if !s.closed && Active(s.senders) < 64 && ActiveBytes(s.senders) + bytes <= 1048576
            then t.senders == s.senders + [Sender(bytes, Waiting)] && t.pending == s.pending + 1 && t.reserved == s.reserved + bytes
            else t == s
  {
    CountersAreExact(actions);
  }

  /** The lock goes to a call that waits, one at a time, and its bytes count as under way until it is done. */
  lemma LockExactly(s: State, i: nat)
    requires i < |s.senders|
    ensures var t := Step(s, Acquire(i));
            if s.senders[i].phase.Waiting? && forall j :: 0 <= j < |s.senders| ==> !s.senders[j].phase.Holding?
            then t.senders == s.senders[i := Sender(s.senders[i].bytes, Holding)] && t.outbound == s.outbound + s.senders[i].bytes
            else t == s
  {}

  /** Whoever leaves gives back exactly what it took. */
  lemma {:induction false} LeavingGivesBack(actions: seq<Action>, i: nat)
    requires var s := Run(actions); i < |s.senders| && !s.senders[i].phase.Done?
    ensures var s := Run(actions);
            var t := Leave(s, i);
            t.pending + 1 == s.pending && t.reserved + s.senders[i].bytes == s.reserved
    ensures var s := Run(actions);
            s.senders[i].phase.Holding? ==> Step(s, Finish(i)).outbound + s.senders[i].bytes == s.outbound
  {
    CountersAreExact(actions);
    Changes(Run(actions).senders, i, Done);
  }

  class SendSide {
    var senders: seq<Sender>
    var pending: nat
    var reserved: nat
    var outbound: nat
    var closed: bool

    ghost function Now(): State
      reads this
    {
      State(senders, pending, reserved, outbound, closed)
    }

    ghost predicate Valid()
      reads this
    {
      Exact(Now())
    }

    constructor ()
      ensures Now() == Initial && Valid()
    {
      senders, pending, reserved, outbound, closed := [], 0, 0, 0, false;
    }

    method SendFrame(bytes: nat) returns (admitted: bool)
      requires Valid()
      modifies this
      ensures Now() == Step(old(Now()), Start(bytes)) && admitted == Admits(old(Now()), bytes)
      ensures Valid()
    {
      hide Exact;
      StepKeepsExact(Now(), Start(bytes));
      if closed { return false; }
      if bytes > MaxBytes { return false; }
      if pending >= MaxMessages || reserved + bytes > MaxBytes { return false; }
      pending, reserved := pending + 1, reserved + bytes;
      senders := senders + [Sender(bytes, Waiting)];
      return true;
    }

    method LockGranted(i: nat)
      requires i < |senders| && senders[i].phase.Waiting? && LockFree(senders)
      requires Valid()
      modifies this
      ensures Now() == Step(old(Now()), Acquire(i))
      ensures Valid()
    {
      hide Exact;
      StepKeepsExact(Now(), Acquire(i));
      outbound := outbound + senders[i].bytes;
      senders := senders[i := senders[i].(phase := Holding)];
    }

    method SendOver(i: nat)
      requires i < |senders| && senders[i].phase.Holding?
      requires Valid()
      modifies this
      ensures Now() == Step(old(Now()), Finish(i))
      ensures Valid()
    {
      hide Exact;
      StepKeepsExact(Now(), Finish(i));
      outbound := Less(outbound, senders[i].bytes);
      GiveBack(i);
    }

    method GiveBack(i: nat)
      requires i < |senders|
      modifies this
      ensures Now() == Leave(old(Now()), i)
    {
      pending := Less(pending, 1);
      reserved := Less(reserved, senders[i].bytes);
      senders := senders[i := senders[i].(phase := Done)];
    }
  }
}
