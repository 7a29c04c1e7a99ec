// Laws of windowed sending over the fields themselves: limits, windows, wake-ups.

module WindowedLaws {
  import opened Bytes
  import opened WindowedSend
  import opened WindowedRuns

  // ---------------------------------------------------------------- one region

  /** The window of a stream, as the fields have it. */
  function StreamWindow(s: State, stream: nat): int {
    s.initialWindow + (if stream in s.adjust then s.adjust[stream] else 0)
  }

  /** What a peer allows in one frame at this moment. */
  predicate Allowed(s: State, stream: nat, payload: seq<byte>) {
    && |payload| <= (if s.frameSize == 0 then 16384 else s.frameSize)
    && (payload != [] ==> |payload| <= s.connection && |payload| <= StreamWindow(s, stream))
  }

  /** The frame is as long as the data left, the frame size and both windows let it be. */
  predicate Maximal(s: State, p: Sender, payload: seq<byte>) {
    || p.offset + |payload| == |p.data|
    || |payload| == (if s.frameSize == 0 then 16384 else s.frameSize)
    || |payload| == s.connection || |payload| == StreamWindow(s, p.stream)
  }

  /** One frame goes out: the next bytes of the data, charged to both windows; END_STREAM goes with the last. */
  predicate SendsOne(s: State, t: State, i: nat)
    requires i < |s.senders|
  {
    var p := s.senders[i];
    && |t.wire| == |s.wire| + 1 && t.wire[..|s.wire|] == s.wire && |t.senders| == |s.senders|
    && var payload := t.wire[|s.wire|].payload;
       var q := t.senders[i];
       && t.wire[|s.wire|].sender == i && p.offset + |payload| <= |p.data| && payload == p.data[p.offset..p.offset + |payload|]
       && Allowed(s, p.stream, payload) && Maximal(s, p, payload)
       && (t.wire[|s.wire|].endStream <==> p.endStream && p.offset + |payload| == |p.data|)
       && q.offset == p.offset + |payload| && (q.phase.Finished? <==> q.offset == |p.data|) && (q.phase.Finished? || q.phase.Ready?)
       && t.connection == s.connection - |payload| && StreamWindow(t, p.stream) == StreamWindow(s, p.stream) - |payload|
  }

  /** A pass under the lock sends one frame that the peer allows, or sleeps exactly if a window is closed and data is left. */
  lemma RegionLaw(s: State, i: nat)
    requires Shaped(s) && i < |s.senders| && s.senders[i].phase.Ready?
    ensures var t, p := Step(s, Region(i)), s.senders[i];
            if p.data != [] && (s.connection <= 0 || StreamWindow(s, p.stream) <= 0) then
              t.wire == s.wire && t.senders[i].phase.Asleep? && t.connection == s.connection && t.adjust == s.adjust
            else SendsOne(s, t, i)
  {}

  /** A call on an open stream joins the senders, with all its data to send. */
  lemma StartLaw(s: State, stream: nat, data: seq<byte>, endStream: bool)
    requires Shaped(s)
    ensures Step(s, Start(stream, data, endStream))
         == if stream == 0 then s else s.(senders := s.senders + [Sender(stream, data, endStream, 0, Ready)])
  {}

  /** A cancelled sender has failed; the Broker forgets its waiter, the Guest keeps it, and nobody else is touched. */
  lemma CancelLaw(s: State, i: nat, tidy: bool, stream: nat, w: nat)
    requires Shaped(s) && i < |s.senders| && s.senders[i].phase.Asleep?
    ensures var t, p := Step(s, Abandon(i, tidy)), s.senders[i];
            && t.senders == s.senders[i := p.(phase := Failed)] && t.wire == s.wire
            && (w in Registered(t.waiters, stream) <==> w in Registered(s.waiters, stream) && !(tidy && stream == p.stream && w == p.phase.waiter))
            && (w != p.phase.waiter ==> (w in t.resolved <==> w in s.resolved) && (w in s.resolved ==> t.resolved[w] == s.resolved[w]))
  {
    var p := s.senders[i];
    WithoutKeepsOthers(Registered(s.waiters, p.stream), p.phase.waiter, w);
    hide Without;
  }

  /** What a run has put on the wire at one of its steps was allowed then. */
  ghost predicate SentAt(start: State, actions: seq<Action>, m: nat, k: nat)
    requires Shaped(start) && k < |actions|
  {
    var s, t := Run(start, actions[..k]), Run(start, actions[..k + 1]);
    && |s.wire| == m && |t.wire| == m + 1 && actions[k].Region? && actions[k].sender < |s.senders|
    && t.wire[m].sender == actions[k].sender
    && Allowed(s, s.senders[actions[k].sender].stream, t.wire[m].payload)
  }

  lemma WireGrows(s: State, a: Action)
    requires Shaped(s)
    ensures var t := Step(s, a);
            t.wire == s.wire || (a.Region? && a.sender < |s.senders| && s.senders[a.sender].phase.Ready? && SendsOne(s, t, a.sender))
  {
    match a
    case Region(i) => if i < |s.senders| && s.senders[i].phase.Ready? { hide Step, SendsOne; RegionLaw(s, i); }
    case Read(events) => ApplyKeepsSenders(s, events); ReactKeepsSenders(ApplyAll(s, events), events);
    case _ =>
  }

  /** Every frame on the wire was within the frame size and both windows when it was sent. */
  lemma {:induction false} EveryFrameWasAllowed(start: State, actions: seq<Action>, m: nat) returns (k: nat)
    requires Shaped(start) && start.wire == [] && m < |Run(start, actions).wire|
    ensures k < |actions| && SentAt(start, actions, m, k)
    ensures Run(start, actions[..k + 1]).wire[m] == Run(start, actions).wire[m]
  {
    var before, last := actions[..|actions| - 1], actions[|actions| - 1];
    var s := Run(start, before);
    WireGrows(s, last);
    hide Step;
    if m < |s.wire| {
      k := EveryFrameWasAllowed(start, before, m);
      assert before[..k] == actions[..k] && before[..k + 1] == actions[..k + 1];
      assert Run(start, actions).wire[m] == s.wire[m];
    } else {
      k := |actions| - 1;
      assert actions[..k] == before && actions[..k + 1] == actions;
    }
  }

  // ---------------------------------------------------------------- the windows over a run

  /** What the events of a batch add to the window of a stream, or to the connection's. */
  function Granted(events: seq<Event>, stream: nat): nat {
    if events == [] then 0
    else
      var e := events[|events| - 1];
      Granted(events[..|events| - 1], stream) + (if e.WindowUpdate? && e.stream == stream then e.increment else 0)
  }

  function Retuned(events: seq<Event>): int {
    if events == [] then 0
    else
      var e := events[|events| - 1];
      Retuned(events[..|events| - 1]) + (if e.SettingsWindow? then e.delta else 0)
  }

  function GrantedBy(actions: seq<Action>, stream: nat): nat {
    if actions == [] then 0
    else
      var a := actions[|actions| - 1];
      GrantedBy(actions[..|actions| - 1], stream) + (if a.Read? then Granted(a.events, stream) else 0)
  }

  function RetunedBy(actions: seq<Action>): int {
    if actions == [] then 0
    else
      var a := actions[|actions| - 1];
      RetunedBy(actions[..|actions| - 1]) + (if a.Read? then Retuned(a.events) else 0)
  }

  /** The bytes sent on a stream, or on all for stream 0. */
  function Sent(wire: seq<Frame>, senders: seq<Sender>, stream: nat): nat {
    if wire == [] then 0
    else
      var f := wire[|wire| - 1];
      Sent(wire[..|wire| - 1], senders, stream)
      + (if f.sender < |senders| && (stream == 0 || senders[f.sender].stream == stream) then |f.payload| else 0)
  }

  lemma {:induction false} ApplyAdds(s: State, events: seq<Event>, stream: nat)
    requires stream != 0
    ensures var r := ApplyAll(s, events);
            && r.connection == s.connection + Granted(events, 0)
            && StreamWindow(r, stream) == StreamWindow(s, stream) + Retuned(events) + Granted(events, stream)
  {
    if events != [] { ApplyAdds(s, events[..|events| - 1], stream); }
  }

  /** The senders are the same ones on the same streams, and perhaps some more. */
  predicate SameStreams(senders: seq<Sender>, more: seq<Sender>) {
    |senders| <= |more| && forall i :: 0 <= i < |senders| ==> more[i].stream == senders[i].stream
  }

  predicate FromSenders(wire: seq<Frame>, senders: seq<Sender>) {
    forall k :: 0 <= k < |wire| ==> wire[k].sender < |senders|
  }

  lemma {:induction false} SentStays(wire: seq<Frame>, senders: seq<Sender>, more: seq<Sender>, stream: nat)
    requires FromSenders(wire, senders) && SameStreams(senders, more)
    ensures Sent(wire, more, stream) == Sent(wire, senders, stream)
  {
    if wire != [] {
      assert FromSenders(wire[..|wire| - 1], senders);
      SentStays(wire[..|wire| - 1], senders, more, stream);
      assert wire[|wire| - 1].sender < |senders|;
    }
  }

  lemma {:induction false} KeepsStreams(s: State, a: Action)
    requires Shaped(s)
    ensures SameStreams(s.senders, Step(s, a).senders)
  {
    if a.Read? { ApplyKeepsSenders(s, a.events); ReactKeepsSenders(ApplyAll(s, a.events), a.events); }
  }

  /** Windows of the connection and of each stream: what they began with, what the peer granted, and what was sent. */
  ghost predicate Balanced(start: State, s: State, actions: seq<Action>) {
    && FromSenders(s.wire, s.senders) && (forall i :: 0 <= i < |s.senders| ==> s.senders[i].stream != 0)
    && s.connection == start.connection + GrantedBy(actions, 0) - Sent(s.wire, s.senders, 0)
    && forall stream: nat :: stream != 0 ==> BalancedOn(start, s, actions, stream)
  }

  predicate BalancedOn(start: State, s: State, actions: seq<Action>, stream: nat) {
    StreamWindow(s, stream)
    == start.initialWindow + RetunedBy(actions) + GrantedBy(actions, stream) - Sent(s.wire, s.senders, stream)
  }

  lemma QuietStep(s: State, a: Action)
    requires Shaped(s) && Step(s, a).wire == s.wire && (a.Region? ==> Step(s, a) == s || (a.sender < |s.senders| && s.senders[a.sender].phase.Ready?))
    ensures var t := Step(s, a);
            && t.connection == s.connection + (if a.Read? then Granted(a.events, 0) else 0)
            && forall stream: nat :: stream != 0 ==>
                 StreamWindow(t, stream) == StreamWindow(s, stream) + (if a.Read? then Retuned(a.events) + Granted(a.events, stream) else 0)
  {
    if a.Read? {
      ReactKeepsSenders(ApplyAll(s, a.events), a.events);
      ApplyAdds(s, a.events, 1);
      forall stream: nat | stream != 0
        ensures StreamWindow(Step(s, a), stream) == StreamWindow(s, stream) + Retuned(a.events) + Granted(a.events, stream)
      {
        ApplyAdds(s, a.events, stream);
      }
    }
  }

  lemma SendOnlyOn(s: State, i: nat, stream: nat)
    requires Shaped(s) && i < |s.senders| && s.senders[i].phase.Ready? && stream != s.senders[i].stream
    ensures StreamWindow(Step(s, Region(i)), stream) == StreamWindow(s, stream)
  {}

  lemma SentMore(s: State, t: State, stream: nat)
    requires |t.wire| == |s.wire| + 1 && t.wire[..|s.wire|] == s.wire
    requires FromSenders(s.wire, s.senders) && SameStreams(s.senders, t.senders) && |t.senders| == |s.senders|
    requires t.wire[|s.wire|].sender < |s.senders|
    ensures var f := t.wire[|s.wire|];
            Sent(t.wire, t.senders, stream) == Sent(s.wire, s.senders, stream)
              + (if stream == 0 || s.senders[f.sender].stream == stream then |f.payload| else 0)
  {
    SentStays(s.wire, s.senders, t.senders, stream);
  }

  /** Over any run the windows are what was granted less what was sent. */
  lemma {:induction false} WindowsAreBalanced(start: State, actions: seq<Action>)
    requires start == Opened(start.connection, start.initialWindow, start.frameSize)
    ensures Balanced(start, Run(start, actions), actions)
  {
    if actions == [] {}
    else {
      var before, a := actions[..|actions| - 1], actions[|actions| - 1];
      var s := Run(start, before);
      WindowsAreBalanced(start, before);
      BalancedStep(start, s, before, a);
      assert before + [a] == actions;
    }
  }

  lemma BalancedStep(start: State, s: State, actions: seq<Action>, a: Action)
    requires Shaped(s) && Balanced(start, s, actions)
    ensures Balanced(start, Step(s, a), actions + [a])
  {
    var t := Step(s, a);
    assert (actions + [a])[..|actions|] == actions;
    WireGrows(s, a);
    KeepsStreams(s, a);
    StreamsStayOpen(s, a);
    if t.wire == s.wire {
      QuietStep(s, a);
      hide Step, SendsOne;
      SentStays(s.wire, s.senders, t.senders, 0);
      forall stream: nat | stream != 0 ensures BalancedOn(start, t, actions + [a], stream) {
        SentStays(s.wire, s.senders, t.senders, stream);
        assert BalancedOn(start, s, actions, stream);
      }
    } else {
      var i := a.sender;
      SentMore(s, t, 0);
      forall stream: nat | stream != 0 ensures BalancedOn(start, t, actions + [a], stream) {
        SentMore(s, t, stream);
        if stream != s.senders[i].stream { SendOnlyOn(s, i, stream); }
        assert BalancedOn(start, s, actions, stream);
      }
      hide Step;
      assert FromSenders(t.wire, t.senders) by {
        forall k | 0 <= k < |t.wire| ensures t.wire[k].sender < |t.senders| { if k < |s.wire| { assert t.wire[k] == s.wire[k]; } }
      }
    }
  }

  lemma StreamsStayOpen(s: State, a: Action)
    requires Shaped(s) && forall i :: 0 <= i < |s.senders| ==> s.senders[i].stream != 0
    ensures forall i :: 0 <= i < |Step(s, a).senders| ==> Step(s, a).senders[i].stream != 0
  {
    if a.Read? { ApplyKeepsSenders(s, a.events); ReactKeepsSenders(ApplyAll(s, a.events), a.events); }
  }

  // ---------------------------------------------------------------- who is woken, and how

  /** The event wakes those who wait on the stream. */
  predicate Wakes(e: Event, stream: nat) {
    (e.WindowUpdate? && (e.stream == 0 || e.stream == stream)) || e == Gone(stream)
  }

  /** The first event of a batch that wakes the stream's sleepers, or |events|. */
  function FirstWaking(events: seq<Event>, stream: nat): (k: nat)
    ensures k <= |events| && (k < |events| ==> Wakes(events[k], stream))
    ensures forall i :: 0 <= i < k ==> !Wakes(events[i], stream)
  {
    if events == [] || Wakes(events[0], stream) then 0 else 1 + FirstWaking(events[1..], stream)
  }

  /** A registered waiter is settled by the first event that names its stream or the connection: well by a window update, badly by the stream's end. */
  lemma {:induction false} FirstWakingSettles(s: State, events: seq<Event>, stream: nat, w: nat, bound: nat)
    requires stream != 0 && Below(s, bound) && w !in s.resolved && w in Registered(s.waiters, stream)
    ensures var r, k := ReactAll(s, events), FirstWaking(events, stream);
            if k == |events| then w !in r.resolved && w in Registered(r.waiters, stream)
            else w in r.resolved && r.resolved[w] == events[k].WindowUpdate?
  {
    if events != [] {
      var before, e := events[..|events| - 1], events[|events| - 1];
      FirstWakingSettles(s, before, stream, w, bound);
      ReactAllStaysBelow(s, before, bound);
      FirstOfMore(before, e, stream);
      assert events == before + [e];
      ReactOne(ReactAll(s, before), e, stream, w, bound);
    }
  }

  lemma FirstOfMore(events: seq<Event>, e: Event, stream: nat)
    ensures var k := FirstWaking(events, stream);
            FirstWaking(events + [e], stream) == if k < |events| then k else if Wakes(e, stream) then |events| else |events| + 1
  {
    var k, l := FirstWaking(events, stream), FirstWaking(events + [e], stream);
    assert forall i :: 0 <= i < |events| ==> (events + [e])[i] == events[i];
    assert (events + [e])[|events|] == e;
  }

  lemma ReactOne(s: State, e: Event, stream: nat, w: nat, bound: nat)
    requires stream != 0 && Below(s, bound)
    ensures w in s.resolved ==> w in React(s, e).resolved && React(s, e).resolved[w] == s.resolved[w]
    ensures w !in s.resolved && w in Registered(s.waiters, stream) ==>
              if Wakes(e, stream) then w in React(s, e).resolved && React(s, e).resolved[w] == e.WindowUpdate?
              else w !in React(s, e).resolved && w in Registered(React(s, e).waiters, stream)
  {}

  /** A batch leaves a sleeper asleep exactly if none of its events wakes it; otherwise it can go on, or has failed, as the first says. */
  lemma BatchWakesExactly(s: State, events: seq<Event>, i: nat)
    requires Shaped(s) && Findable(s) && Sleeping(s, i)
    ensures Shaped(Step(s, Read(events))) && Step(s, Read(events)).senders == s.senders
    ensures var t, stream := Step(s, Read(events)), s.senders[i].stream;
            var k, w := FirstWaking(events, stream), s.senders[i].phase.waiter;
            if k == |events| then Sleeping(t, i)
            else
              && w in t.resolved && t.resolved[w] == events[k].WindowUpdate?
              && Step(t, Continue(i)).senders[i].phase == if events[k].WindowUpdate? then Ready else Failed
  {
    hide ApplyAll, ReactAll, FirstWaking;
    var m := ApplyAll(s, events);
    ApplyKeepsSenders(s, events);
    ReactKeepsSenders(m, events);
    SleeperIsRegistered(s, m, i);
    hide Findable, Below;
    FirstWakingSettles(m, events, s.senders[i].stream, s.senders[i].phase.waiter, s.nextWaiter);
  }

  lemma SleeperIsRegistered(s: State, m: State, i: nat)
    requires Findable(s) && Sleeping(s, i) && m.waiters == s.waiters && m.resolved == s.resolved
    ensures s.senders[i].stream != 0 && Below(m, s.nextWaiter)
    ensures s.senders[i].phase.waiter in Registered(m.waiters, s.senders[i].stream)
  {}

  /** Sender i was cancelled, or its stream was reported gone. */
  ghost predicate Stopped(actions: seq<Action>, i: nat, stream: nat) {
    exists k :: 0 <= k < |actions| && StopsIt(actions[k], i, stream)
  }

  predicate StopsIt(a: Action, i: nat, stream: nat) {
    (a.Abandon? && a.sender == i) || (a.Read? && Gone(stream) in a.events)
  }

  /** A sender that has failed, or will when it goes on, was stopped. */
  ghost predicate FailsForCause(s: State, actions: seq<Action>, i: nat) {
    i < |s.senders| ==>
      var p := s.senders[i];
      p.phase.Failed? || (p.phase.Asleep? && p.phase.waiter in s.resolved && !s.resolved[p.phase.waiter]) ==> Stopped(actions, i, p.stream)
  }

  lemma StoppedStays(actions: seq<Action>, a: Action, i: nat, stream: nat)
    ensures Stopped(actions, i, stream) || StopsIt(a, i, stream) ==> Stopped(actions + [a], i, stream)
  {
    var more := actions + [a];
    if Stopped(actions, i, stream) { var k :| 0 <= k < |actions| && StopsIt(actions[k], i, stream); assert more[k] == actions[k]; }
    if StopsIt(a, i, stream) { assert more[|actions|] == a; }
  }

  lemma {:induction false} SettledStays(s: State, events: seq<Event>, w: nat)
    requires w in s.resolved
    ensures w in ReactAll(s, events).resolved && ReactAll(s, events).resolved[w] == s.resolved[w]
  {
    if events != [] { SettledStays(s, events[..|events| - 1], w); }
  }

  lemma ReadFailsForCause(s: State, actions: seq<Action>, events: seq<Event>, i: nat)
    requires Shaped(s) && Findable(s) && FailsForCause(s, actions, i)
    ensures FailsForCause(Step(s, Read(events)), actions + [Read(events)], i)
  {
    var m := ApplyAll(s, events);
    ApplyKeepsSenders(s, events);
    ReactKeepsSenders(m, events);
    if i < |s.senders| && s.senders[i].phase.Asleep? {
      var stream, w := s.senders[i].stream, s.senders[i].phase.waiter;
      StoppedStays(actions, Read(events), i, stream);
      if w in s.resolved { SettledStays(m, events, w); } else { FirstWakingSettles(m, events, stream, w, s.nextWaiter); }
    } else if i < |s.senders| { StoppedStays(actions, Read(events), i, s.senders[i].stream); }
  }

  lemma StepFailsForCause(s: State, actions: seq<Action>, a: Action, i: nat)
    requires Shaped(s) && Findable(s) && FailsForCause(s, actions, i)
    ensures FailsForCause(Step(s, a), actions + [a], i)
  {
    if a.Read? { ReadFailsForCause(s, actions, a.events, i); }
    else if i < |s.senders| {
      StoppedStays(actions, a, i, s.senders[i].stream);
      hide Stopped;
      if a.Abandon? && a.sender < |s.senders| && a.sender != i && s.senders[a.sender].phase.Asleep? && s.senders[i].phase.Asleep? {
        assert Sleeping(s, a.sender) || s.senders[a.sender].phase.waiter in s.resolved;
        assert Sleeping(s, i) || s.senders[i].phase.waiter in s.resolved;
      }
    }
  }

  lemma OpenedIsFindable(connection: int, initialWindow: int, frameSize: nat)
    ensures Findable(Opened(connection, initialWindow, frameSize))
  {}

  /** No sender fails over a run unless it was cancelled or its stream was reported gone. */
  lemma {:induction false} FailureHasCause(start: State, actions: seq<Action>, i: nat)
    requires start == Opened(start.connection, start.initialWindow, start.frameSize)
    ensures FailsForCause(Run(start, actions), actions, i) && Findable(Run(start, actions))
  {
    if actions == [] { OpenedIsFindable(start.connection, start.initialWindow, start.frameSize); }
    else {
      var before, a := actions[..|actions| - 1], actions[|actions| - 1];
      FailureHasCause(start, before, i);
      hide Step, Findable, FailsForCause;
      StepStrandsNobody(Run(start, before), a);
      StepFailsForCause(Run(start, before), before, a, i);
      assert before + [a] == actions;
    }
  }

  /** No sleeper of a run without growth by SETTINGS has an open window, as the fields have it. */
  lemma SleepersAreClosed(start: State, actions: seq<Action>, i: nat)
    requires start == Opened(start.connection, start.initialWindow, start.frameSize) && NoSettingsGrowth(actions)
    requires Sleeping(Run(start, actions), i)
    ensures var s := Run(start, actions); s.connection <= 0 || StreamWindow(s, s.senders[i].stream) <= 0
  {
    NobodySleepsThroughAnOpenWindow(start.connection, start.initialWindow, start.frameSize, actions);
  }

  /** The frame size a run is at: the last one the peer set, or the first. */
  function LastLimit(frameSize: nat, actions: seq<Action>): nat {
    if actions == [] then frameSize
    else
      var last := actions[|actions| - 1];
      if last.Limit? then last.frameSize else LastLimit(frameSize, actions[..|actions| - 1])
  }

  lemma {:induction false} FrameSizeIsTheLastSet(start: State, actions: seq<Action>)
    requires Shaped(start)
    ensures Run(start, actions).frameSize == LastLimit(start.frameSize, actions)
  {
    if actions != [] {
      FrameSizeIsTheLastSet(start, actions[..|actions| - 1]);
      hide Step;
      OnlyLimitsLimit(Run(start, actions[..|actions| - 1]), actions[|actions| - 1]);
    }
  }

  lemma OnlyLimitsLimit(s: State, a: Action)
    requires Shaped(s)
    ensures Step(s, a).frameSize == if a.Limit? then a.frameSize else s.frameSize
  {
    if a.Read? {
      AppliedLimit(s, a.events);
      ReactedLimit(ApplyAll(s, a.events), a.events);
    }
  }

  lemma {:induction false} AppliedLimit(s: State, events: seq<Event>)
    ensures ApplyAll(s, events).frameSize == s.frameSize
  {
    if events != [] { AppliedLimit(s, events[..|events| - 1]); }
  }

  lemma {:induction false} ReactedLimit(s: State, events: seq<Event>)
    ensures ReactAll(s, events).frameSize == s.frameSize
  {
    if events != [] { ReactedLimit(s, events[..|events| - 1]); }
  }
}
