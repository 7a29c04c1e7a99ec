// What windowed sending promises over whole runs.

module WindowedRuns {
  import opened Bytes
  import opened WindowedSend

  /** In every run every sender's frames spell a prefix of its data within the limits. */
  lemma {:induction false} FramesCarryTheData(connection: int, initialWindow: int, frameSize: nat, actions: seq<Action>)
    ensures WireInv(Run(Opened(connection, initialWindow, frameSize), actions))
  {
    if actions != [] {
      FramesCarryTheData(connection, initialWindow, frameSize, actions[..|actions| - 1]);
      StepKeepsWireInv(Run(Opened(connection, initialWindow, frameSize), actions[..|actions| - 1]), actions[|actions| - 1]);
    }
  }

  /** A finished call put exactly its data on the wire, with END_STREAM on its last frame only, if asked for. */
  lemma FinishedMeansSent(connection: int, initialWindow: int, frameSize: nat, actions: seq<Action>, i: nat)
    requires var s := Run(Opened(connection, initialWindow, frameSize), actions);
             i < |s.senders| && s.senders[i].phase.Finished?
    ensures var s := Run(Opened(connection, initialWindow, frameSize), actions);
            var p, frames := s.senders[i], FramesOf(s.wire, i);
            && Payload(frames) == p.data
            && frames != []
            && (forall k :: 0 <= k < |frames| ==> frames[k].endStream == (p.endStream && k == |frames| - 1))
  {
    FramesCarryTheData(connection, initialWindow, frameSize, actions);
    var s := Run(Opened(connection, initialWindow, frameSize), actions);
    assert Delivers(s.senders[i], FramesOf(s.wire, i));
    assert s.senders[i].data[..|s.senders[i].data|] == s.senders[i].data;
  }

  /**
   * No lost wake-up: when windows grow only through WINDOW_UPDATE, no sender of any run
   * ever sleeps while its window is open.
   */
  lemma {:induction false} NobodySleepsThroughAnOpenWindow(
    connection: int, initialWindow: int, frameSize: nat, actions: seq<Action>)
    requires NoSettingsGrowth(actions)
    ensures var s := Run(Opened(connection, initialWindow, frameSize), actions); Findable(s) && NoneStranded(s)
  {
    if actions != [] {
      var before := actions[..|actions| - 1];
      assert forall k :: 0 <= k < |before| ==> before[k] == actions[k];
      NobodySleepsThroughAnOpenWindow(connection, initialWindow, frameSize, before);
      StepStrandsNobody(Run(Opened(connection, initialWindow, frameSize), before), actions[|actions| - 1]);
    }
  }

  // ---------------------------------------------------------------- windows that grow through SETTINGS

  function SettingsSum(events: seq<Event>): int {
    if events == [] then 0
    else
      var last := events[|events| - 1];
      SettingsSum(events[..|events| - 1]) + (if last.SettingsWindow? then last.delta else 0)
  }

  predicate Ends(events: seq<Event>, stream: nat) {
    exists k :: 0 <= k < |events| && events[k] == Gone(stream)
  }

  lemma {:induction false} QuietBatch(s: State, events: seq<Event>, stream: nat, w: nat, bound: nat)
    requires stream != 0 && !Notifies(events, stream) && !Ends(events, stream)
    requires Below(s, bound) && w !in s.resolved && w in Registered(s.waiters, stream)
    ensures ApplyAll(s, events).connection == s.connection
    ensures Adjustment(ApplyAll(s, events), stream) == Adjustment(s, stream)
    ensures ApplyAll(s, events).initialWindow == s.initialWindow + SettingsSum(events)
    ensures w !in ReactAll(s, events).resolved && w in Registered(ReactAll(s, events).waiters, stream)
  {
    if events != [] {
      var before := events[..|events| - 1];
      assert forall k :: 0 <= k < |before| ==> before[k] == events[k];
      assert events[|before|] == events[|events| - 1];
      QuietBatch(s, before, stream, w, bound);
      ReactAllStaysBelow(s, before, bound);
    }
  }

  /**
   * Exactly when a batch leaves a sleeping sender stranded: nothing in it names the
   * sender's stream or the connection, and its SETTINGS changes open the window.
   */
  lemma BatchStrandsExactly(s: State, events: seq<Event>, i: nat)
    requires Findable(s) && NoneStranded(s) && Sleeping(s, i)
    ensures var r, stream := ReadBatch(s, events), s.senders[i].stream;
            (Sleeping(r, i) && Window(r, stream) > 0)
            <==> (!Notifies(events, stream) && !Ends(events, stream)
                  && Min(s.connection, s.initialWindow + Adjustment(s, stream) + SettingsSum(events)) > 0)
  {
    var p, m := s.senders[i], ApplyAll(s, events);
    ApplyKeepsSenders(s, events);
    ReactKeepsSenders(m, events);
    ReactSettles(m, events, p.stream, p.phase.waiter);
    if !Notifies(events, p.stream) && !Ends(events, p.stream) {
      QuietBatch(s, events, p.stream, p.phase.waiter, s.nextWaiter);
      QuietBatch(m, events, p.stream, p.phase.waiter, s.nextWaiter);
    } else if !Notifies(events, p.stream) {
      GoneSettles(m, events, p.stream, p.phase.waiter);
    }
  }

  lemma {:induction false} GoneSettles(s: State, events: seq<Event>, stream: nat, w: nat)
    requires stream != 0 && Ends(events, stream) && (w in s.resolved || w in Registered(s.waiters, stream))
    ensures w in ReactAll(s, events).resolved
  {
    var before, last := events[..|events| - 1], events[|events| - 1];
    ReactSettles(s, before, stream, w);
    if last != Gone(stream) {
      assert Ends(before, stream) by {
        var k :| 0 <= k < |events| && events[k] == Gone(stream);
        assert before[k] == events[k];
      }
      GoneSettles(s, before, stream, w);
    }
  }

  lemma RunOneMore(s: State, actions: seq<Action>, a: Action)
    requires Shaped(s)
    ensures Run(s, actions + [a]) == Step(Run(s, actions), a)
  {
    assert (actions + [a])[..|actions + [a]| - 1] == actions;
  }

  /** Such a batch is real: a run in which a stream window opened by SETTINGS leaves its sender asleep. */
  lemma SettingsGrowthStrands(b: byte)
    ensures var actions := [Start(1, [b], true), Region(0), Read([SettingsWindow(10)])];
            var s := Run(Opened(100, 0, 0), actions);
            Sleeping(s, 0) && Window(s, 1) == 10
  {
    var s0, e := Opened(100, 0, 0), [SettingsWindow(10)];
    RunOneMore(s0, [], Start(1, [b], true));
    RunOneMore(s0, [Start(1, [b], true)], Region(0));
    RunOneMore(s0, [Start(1, [b], true), Region(0)], Read(e));
    assert [Start(1, [b], true)] == [] + [Start(1, [b], true)];
    assert [Start(1, [b], true), Region(0)] == [Start(1, [b], true)] + [Region(0)];
    assert [Start(1, [b], true), Region(0), Read(e)] == [Start(1, [b], true), Region(0)] + [Read(e)];
    assert Run(s0, []) == s0;
    var s1 := s0.(senders := [Sender(1, [b], true, 0, Ready)]);
    assert Step(s0, Start(1, [b], true)) == s1;
    assert Window(s1, 1) == 0;
    var s2 := Send(s1, 0);
    assert s2.senders == [Sender(1, [b], true, 0, Asleep(0))] && s2.adjust == map[] && s2.resolved == map[];
    assert e[..0] == [];
    assert ApplyAll(s2, e) == s2.(initialWindow := 10) && ReactAll(ApplyAll(s2, e), e) == ApplyAll(s2, e);
  }
}
