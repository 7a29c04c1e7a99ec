// What one step of the dispatcher of a leased request gives the application to read, what
// it takes from there, and why it stops the request. Most lemmas here say, one piece of a
// step after another, which fields that piece leaves alone; what they add up to over whole
// runs, and so what an application gets to read, is in CreditReading.dfy.

module CreditBodies {
  import opened Prelude
  import opened Credits

  // ---------------------------------------------------------------- what a step gives and takes

  predicate Handles(s: State, a: Action) {
    a.Dispatcher? && s.terminal.None? && s.pc.Handle? && s.pc.event.Some?
  }

  /** The metadata becomes complete: with data in hand, or at the end of the stream. */
  predicate Begins(s: State, a: Action) {
    && Handles(s, a) && !s.metadata && a.choice.parse.Complete?
    && (s.pc.event.value.Data? || (s.pc.event.value.Ended? && !s.uploadEof))
  }

  /** The credit of all the bytes there are when it does. */
  function Gathered(s: State): nat {
    s.pending + (if s.pc.Handle? && s.pc.event.Some? && s.pc.event.value.Data? then s.fetched else 0)
  }

  /** The credits of the events a step queues for the application: body data, and an empty one for the end. */
  function Adds(s: State, a: Action): seq<nat> {
    if Begins(s, a) then
      (if a.choice.parse.remainder then [Gathered(s)] else [])
      + (if s.pc.event.value.Ended? && (a.choice.parse.remainder || Gathered(s) == 0) then [0] else [])
    else if Handles(s, a) && s.metadata && s.pc.event.value.Data? && !s.app.Finished? then [s.fetched]
    else if Handles(s, a) && s.metadata && s.pc.event.value.Ended? && !s.uploadEof && s.app.Running? then [0]
    else if a.Dispatcher? && s.pc.StartAck? && s.pc.ended && AckOver(s, s.pc.id) then [0]
    else []
  }

  /** The credit of the event a receive call of the application takes. */
  function Takes(s: State, a: Action): seq<nat> {
    if a.Receive? && s.terminal.None? && !s.responded && s.metadata && s.queue != [] then [s.queue[0]] else []
  }

  /** The credits whose return a step starts for the application or for the metadata. */
  function Starts(s: State, a: Action): seq<Credit> {
    if Takes(s, a) != [] && s.queue[0] > 0 then [Credit(s.lastId + 1, s.queue[0])]
    else if Begins(s, a) && !a.choice.parse.remainder && Gathered(s) > 0 then [Credit(s.lastId + 1, Gathered(s))]
    else []
  }

  // ---------------------------------------------------------------- what the pieces of a step leave alone

  predicate Calm(s: State, t: State) {
    t.queue == s.queue && t.app == s.app && t.metadata == s.metadata && t.terminal == s.terminal
  }

  predicate Aside(s: State, t: State) {
    Calm(s, t) && t.acks == s.acks && t.returned == s.returned && t.lastId == s.lastId
  }

  lemma OwnIsCalm(s: State, amount: nat)
    ensures Calm(s, Own(s, amount)) && Own(s, amount).acks == s.acks && Own(s, amount).returned == s.returned
  {}

  lemma ReturnIsCalm(s: State, id: nat)
    ensures Calm(s, StartReturn(s, id)) && StartReturn(s, id).returned == s.returned
    ensures StartReturn(s, id).acks == s.acks + [Ack(id, AmountOf(s.owned, id), Unsent)]
  {
    hide DropOwned, AmountOf;
  }

  lemma DiscardIsCalm(s: State, id: nat)
    ensures Calm(s, Discard(s, id))
  {
    hide DropOwned, AmountOf;
  }

  /** Recording a credit and returning it, or dropping it, is calm. */
  lemma OwnThenIsCalm(s: State, amount: nat)
    ensures var v := Own(s, amount); Calm(s, StartReturn(v, v.lastId)) && Calm(s, Discard(v, v.lastId))
  {
    hide Own, StartReturn, Discard;
    OwnIsCalm(s, amount);
    var v := Own(s, amount);
    ReturnIsCalm(v, v.lastId);
    DiscardIsCalm(v, v.lastId);
  }

  lemma JoinIsQuiet(s: State, id: nat)
    ensures var t := Join(s, id);
            && t.queue == s.queue && t.app == s.app && t.metadata == s.metadata && t.pc == s.pc && t.returned == s.returned
            && (s.terminal.Some? ==> t.terminal == s.terminal)
  {
    hide FindAck, DropAck, Mark;
    MarkIsQuiet(s, ByReset);
    MarkIsQuiet(s, ByConnection);
  }

  lemma MarkIsQuiet(s: State, k: Terminal)
    ensures Mark(s, k) == s.(terminal := Mark(s, k).terminal) && (s.terminal.Some? ==> Mark(s, k) == s)
  {}

  lemma JoinOnlyDrops(s: State, id: nat)
    ensures forall a :: a in Join(s, id).acks ==> a in s.acks
  {
    DropAckFrom(s.acks, id);
    hide FindAck, DropAck;
    JoinAcks(s, id);
    hide Join;
  }

  lemma JoinAcks(s: State, id: nat)
    ensures Join(s, id).acks == s.acks || Join(s, id).acks == DropAck(s.acks, id)
  {
    hide FindAck, DropAck;
  }

  lemma ExitingIsAside(s: State, exit: Exit)
    ensures Aside(s, Exiting(s, exit))
  {
    hide AckIds;
  }

  lemma WaitingIsAside(s: State)
    ensures Aside(s, StartWaiting(s))
  {}

  lemma TopIsAside(s: State, c: Choice)
    ensures Aside(s, AtTop(s, c))
  {
    hide Exiting, StartWaiting;
    ExitingIsAside(s, Raised);
    WaitingIsAside(s);
  }

  lemma WokenIsAside(s: State, forApp: bool, c: Choice)
    ensures Aside(s, Woken(s, forApp, c))
  {
    hide Exiting, CreditOf, Closes;
    ExitingIsAside(s, Raised);
    if s.eventTask.Got? {
      var e := s.eventTask.event;
      ExitingIsAside(s.(eventTask := NoTask, fetched := CreditOf(e), endTaken := s.endTaken || Closes(e)), Raised);
    }
  }

  lemma ResumeIsAside(s: State, k: After)
    ensures Aside(s, Resume(s, k))
  {
    hide AckIds, OwnedIds, OwnedSum, Exiting, StartWaiting;
    match k
    case FromTop => ExitingIsAside(s, Completed); WaitingIsAside(s);
    case Last => ExitingIsAside(s, Terminated);
    case _ =>
  }

  lemma CollectIsCalm(s: State)
    ensures Calm(s, CollectTask(s))
  {
    hide Own, CreditOf;
    if s.eventTask.Got? { OwnIsCalm(s.(eventTask := NoTask), CreditOf(s.eventTask.event)); }
  }

  lemma CancelledIsCalm(s: State, c: Choice)
    ensures Calm(s, CollectCancelled(s, c))
  {
    hide Own, CreditOf;
    if s.native != [] { OwnIsCalm(s.(eventTask := NoTask, native := s.native[1..]), CreditOf(s.native[0])); }
  }

  lemma {:induction false} OwnAllIsCalm(s: State, events: seq<Event>)
    ensures Calm(s, OwnAll(s, events))
    decreases |events|
  {
    hide Own, CreditOf;
    if events != [] {
      OwnIsCalm(s, CreditOf(events[0]));
      OwnAllIsCalm(Own(s, CreditOf(events[0])), events[1..]);
    }
  }

  lemma QueueIsCalm(s: State)
    ensures Calm(s, CollectQueue(s))
  {
    hide Own, OwnAll;
    var u := s.(native := [], fetched := 0);
    OwnAllIsCalm(u, s.native);
    OwnIsCalm(OwnAll(u, s.native), s.fetched);
  }

  lemma NextIsCalm(s: State, ids: seq<nat>)
    ensures Calm(s, ReturnNext(s, ids)) && Calm(s, AfterOwned(s, ids))
  {
    hide StartReturn, HasOwned, AckIds;
    if ids != [] { ReturnIsCalm(s, ids[0]); }
  }

  lemma RestIsCalm(s: State, k: After)
    ensures Calm(s, DrainRest(s, k))
  {
    hide Own, StartReturn, Discard, AckIds;
    OwnThenIsCalm(s.(pending := 0), s.pending);
  }

  // ---------------------------------------------------------------- the queue

  lemma AfterStartQueue(s: State, ended: bool)
    ensures AfterStart(s, ended).queue == s.queue + (if ended && s.app.Running? then [0] else [])
  {
    hide Exiting;
    ExitingIsAside(s, Raised);
  }

  lemma AfterStartElse(s: State, ended: bool)
    ensures AfterStart(s, ended).app == s.app && AfterStart(s, ended).terminal == s.terminal && AfterStart(s, ended).metadata == s.metadata
    ensures AfterStart(s, ended).acks == s.acks && AfterStart(s, ended).returned == s.returned
  {
    hide Exiting;
    ExitingIsAside(s, Raised);
  }

  lemma AfterStartPc(s: State, ended: bool)
    ensures AfterStart(s, ended).pc.Top? || (AfterStart(s, ended).pc.Settle? && AfterStart(s, ended).pc.k == Leave(Raised))
  {
    hide AckIds;
  }

  /** Points the dispatcher is at only once the application has finished or something has stopped the request. */
  predicate Draining(pc: Pc) {
    || pc.Drain? || pc.DrainAck? || pc.DrainPending? || pc.PendingAck? || (pc.Settle? && !pc.k.Leave?)
    || pc.Collect? || pc.CollectCancel? || pc.CollectNative? || pc.ReturnOwned? || pc.OwnedAck?
  }

  lemma TryStartQueue(s: State, ended: bool, c: Choice)
    ensures TryStart(s, ended, c).queue == s.queue +
              if s.metadata || c.parse.Incomplete? then (if ended && s.app.Running? then [0] else [])
              else if c.parse.Complete? then
                (if c.parse.remainder then [s.pending] else [])
                + (if ended && (c.parse.remainder || s.pending == 0) then [0] else [])
              else []
  {
    if !s.metadata && c.parse.Complete? { hide TryStart; BeginQueue(s, ended, c); }
    else {
      hide AfterStart, Own, StartReturn, Exiting;
      AfterStartQueue(s, ended);
      ExitingIsAside(s, Rejected);
      ExitingIsAside(s, Raised);
    }
  }

  lemma BeginQueue(s: State, ended: bool, c: Choice)
    requires !s.metadata && c.parse.Complete?
    ensures TryStart(s, ended, c).queue == s.queue + ((if c.parse.remainder then [s.pending] else [])
                                                     + (if ended && (c.parse.remainder || s.pending == 0) then [0] else []))
  {
    hide AfterStart, Own, StartReturn, Exiting;
    if c.parse.remainder {
      AfterStartQueue(s.(metadata := true, queue := s.queue + [s.pending], pending := 0, app := Running), ended);
      assert (s.queue + [s.pending]) + [0] == s.queue + ([s.pending] + [0]);
    } else if s.pending == 0 { AfterStartQueue(s.(metadata := true, app := Running), ended); }
    else { OwnThenIsCalm(s.(metadata := true, pending := 0), s.pending); }
  }

  lemma DataQueue(s: State, c: Choice)
    requires Handles(s, Dispatcher(c)) && s.pc.event.value.Data?
    ensures HandleEvent(s, s.pc.event, c).queue == s.queue + Adds(s, Dispatcher(c))
  {
    hide TryStart, Own, StartReturn;
    if !s.metadata { TryStartQueue(s.(pending := s.pending + s.fetched, fetched := 0), false, c); }
    else { OwnThenIsCalm(s.(fetched := 0), s.fetched); }
  }

  lemma EndQueue(s: State, c: Choice)
    requires Handles(s, Dispatcher(c)) && s.pc.event.value.Ended? && (s.app.Running? ==> s.metadata)
    ensures HandleEvent(s, s.pc.event, c).queue == s.queue + Adds(s, Dispatcher(c))
  {
    hide TryStart;
    if !s.uploadEof { TryStartQueue(s, true, c); }
    assert s.queue + [] == s.queue;
  }

  lemma HandleQueue(s: State, c: Choice)
    requires s.pc.Handle? && (s.app.Running? ==> s.metadata)
    ensures HandleEvent(s, s.pc.event, c).queue == s.queue + Adds(s, Dispatcher(c))
  {
    if Handles(s, Dispatcher(c)) && s.pc.event.value.Data? { hide HandleEvent; DataQueue(s, c); }
    else if Handles(s, Dispatcher(c)) && s.pc.event.value.Ended? { hide HandleEvent; EndQueue(s, c); }
    else { OtherEventQueue(s, c); }
  }

  lemma OtherEventQueue(s: State, c: Choice)
    requires s.pc.Handle? && !(Handles(s, Dispatcher(c)) && (s.pc.event.value.Data? || s.pc.event.value.Ended?))
    ensures HandleEvent(s, s.pc.event, c).queue == s.queue && Adds(s, Dispatcher(c)) == []
  {
    hide AckOver, Gathered, HandleEvent;
    OtherEventIsAside(s, c);
  }

  /** Without data or an end in hand, or once something has stopped the request, handling is as good as nothing. */
  lemma OtherEventIsAside(s: State, c: Choice)
    requires s.pc.Handle? && !(Handles(s, Dispatcher(c)) && (s.pc.event.value.Data? || s.pc.event.value.Ended?))
    ensures var t := HandleEvent(s, s.pc.event, c);
            Aside(s.(terminal := t.terminal), t) && (s.terminal.Some? ==> t.terminal == s.terminal)
  {
    hide TryStart, Own, StartReturn, Exiting, Mark;
    if s.terminal.None? && s.pc.event.None? { hide HandleEvent; NoEventIsAside(s, c); }
    else if s.terminal.None? { MarkIsQuiet(s, ByReset); MarkIsQuiet(s, ByConnection); }
  }

  lemma NoEventIsAside(s: State, c: Choice)
    requires s.terminal.None?
    ensures Aside(s, HandleEvent(s, None, c))
  {
    hide Exiting;
    ExitingIsAside(s, Completed);
  }

  lemma MainQueue(s: State, c: Choice)
    requires !s.pc.Drain? && (s.app.Running? ==> s.metadata)
    ensures Main(s, c).queue == s.queue + Adds(s, Dispatcher(c))
  {
    hide AtTop, Woken, HandleEvent, AfterStart, Join, AckOver, DrainRest, Resume;
    hide CollectTask, CollectCancelled, CollectQueue, ReturnNext, AfterOwned, AckIds;
    assert s.queue + [] == s.queue;
    match s.pc
    case Top => TopIsAside(s, c);
    case Waiting(forApp) => WokenIsAside(s, forApp, c);
    case Handle(event) => HandleQueue(s, c);
    case StartAck(id, ended) => JoinIsQuiet(s, id); AfterStartQueue(Join(s, id).(app := Running), ended);
    case DrainPending(k) => RestIsCalm(s, k);
    case Settle(ids, k) => ResumeIsAside(s, k); if ids != [] { JoinIsQuiet(s, ids[0]); }
    case ReturnOwned(ids) => NextIsCalm(s, ids);
    case OwnedAck(id, ids) => JoinIsQuiet(s, id); NextIsCalm(Join(s, id), ids);
    case Exited(_) =>
    case Collect => CollectIsCalm(s);
    case CollectCancel => CancelledIsCalm(s, c);
    case CollectNative => QueueIsCalm(s);
    case DirectAck(id) => JoinIsQuiet(s, id);
    case DrainAck(id, _) => JoinIsQuiet(s, id);
    case PendingAck(id, _) => JoinIsQuiet(s, id);
  }

  lemma ReceiveQueue(s: State)
    ensures s.queue == Takes(s, Receive) + Step(s, Receive).queue
    ensures Step(s, Receive).app == s.app && Step(s, Receive).terminal == s.terminal && Step(s, Receive).metadata == s.metadata
    ensures Step(s, Receive).pc == s.pc
  {
    hide Main, Own, StartReturn;
    if s.queue != [] {
      var u := s.(queue := s.queue[1..]);
      OwnThenIsCalm(u, s.queue[0]);
      SmallPiecesStay(u, s.queue[0]);
      assert [s.queue[0]] + s.queue[1..] == s.queue;
    }
    assert [] + s.queue == s.queue;
  }

  lemma SmallPiecesStay(s: State, amount: nat)
    ensures var v := Own(s, amount); StartReturn(v, v.lastId).pc == s.pc
  {
    hide DropOwned, AmountOf;
  }

  lemma OthersAreCalm(s: State, a: Action)
    requires !a.Dispatcher? && !a.Receive?
    ensures var t := Step(s, a);
            && t.queue == s.queue && t.metadata == s.metadata && (s.terminal.Some? ==> t.terminal == s.terminal)
            && (t.app == s.app || (s.app.Running? && t.app.Finished?))
  {
    hide Main, Join, FindAck, MoveAck, Exiting;
    if a.ReceiverJoins? { JoinIsQuiet(s, a.id); }
    else if a.Cancel? { ExitingIsAside(Mark(s, ByShutdown), Cancelled); }
  }

  /** What was queued and what a step adds is what the application takes and what is queued then. */
  lemma StepQueue(s: State, a: Action)
    requires !s.pc.Drain? && (s.app.Running? ==> s.metadata)
    ensures s.queue + Adds(s, a) == Takes(s, a) + Step(s, a).queue
  {
    hide Main, Adds;
    assert [] + Step(s, a).queue == Step(s, a).queue && s.queue + [] == s.queue;
    if a.Dispatcher? { MainQueue(s, a.choice); }
    else {
      assert Adds(s, a) == [] by { NothingAdded(s, a); }
      hide Step;
      if a.Receive? { ReceiveQueue(s); } else { OthersAreCalm(s, a); }
    }
  }

  lemma NothingAdded(s: State, a: Action)
    requires !a.Dispatcher?
    ensures Adds(s, a) == []
  {}

  // ---------------------------------------------------------------- before anything is drained

  /** The application starts with the metadata, and queued credit is drained only once it has finished or the request has stopped. */
  predicate Steady(s: State) {
    && (!s.metadata ==> s.app.NotStarted?) && (s.pc.StartAck? ==> s.metadata && s.app.NotStarted?)
    && (Draining(s.pc) ==> s.app.Finished? || s.terminal.Some?)
  }

  /** Where the dispatcher goes when no event is handled. */
  predicate GoesTo(s: State, t: State) {
    !t.pc.StartAck? && (Draining(t.pc) ==> s.app.Finished? || s.terminal.Some?)
  }

  lemma TopGoes(s: State, c: Choice)
    ensures GoesTo(s, AtTop(s, c))
  {
    hide AckIds;
  }

  lemma WokenGoes(s: State, forApp: bool, c: Choice)
    requires s.pc == Waiting(forApp)
    ensures GoesTo(s, Woken(s, forApp, c))
  {
    hide AckIds, CreditOf, Closes;
  }

  lemma ResumeGoes(s: State, k: After)
    ensures k.Leave? || s.app.Finished? || s.terminal.Some? ==> GoesTo(s, Resume(s, k))
  {
    hide AckIds, OwnedIds, OwnedSum;
  }

  lemma DrainGoes(s: State, k: After)
    requires s.pc == Drain(k)
    ensures !DrainOne(s, k).pc.StartAck?
    ensures var t := DrainOne(s, k); t.app == s.app && t.metadata == s.metadata && t.terminal == s.terminal
  {
    hide Own, StartReturn, Discard;
    if s.queue != [] {
      var u := s.(queue := s.queue[1..]);
      OwnIsCalm(u, s.queue[0]);
      OwnThenIsCalm(u, s.queue[0]);
      OwnPc(u, s.queue[0]);
    }
  }

  lemma OwnPc(s: State, amount: nat)
    ensures var v := Own(s, amount); v.pc == s.pc && Discard(v, v.lastId).pc == s.pc
  {
    hide DropOwned, AmountOf;
  }

  lemma RestGoes(s: State, k: After)
    ensures s.pc.DrainPending? ==> !DrainRest(s, k).pc.StartAck?
    ensures !CollectTask(s).pc.StartAck? && !CollectQueue(s).pc.StartAck?
  {
    hide Own, OwnAll, StartReturn, Discard, AckIds;
  }

  lemma CollectGoes(s: State, c: Choice, ids: seq<nat>)
    ensures !CollectCancelled(s, c).pc.StartAck? && !ReturnNext(s, ids).pc.StartAck? && !AfterOwned(s, ids).pc.StartAck?
  {
    hide Own, StartReturn, HasOwned, AckIds;
  }

  lemma TryStartSteady(s: State, ended: bool, c: Choice)
    requires s.pc.Handle? && (!s.metadata ==> s.app.NotStarted?)
    ensures var t := TryStart(s, ended, c);
            Steady(t) && t.terminal == s.terminal && (s.app.Finished? ==> t.app.Finished?)
            && (s.metadata || c.parse.Complete? ==> t.metadata)
  {
    hide AfterStart, Own, StartReturn, Exiting;
    AfterStartElse(s, ended);
    AfterStartPc(s, ended);
    ExitingIsAside(s, Rejected);
    ExitingIsAside(s, Raised);
    ExitingLeaves(s);
    if !s.metadata && c.parse.Complete? { hide TryStart; BeginSteady(s, ended, c); }
  }

  lemma ExitingLeaves(s: State)
    ensures forall exit :: Exiting(s, exit).pc.Settle? && Exiting(s, exit).pc.k.Leave?
  {
    hide AckIds;
  }

  lemma BeginSteady(s: State, ended: bool, c: Choice)
    requires s.pc.Handle? && !s.metadata && s.app.NotStarted? && c.parse.Complete?
    ensures var t := TryStart(s, ended, c); Steady(t) && t.terminal == s.terminal && t.metadata
  {
    hide AfterStart, Own, StartReturn, Exiting;
    var u, v := s.(metadata := true, queue := s.queue + [s.pending], pending := 0, app := Running), s.(metadata := true, app := Running);
    AfterStartElse(u, ended);
    AfterStartPc(u, ended);
    AfterStartElse(v, ended);
    AfterStartPc(v, ended);
    OwnThenIsCalm(s.(metadata := true, pending := 0), s.pending);
  }

  lemma HandleSteady(s: State, c: Choice)
    requires s.pc.Handle? && Steady(s)
    ensures var t := HandleEvent(s, s.pc.event, c);
            Steady(t) && (s.terminal.Some? ==> t.terminal == s.terminal) && (s.app.Finished? ==> t.app.Finished?)
            && (s.metadata || Begins(s, Dispatcher(c)) ==> t.metadata)
  {
    if !(Handles(s, Dispatcher(c)) && (s.pc.event.value.Data? || s.pc.event.value.Ended?)) {
      OtherEventIsAside(s, c);
      OtherEventGoes(s, c);
      hide HandleEvent, TryStart;
    } else if s.pc.event.value.Data? { hide HandleEvent; DataSteady(s, c); }
    else { hide TryStart; TryStartSteady(s, true, c); }
  }

  lemma OtherEventGoes(s: State, c: Choice)
    requires s.pc.Handle? && !(Handles(s, Dispatcher(c)) && (s.pc.event.value.Data? || s.pc.event.value.Ended?))
    ensures GoesTo(s, HandleEvent(s, s.pc.event, c))
  {
    hide TryStart, Own, StartReturn, Exiting, Mark;
    ExitingLeaves(s);
  }

  lemma DataSteady(s: State, c: Choice)
    requires Handles(s, Dispatcher(c)) && s.pc.event.value.Data? && Steady(s)
    ensures var t := HandleEvent(s, s.pc.event, c);
            Steady(t) && t.terminal == s.terminal && (s.app.Finished? ==> t.app.Finished?) && (s.metadata || Begins(s, Dispatcher(c)) ==> t.metadata)
  {
    hide TryStart, Own, StartReturn;
    if !s.metadata { TryStartSteady(s.(pending := s.pending + s.fetched, fetched := 0), false, c); }
    else { OwnThenIsCalm(s.(fetched := 0), s.fetched); }
  }

  lemma MainSteady(s: State, c: Choice)
    requires Steady(s)
    ensures var t := Main(s, c);
            Steady(t) && (s.terminal.Some? ==> t.terminal == s.terminal) && (s.app.Finished? ==> t.app.Finished?)
            && (s.metadata || Begins(s, Dispatcher(c)) ==> t.metadata)
  {
    hide AtTop, Woken, HandleEvent, AfterStart, Join, AckOver, DrainOne, DrainRest, Resume;
    hide CollectTask, CollectCancelled, CollectQueue, ReturnNext, AfterOwned, AckIds;
    match s.pc
    case Top => TopIsAside(s, c); TopGoes(s, c);
    case Waiting(forApp) => WokenIsAside(s, forApp, c); WokenGoes(s, forApp, c);
    case Handle(event) => HandleSteady(s, c);
    case StartAck(id, ended) =>
      JoinIsQuiet(s, id);
      AfterStartElse(Join(s, id).(app := Running), ended);
      AfterStartPc(Join(s, id).(app := Running), ended);
    case Drain(k) => DrainGoes(s, k);
    case DrainPending(k) => RestIsCalm(s, k); RestGoes(s, k);
    case Settle(ids, k) => ResumeIsAside(s, k); ResumeGoes(s, k); if ids != [] { JoinIsQuiet(s, ids[0]); }
    case ReturnOwned(ids) => NextIsCalm(s, ids); CollectGoes(s, c, ids);
    case OwnedAck(id, ids) => JoinIsQuiet(s, id); NextIsCalm(Join(s, id), ids); CollectGoes(Join(s, id), c, ids);
    case Exited(_) =>
    case Collect => CollectIsCalm(s); RestGoes(s, FromTop);
    case CollectCancel => CancelledIsCalm(s, c); CollectGoes(s, c, []);
    case CollectNative => QueueIsCalm(s); RestGoes(s, FromTop);
    case DirectAck(id) => JoinIsQuiet(s, id);
    case DrainAck(id, _) => JoinIsQuiet(s, id);
    case PendingAck(id, _) => JoinIsQuiet(s, id);
  }

  lemma OthersStay(s: State, a: Action)
    requires !a.Dispatcher? && !a.Receive?
    ensures Step(s, a).pc == s.pc || (Step(s, a).pc.Settle? && Step(s, a).pc.k.Leave?)
  {
    hide Main, Join, FindAck, MoveAck, AckIds, Mark;
    if a.ReceiverJoins? { JoinIsQuiet(s, a.id); }
    MarkIsQuiet(s, ByReset);
    MarkIsQuiet(s, ByConnection);
  }

  lemma StepSteady(s: State, a: Action)
    requires Steady(s)
    ensures var t := Step(s, a);
            Steady(t) && (s.terminal.Some? ==> t.terminal == s.terminal) && (s.app.Finished? ==> t.app.Finished?)
            && (s.metadata || Begins(s, a) ==> t.metadata)
  {
    hide Main;
    if a.Dispatcher? { MainSteady(s, a.choice); }
    else { hide Step; if a.Receive? { ReceiveQueue(s); } else { OthersAreCalm(s, a); OthersStay(s, a); } }
  }

  // ---------------------------------------------------------------- whose credit is returned

  /** Every credit under way or returned is one of these. */
  ghost predicate Known(s: State, credits: seq<Credit>) {
    && (forall a :: a in s.acks ==> Credit(a.id, a.amount) in credits)
    && (forall c :: c in s.returned ==> c in credits)
  }

  lemma KnownOfMore(s: State, credits: seq<Credit>, more: seq<Credit>)
    requires Known(s, credits)
    ensures Known(s, credits + more)
  {}

  lemma KnownAside(s: State, t: State, credits: seq<Credit>)
    requires Known(s, credits) && t.acks == s.acks && t.returned == s.returned
    ensures Known(t, credits)
  {}

  lemma JoinIsKnown(s: State, id: nat, credits: seq<Credit>)
    requires Known(s, credits)
    ensures Known(Join(s, id), credits)
  {
    JoinIsQuiet(s, id);
    JoinOnlyDrops(s, id);
    hide Join;
  }

  lemma {:induction false} MoveAckSame(acks: seq<Ack>, id: nat, phase: AckPhase)
    ensures forall a :: a in MoveAck(acks, id, phase) ==> exists b :: b in acks && b.id == a.id && b.amount == a.amount
  {
    if acks != [] { MoveAckSame(acks[1..], id, phase); }
  }

  lemma {:induction false} FoundIsThere(acks: seq<Ack>, id: nat)
    ensures FindAck(acks, id).Some? ==> FindAck(acks, id).value in acks && FindAck(acks, id).value.id == id
  {
    if acks != [] { FoundIsThere(acks[1..], id); }
  }

  /** Recording a credit and starting its return at once adds this one. */
  lemma FreshIsKnown(s: State, amount: nat, credits: seq<Credit>)
    requires OnePlace(s) && amount > 0 && Known(s, credits)
    ensures var v := Own(s, amount); Known(StartReturn(v, v.lastId), credits + [Credit(s.lastId + 1, amount)])
  {
    hide OnePlace, Own, StartReturn;
    FreshReturn(s, amount);
    OwnGives(s, amount);
  }

  lemma SamePlaces(s: State, t: State)
    requires OnePlace(s) && t.owned == s.owned && t.acks == s.acks && t.returned == s.returned && t.lastId == s.lastId
    ensures OnePlace(t)
  {
    SameIds(s, t);
  }

  lemma TryStartIsKnown(s: State, ended: bool, c: Choice, credits: seq<Credit>)
    requires OnePlace(s) && Known(s, credits)
    ensures Known(TryStart(s, ended, c), credits +
              (if !s.metadata && c.parse.Complete? && !c.parse.remainder && s.pending > 0 then [Credit(s.lastId + 1, s.pending)] else []))
  {
    hide OnePlace, Known, AfterStart, Own, StartReturn, Exiting;
    assert credits + [] == credits;
    if !s.metadata && c.parse.Complete? { hide TryStart; BeginIsKnown(s, ended, c, credits); }
    else {
      AfterStartElse(s, ended);
      ExitingIsAside(s, Rejected);
      ExitingIsAside(s, Raised);
      KnownAside(s, TryStart(s, ended, c), credits);
    }
  }

  lemma BeginIsKnown(s: State, ended: bool, c: Choice, credits: seq<Credit>)
    requires OnePlace(s) && Known(s, credits) && !s.metadata && c.parse.Complete?
    ensures Known(TryStart(s, ended, c), credits + (if !c.parse.remainder && s.pending > 0 then [Credit(s.lastId + 1, s.pending)] else []))
  {
    hide OnePlace, Known, AfterStart, Own, StartReturn, Exiting;
    assert credits + [] == credits;
    if c.parse.remainder {
      var u := s.(metadata := true, queue := s.queue + [s.pending], pending := 0, app := Running);
      AfterStartElse(u, ended);
      KnownAside(s, AfterStart(u, ended), credits);
    } else if s.pending == 0 {
      var u := s.(metadata := true, app := Running);
      AfterStartElse(u, ended);
      KnownAside(s, AfterStart(u, ended), credits);
    } else {
      var u := s.(metadata := true, pending := 0);
      SamePlaces(s, u);
      KnownAside(s, u, credits);
      FreshIsKnown(u, s.pending, credits);
      var v := StartReturn(Own(u, s.pending), Own(u, s.pending).lastId);
      KnownAside(v, v.(pc := StartAck(Own(u, s.pending).lastId, ended)), credits + [Credit(s.lastId + 1, s.pending)]);
    }
  }

  lemma HandleIsKnown(s: State, c: Choice, credits: seq<Credit>)
    requires OnePlace(s) && Known(s, credits) && s.pc.Handle? && !s.app.Finished?
    ensures Known(HandleEvent(s, s.pc.event, c), credits + Starts(s, Dispatcher(c)))
  {
    assert credits + [] == credits;
    if !(Handles(s, Dispatcher(c)) && (s.pc.event.value.Data? || s.pc.event.value.Ended?)) {
      OtherEventIsAside(s, c);
      assert Starts(s, Dispatcher(c)) == [];
      hide HandleEvent, Known;
      KnownAside(s, HandleEvent(s, s.pc.event, c), credits);
    } else { hide HandleEvent, OnePlace, Known; StreamEventIsKnown(s, c, credits); }
  }

  lemma StreamEventIsKnown(s: State, c: Choice, credits: seq<Credit>)
    requires OnePlace(s) && Known(s, credits) && !s.app.Finished?
    requires Handles(s, Dispatcher(c)) && (s.pc.event.value.Data? || s.pc.event.value.Ended?)
    ensures Known(HandleEvent(s, s.pc.event, c), credits + Starts(s, Dispatcher(c)))
  {
    hide OnePlace, Known, TryStart, Own, StartReturn;
    assert credits + [] == credits;
    if s.pc.event.value.Ended? {
      TryStartIsKnown(s, true, c, credits);
      KnownAside(s, s.(pc := Top), credits);
    } else if !s.metadata {
      var u := s.(pending := s.pending + s.fetched, fetched := 0);
      SamePlaces(s, u);
      KnownAside(s, u, credits);
      TryStartIsKnown(u, false, c, credits);
    } else { KnownAside(s, HandleEvent(s, s.pc.event, c), credits); }
  }

  lemma MainIsKnown(s: State, c: Choice, credits: seq<Credit>)
    requires OnePlace(s) && Known(s, credits) && !Draining(s.pc) && !s.app.Finished?
    ensures Known(Main(s, c), credits + Starts(s, Dispatcher(c)))
  {
    hide AtTop, Woken, HandleEvent, AfterStart, Join, AckOver, Resume, AckIds, OnePlace, Known;
    assert credits + [] == credits;
    match s.pc
    case Top => TopIsAside(s, c); KnownAside(s, Main(s, c), credits);
    case Waiting(forApp) => WokenIsAside(s, forApp, c); KnownAside(s, Main(s, c), credits);
    case Handle(event) => HandleIsKnown(s, c, credits);
    case StartAck(id, ended) =>
      JoinIsKnown(s, id, credits);
      var u := Join(s, id).(app := Running);
      AfterStartElse(u, ended);
      KnownAside(Join(s, id), AfterStart(u, ended), credits);
    case Settle(ids, k) =>
      if ids == [] { ResumeIsAside(s, k); KnownAside(s, Resume(s, k), credits); }
      else { JoinIsKnown(s, ids[0], credits); KnownAside(Join(s, ids[0]), Join(s, ids[0]).(pc := Settle(ids[1..], k)), credits); }
    case DirectAck(id) => JoinIsKnown(s, id, credits); KnownAside(Join(s, id), Join(s, id).(pc := Top), credits);
    case Exited(_) =>
  }

  lemma ReceiveIsKnown(s: State, credits: seq<Credit>)
    requires OnePlace(s) && Known(s, credits)
    ensures Known(Step(s, Receive), credits + Starts(s, Receive))
  {
    hide Main, OnePlace, Known, Own, StartReturn;
    assert credits + [] == credits;
    if Takes(s, Receive) != [] {
      var u := s.(queue := s.queue[1..]);
      SamePlaces(s, u);
      KnownAside(s, u, credits);
      if s.queue[0] > 0 { FreshIsKnown(u, s.queue[0], credits); }
    }
  }

  lemma AckIsKnown(s: State, a: Action, credits: seq<Credit>)
    requires Known(s, credits) && (a.AckAccepted? || a.AckFlushed? || a.AckRefused?)
    ensures Known(Step(s, a), credits)
  {
    FoundIsThere(s.acks, a.id);
    MoveAckSame(s.acks, a.id, PhaseAfter(a));
    hide Main, MoveAck, FindAck;
  }

  lemma OtherIsKnown(s: State, a: Action, credits: seq<Credit>)
    requires Known(s, credits) && !a.Dispatcher? && !a.Receive?
    ensures Known(Step(s, a), credits)
  {
    if a.AckAccepted? || a.AckFlushed? || a.AckRefused? { hide Step, Known; AckIsKnown(s, a, credits); }
    else if a.ReceiverJoins? { hide Main, Join, Known; JoinIsKnown(s, a.id, credits); }
    else { hide Main, Exiting, Mark; ElseIsAside(s, a); hide Step; }
  }

  lemma ElseIsAside(s: State, a: Action)
    requires !a.Dispatcher? && !a.Receive? && !a.ReceiverJoins? && !a.AckAccepted? && !a.AckFlushed? && !a.AckRefused?
    ensures Step(s, a).acks == s.acks && Step(s, a).returned == s.returned
  {
    hide Main, Exiting, Mark;
    match a
    case Cancel => MarkIsQuiet(s, ByShutdown); ExitingIsAside(Mark(s, ByShutdown), Cancelled);
    case SendFails(_) => MarkIsQuiet(s, ByReset); MarkIsQuiet(s, ByConnection);
    case _ =>
  }

  /** While nothing has stopped the request and the application has not finished, a step returns credit only for the application or the metadata. */
  lemma StepIsKnown(s: State, a: Action, credits: seq<Credit>)
    requires OnePlace(s) && Steady(s) && Known(s, credits) && !s.app.Finished? && s.terminal.None?
    ensures Known(Step(s, a), credits + Starts(s, a))
  {
    assert credits + [] == credits;
    hide Main, OnePlace, Known;
    if a.Dispatcher? { MainIsKnown(s, a.choice, credits); }
    else if a.Receive? { hide Step; ReceiveIsKnown(s, credits); }
    else { hide Step; OtherIsKnown(s, a, credits); }
  }

  // ---------------------------------------------------------------- why a request stops

  /** The acknowledgement task whose result a step takes. */
  function Joined(s: State, a: Action): Option<nat> {
    match a
    case ReceiverJoins(id) => Some(id)
    case Dispatcher(_) =>
      (match s.pc
       case StartAck(id, _) => Some(id)
       case DirectAck(id) => Some(id)
       case DrainAck(id, _) => Some(id)
       case PendingAck(id, _) => Some(id)
       case OwnedAck(id, _) => Some(id)
       case Settle(ids, _) => if ids == [] then None else Some(ids[0])
       case _ => None)
    case _ => None
  }

  /** A task that failed stops the request as what it found: a stream closed by the peer, or a broken connection. */
  function JoinCause(s: State, id: nat): Option<Terminal> {
    var a := FindAck(s.acks, id);
    if a.None? then None
    else if a.value.phase == Done(StreamClosed) then Some(ByReset)
    else if a.value.phase == Done(Broken) then Some(ByConnection)
    else None
  }

  /** What a step gives a request as its reason to stop. */
  function Cause(s: State, a: Action): Option<Terminal> {
    if Joined(s, a).Some? then JoinCause(s, Joined(s, a).value)
    else if Handles(s, a) && s.pc.event.value.Reset? then Some(ByReset)
    else if Handles(s, a) && s.pc.event.value.Failure? then Some(ByConnection)
    else if a.SendFails? && a.closed && s.peerGone then Some(ByReset)
    else if a.SendFails? && !a.closed then Some(ByConnection)
    else if a.Cancel? && !s.pc.Exited? && !(s.pc.Settle? && s.pc.k.Leave?) then Some(ByShutdown)
    else None
  }

  function Stays(t: Option<Terminal>, cause: Option<Terminal>): Option<Terminal> {
    if t.Some? then t else cause
  }

  lemma JoinStops(s: State, id: nat)
    ensures Join(s, id).terminal == Stays(s.terminal, JoinCause(s, id))
  {
    hide FindAck, DropAck, Mark;
    MarkStops(s, ByReset);
    MarkStops(s, ByConnection);
  }

  lemma EventStops(s: State, c: Choice)
    requires s.pc.Handle?
    ensures HandleEvent(s, s.pc.event, c).terminal == Stays(s.terminal, Cause(s, Dispatcher(c)))
  {
    if Handles(s, Dispatcher(c)) && (s.pc.event.value.Data? || s.pc.event.value.Ended?) {
      hide HandleEvent, Cause;
      StreamEventStopsNot(s, c);
      assert Cause(s, Dispatcher(c)) == None by { NoCause(s, c); }
    }
    else { OtherEventStops(s, c); }
  }

  lemma OtherEventStops(s: State, c: Choice)
    requires s.pc.Handle? && !(Handles(s, Dispatcher(c)) && (s.pc.event.value.Data? || s.pc.event.value.Ended?))
    ensures HandleEvent(s, s.pc.event, c).terminal == Stays(s.terminal, Cause(s, Dispatcher(c)))
  {
    hide TryStart, Own, StartReturn, Exiting, Mark;
    if s.terminal.None? && s.pc.event.None? { hide HandleEvent; NoEventIsAside(s, c); }
    else if s.terminal.None? { MarkStops(s, ByReset); MarkStops(s, ByConnection); }
  }

  lemma NoCause(s: State, c: Choice)
    requires Handles(s, Dispatcher(c)) && (s.pc.event.value.Data? || s.pc.event.value.Ended?)
    ensures Cause(s, Dispatcher(c)) == None
  {}

  lemma TryStartStopsNot(s: State, ended: bool, c: Choice)
    ensures TryStart(s, ended, c).terminal == s.terminal
  {
    hide AfterStart, Own, StartReturn, Exiting;
    AfterStartElse(s, ended);
    ExitingIsAside(s, Rejected);
    ExitingIsAside(s, Raised);
    AfterStartElse(s.(metadata := true, queue := s.queue + [s.pending], pending := 0, app := Running), ended);
    AfterStartElse(s.(metadata := true, app := Running), ended);
    OwnThenIsCalm(s.(metadata := true, pending := 0), s.pending);
  }

  lemma StreamEventStopsNot(s: State, c: Choice)
    requires Handles(s, Dispatcher(c)) && (s.pc.event.value.Data? || s.pc.event.value.Ended?)
    ensures HandleEvent(s, s.pc.event, c).terminal == s.terminal
  {
    hide TryStart, Own, StartReturn;
    TryStartStopsNot(s, true, c);
    TryStartStopsNot(s.(pending := s.pending + s.fetched, fetched := 0), false, c);
    OwnThenIsCalm(s.(fetched := 0), s.fetched);
  }

  lemma MainStops(s: State, c: Choice)
    requires Joined(s, Dispatcher(c)).Some? ==> AckOver(s, Joined(s, Dispatcher(c)).value)
    ensures Main(s, c).terminal == Stays(s.terminal, Cause(s, Dispatcher(c)))
  {
    hide AtTop, Woken, HandleEvent, AfterStart, Join, AckOver, DrainOne, DrainRest, Resume, JoinCause;
    hide CollectTask, CollectCancelled, CollectQueue, ReturnNext, AfterOwned, AckIds;
    match s.pc
    case Top => TopIsAside(s, c);
    case Waiting(forApp) => WokenIsAside(s, forApp, c);
    case Handle(event) => EventStops(s, c);
    case StartAck(id, ended) => JoinStops(s, id); AfterStartElse(Join(s, id).(app := Running), ended);
    case Drain(k) => DrainGoes(s, k);
    case DrainPending(k) => RestIsCalm(s, k);
    case Settle(ids, k) => if ids == [] { ResumeIsAside(s, k); } else { JoinStops(s, ids[0]); }
    case ReturnOwned(ids) => NextIsCalm(s, ids);
    case OwnedAck(id, ids) => JoinStops(s, id); NextIsCalm(Join(s, id), ids);
    case Exited(_) =>
    case Collect => CollectIsCalm(s);
    case CollectCancel => CancelledIsCalm(s, c);
    case CollectNative => QueueIsCalm(s);
    case DirectAck(id) => JoinStops(s, id);
    case DrainAck(id, _) => JoinStops(s, id);
    case PendingAck(id, _) => JoinStops(s, id);
  }

  lemma NotOverStops(s: State, c: Choice)
    requires Joined(s, Dispatcher(c)).Some? && !AckOver(s, Joined(s, Dispatcher(c)).value)
    ensures Main(s, c) == s && Cause(s, Dispatcher(c)) == None
  {
    hide FindAck, Join, AfterStart, AckIds, AfterOwned, Resume;
  }

  lemma OthersStop(s: State, a: Action)
    requires !a.Dispatcher? && !a.Receive? && !a.ReceiverJoins?
    ensures Step(s, a).terminal == Stays(s.terminal, Cause(s, a))
  {
    hide Main, FindAck, MoveAck, Exiting, Mark;
    match a
    case Cancel => MarkStops(s, ByShutdown); ExitingIsAside(Mark(s, ByShutdown), Cancelled);
    case SendFails(_) => MarkStops(s, ByReset); MarkStops(s, ByConnection);
    case _ =>
  }

  lemma MarkStops(s: State, k: Terminal)
    ensures Mark(s, k).terminal == Stays(s.terminal, Some(k))
  {}

  /** A request stops for the first cause it meets, and that one stays: every step, both directions. */
  lemma StopsForFirstCause(s: State, a: Action)
    ensures Step(s, a).terminal == Stays(s.terminal, Cause(s, a))
  {
    hide Main, Join, JoinCause, AckOver;
    if a.Dispatcher? {
      if Joined(s, a).Some? && !AckOver(s, Joined(s, a).value) { NotOverStops(s, a.choice); } else { MainStops(s, a.choice); }
    }
    else if a.ReceiverJoins? { JoinStops(s, a.id); }
    else { hide Step; if a.Receive? { ReceiveQueue(s); } else { hide Cause; OthersStop(s, a); } }
  }
}
