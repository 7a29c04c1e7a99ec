// When the application of a leased request starts, when its metadata counts as complete,
// and when its upload counts as ended. The lemmas go through the pieces of a step, most of
// which leave all three alone; the main one says exactly which steps change them. What
// follows for whole runs is in CreditCourse.dfy.

module CreditStart {
  import opened Credits
  import opened CreditBodies
  import opened CreditExits

  /** The application starts: with the metadata and the body bytes behind it, or with no credit left to return first. */
  predicate StartsApp(s: State, a: Action) {
    || (Begins(s, a) && (a.choice.parse.remainder || Gathered(s) == 0))
    || (a.Dispatcher? && s.pc.StartAck? && AckOver(s, s.pc.id))
  }

  /** The upload ends: its end is handled, and the application has started or does so now. */
  predicate EndsUpload(s: State, a: Action) {
    || (Handles(s, a) && s.pc.event.value.Ended? && (StartsApp(s, a) || (!Begins(s, a) && (s.metadata || a.choice.parse.Incomplete?) && !s.app.NotStarted?)))
    || (a.Dispatcher? && s.pc.StartAck? && s.pc.ended && AckOver(s, s.pc.id))
  }

  /** From s to t the application, the metadata and the end of the upload change just so. */
  predicate Flags(s: State, t: State, app: App, metadata: bool, eof: bool) {
    t.app == app && t.metadata == metadata && t.uploadEof == eof
  }

  predicate Still(s: State, t: State) {
    Flags(s, t, s.app, s.metadata, s.uploadEof)
  }

  lemma OwnStill(s: State, amount: nat)
    ensures var v := Own(s, amount); Still(s, v) && Still(s, StartReturn(v, v.lastId)) && Still(s, Discard(v, v.lastId))
  {
    hide DropOwned, AmountOf;
  }

  lemma MarkStill(s: State)
    ensures forall k :: Still(s, Mark(s, k))
  {}

  lemma JoinStill(s: State, id: nat)
    ensures Still(s, Join(s, id))
  {
    hide FindAck, DropAck, Mark;
    MarkStill(s);
  }

  lemma ExitingStill(s: State, exit: Exit)
    ensures Still(s, Exiting(s, exit))
  {
    hide AckIds;
  }

  lemma TopStill(s: State, c: Choice)
    ensures Still(s, AtTop(s, c))
  {
    hide Exiting;
    ExitingStill(s, Raised);
  }

  lemma WokenStill(s: State, forApp: bool, c: Choice)
    ensures Still(s, Woken(s, forApp, c))
  {
    hide Exiting, CreditOf, Closes;
    ExitingStill(s, Raised);
    if s.eventTask.Got? {
      var e := s.eventTask.event;
      ExitingStill(s.(eventTask := NoTask, fetched := CreditOf(e), endTaken := s.endTaken || Closes(e)), Raised);
    }
  }

  lemma AfterStartFlags(s: State, ended: bool)
    ensures Flags(s, AfterStart(s, ended), s.app, s.metadata, s.uploadEof || (ended && !s.app.NotStarted?))
  {
    hide Exiting;
    ExitingStill(s, Raised);
  }

  lemma TryStartFlags(s: State, ended: bool, c: Choice)
    ensures var begins := !s.metadata && c.parse.Complete?;
            var runs := begins && (c.parse.remainder || s.pending == 0);
            Flags(s, TryStart(s, ended, c), if runs then Running else s.app, s.metadata || begins,
                  s.uploadEof || (ended && (runs || (!begins && (s.metadata || c.parse.Incomplete?) && !s.app.NotStarted?))))
  {
    hide AfterStart, Exiting;
    if !s.metadata && c.parse.Complete? { hide TryStart; CompleteFlags(s, ended, c); }
    else {
      AfterStartFlags(s, ended);
      ExitingStill(s, Rejected);
      ExitingStill(s, Raised);
    }
  }

  lemma CompleteFlags(s: State, ended: bool, c: Choice)
    requires !s.metadata && c.parse.Complete?
    ensures var runs := c.parse.remainder || s.pending == 0;
            Flags(s, TryStart(s, ended, c), if runs then Running else s.app, true, s.uploadEof || (ended && runs))
  {
    hide AfterStart, Own, StartReturn;
    if c.parse.remainder { AfterStartFlags(s.(metadata := true, queue := s.queue + [s.pending], pending := 0, app := Running), ended); }
    else if s.pending == 0 { AfterStartFlags(s.(metadata := true, app := Running), ended); }
    else { OwnStill(s.(metadata := true, pending := 0), s.pending); }
  }

  lemma HandleFlags(s: State, c: Choice)
    requires s.pc.Handle?
    ensures var a := Dispatcher(c);
            Flags(s, HandleEvent(s, s.pc.event, c), if StartsApp(s, a) then Running else s.app, s.metadata || Begins(s, a), s.uploadEof || EndsUpload(s, a))
  {
    if !(Handles(s, Dispatcher(c)) && (s.pc.event.value.Data? || s.pc.event.value.Ended?)) { hide HandleEvent; OtherFlags(s, c); }
    else { hide HandleEvent; if s.pc.event.value.Ended? { EndFlags(s, c); } else { DataFlags(s, c); } }
  }

  lemma EndFlags(s: State, c: Choice)
    requires Handles(s, Dispatcher(c)) && s.pc.event.value.Ended?
    ensures var a := Dispatcher(c);
            Flags(s, HandleEvent(s, s.pc.event, c), if StartsApp(s, a) then Running else s.app, s.metadata || Begins(s, a), s.uploadEof || EndsUpload(s, a))
  {
    hide TryStart, AckOver;
    TryStartFlags(s, true, c);
  }

  lemma DataFlags(s: State, c: Choice)
    requires Handles(s, Dispatcher(c)) && s.pc.event.value.Data?
    ensures var a := Dispatcher(c);
            Flags(s, HandleEvent(s, s.pc.event, c), if StartsApp(s, a) then Running else s.app, s.metadata || Begins(s, a), s.uploadEof || EndsUpload(s, a))
  {
    hide TryStart, Own, StartReturn, AckOver;
    if !s.metadata { TryStartFlags(s.(pending := s.pending + s.fetched, fetched := 0), false, c); }
    else { OwnStill(s.(fetched := 0), s.fetched); }
  }

  lemma OtherFlags(s: State, c: Choice)
    requires s.pc.Handle? && !(Handles(s, Dispatcher(c)) && (s.pc.event.value.Data? || s.pc.event.value.Ended?))
    ensures Still(s, HandleEvent(s, s.pc.event, c))
  {
    hide TryStart, Own, StartReturn, Exiting, Mark;
    MarkStill(s);
    ExitingStill(s, Completed);
  }

  lemma DrainStill(s: State, k: After)
    ensures Still(s, DrainOne(s, k))
  {
    hide Own, StartReturn, Discard;
    if s.queue != [] { OwnStill(s.(queue := s.queue[1..]), s.queue[0]); }
  }

  lemma RestStill(s: State, k: After)
    ensures Still(s, DrainRest(s, k))
  {
    hide Own, StartReturn, Discard, AckIds;
    OwnStill(s.(pending := 0), s.pending);
  }

  lemma ResumeStill(s: State, k: After)
    ensures Still(s, Resume(s, k))
  {
    hide AckIds, OwnedIds, OwnedSum, Exiting;
    ExitingStill(s, Completed);
    ExitingStill(s, Terminated);
  }

  lemma CollectStill(s: State)
    ensures Still(s, CollectTask(s))
  {
    hide Own, CreditOf;
    if s.eventTask.Got? { OwnStill(s.(eventTask := NoTask), CreditOf(s.eventTask.event)); }
  }

  lemma CancelledStill(s: State, c: Choice)
    ensures Still(s, CollectCancelled(s, c))
  {
    hide Own, CreditOf;
    if s.native != [] { OwnStill(s.(eventTask := NoTask, native := s.native[1..]), CreditOf(s.native[0])); }
  }

  lemma {:induction false} OwnAllStill(s: State, events: seq<Event>)
    ensures Still(s, OwnAll(s, events))
    decreases |events|
  {
    hide Own, CreditOf;
    if events != [] {
      OwnStill(s, CreditOf(events[0]));
      OwnAllStill(Own(s, CreditOf(events[0])), events[1..]);
    }
  }

  lemma NativeStill(s: State)
    ensures Still(s, CollectQueue(s))
  {
    hide Own, OwnAll;
    var u := s.(native := [], fetched := 0);
    OwnAllStill(u, s.native);
    OwnStill(OwnAll(u, s.native), s.fetched);
  }

  lemma NextStill(s: State, ids: seq<nat>)
    ensures Still(s, ReturnNext(s, ids))
  {
    hide HasOwned, AckIds, StartReturn;
    if ids != [] { ReturnStill(s, ids[0]); }
  }

  lemma ReturnStill(s: State, id: nat)
    ensures Still(s, StartReturn(s, id))
  {
    hide DropOwned, AmountOf;
  }

  lemma AfterOwnedStill(s: State, ids: seq<nat>)
    ensures Still(s, AfterOwned(s, ids))
  {
    hide AckIds;
  }

  lemma NoStart(s: State, a: Action)
    requires !(a.Dispatcher? && (s.pc.Handle? || s.pc.StartAck?))
    ensures !StartsApp(s, a) && !Begins(s, a) && !EndsUpload(s, a)
  {}

  lemma StartAckFlags(s: State, c: Choice)
    requires s.pc.StartAck?
    ensures var a := Dispatcher(c);
            Flags(s, Main(s, c), if StartsApp(s, a) then Running else s.app, s.metadata || Begins(s, a), s.uploadEof || EndsUpload(s, a))
  {
    hide AfterStart, Join, AckOver;
    JoinStill(s, s.pc.id);
    AfterStartFlags(Join(s, s.pc.id).(app := Running), s.pc.ended);
  }

  lemma MainStill(s: State, c: Choice)
    requires !s.pc.Handle? && !s.pc.StartAck?
    ensures Still(s, Main(s, c))
  {
    hide AtTop, Woken, Join, AckOver, DrainOne, DrainRest, Resume, CollectTask, CollectCancelled, CollectQueue, ReturnNext, AfterOwned, AckIds;
    match s.pc
    case Top => TopStill(s, c);
    case Waiting(forApp) => WokenStill(s, forApp, c);
    case Drain(k) => DrainStill(s, k);
    case DrainPending(k) => RestStill(s, k);
    case DirectAck(id) => JoinStill(s, id);
    case DrainAck(id, _) => JoinStill(s, id);
    case PendingAck(id, _) => JoinStill(s, id);
    case Settle(ids, k) => ResumeStill(s, k); if ids != [] { JoinStill(s, ids[0]); }
    case ReturnOwned(ids) => NextStill(s, ids);
    case OwnedAck(id, ids) => JoinStill(s, id); AfterOwnedStill(Join(s, id), ids);
    case Collect => CollectStill(s);
    case CollectCancel => CancelledStill(s, c);
    case CollectNative => NativeStill(s);
    case Exited(_) =>
  }

  lemma OthersFlags(s: State, a: Action)
    requires !a.Dispatcher?
    ensures Flags(s, Step(s, a), if a.AppEnds? && s.app.Running? then Finished else s.app, s.metadata, s.uploadEof)
  {
    hide Main, Join, FindAck, MoveAck, Exiting, Mark, Own, StartReturn, CreditOf, Closes;
    MarkStill(s);
    match a
    case ReceiverJoins(id) => JoinStill(s, id);
    case Cancel => ExitingStill(Mark(s, ByShutdown), Cancelled);
    case Receive => if s.queue != [] { OwnStill(s.(queue := s.queue[1..]), s.queue[0]); }
    case _ =>
  }

  /** The application starts just then and finishes when it ends; the metadata is there from its beginning on, and the upload ends just then. */
  lemma StartsExactly(s: State, a: Action)
    ensures Flags(s, Step(s, a),
                  if StartsApp(s, a) then Running else if a.AppEnds? && s.app.Running? then Finished else s.app,
                  s.metadata || Begins(s, a), s.uploadEof || EndsUpload(s, a))
  {
    if !a.Dispatcher? { NoStart(s, a); hide Step, StartsApp, EndsUpload; OthersFlags(s, a); }
    else if s.pc.Handle? { hide StartsApp, EndsUpload, HandleEvent; HandleFlags(s, a.choice); }
    else if s.pc.StartAck? { hide StartsApp, EndsUpload, Main; StartAckFlags(s, a.choice); }
    else { NoStart(s, a); hide StartsApp, EndsUpload, Main; MainStill(s, a.choice); }
  }

  lemma StaysAtStart(s: State, a: Action)
    requires s.pc.StartAck? && Watches(s) && !StartsApp(s, a) && Way(Step(s, a).pc).None?
    ensures Step(s, a).pc.StartAck?
  {
    hide AfterStart, Join, AckOver, Own, StartReturn, FindAck, MoveAck, Mark;
    if a.Cancel? { CancelTurns(s); } else if !a.Dispatcher? { StaysPut(s, a); }
  }

  lemma BeginsOrWaits(s: State, a: Action)
    requires Begins(s, a) && !StartsApp(s, a)
    ensures Step(s, a).pc.StartAck?
  {
    hide AfterStart, Own, StartReturn, AckOver;
  }
}
