// How a step of the dispatch of a leased request turns to an exit. The lemmas go through
// the pieces of a step and say whether it does, and to which; the main one puts them
// together for any step. What follows for whole runs, for an application that raises and
// for a request that completes, is in CreditCourse.dfy.

module CreditExits {
  import opened Prelude
  import opened Credits

  /** The exit the dispatcher is at, or settles its acknowledgement tasks for. */
  function Way(pc: Pc): Option<Exit> {
    if pc.Settle? && pc.k.Leave? then Some(pc.k.exit) else if pc.Exited? then Some(pc.exit) else None
  }

  /** It awaits the finished application, which raised. */
  predicate MeetsFailure(s: State, c: Choice) {
    && s.app.Finished? && c.appRaises
    && ((s.pc.Top? && s.terminal.None? && !s.eventTask.Got?) || (s.pc.Waiting? && s.pc.forApp && !(c.seesTerminal && s.terminal.Some?)))
  }

  /** It looks for the metadata in what has come so far. */
  predicate Parses(s: State) {
    && s.pc.Handle? && s.terminal.None? && s.pc.event.Some? && !s.metadata
    && (s.pc.event.value.Data? || (s.pc.event.value.Ended? && !s.uploadEof))
  }

  /** The upload has ended, and nothing has started the application. */
  predicate EndsEarly(s: State, c: Choice) {
    && s.app.NotStarted? && s.terminal.None?
    && ((s.pc.Top? && s.uploadEof)
        || (s.pc == Handle(Some(Ended)) && !s.uploadEof && (s.metadata || c.parse.Incomplete?)))
  }

  /** Both the upload and the application are done, and nothing has stopped the request. */
  predicate AllDone(s: State) {
    && s.uploadEof && s.terminal.None?
    && ((s.pc == Handle(None) && s.app.Finished?) || s.pc == Settle([], FromTop))
  }

  /** The exit a step turns to. */
  function Turns(s: State, a: Action): Option<Exit> {
    if a.Cancel? then Some(Cancelled)
    else if !a.Dispatcher? then None
    else if MeetsFailure(s, a.choice) || EndsEarly(s, a.choice) || (Parses(s) && a.choice.parse.Unreadable?) then Some(Raised)
    else if Parses(s) && a.choice.parse.Invalid? then Some(Rejected)
    else if AllDone(s) then Some(Completed)
    else if s.pc == Settle([], Last) then Some(Terminated)
    else None
  }

  /** Draining is always for going on. */
  predicate GoingOn(pc: Pc) {
    pc.Drain? || pc.DrainAck? || pc.DrainPending? || pc.PendingAck? ==> !pc.k.Leave?
  }

  /** While it waits, the next event is being fetched, and a running application is waited for as well. */
  predicate Watches(s: State) {
    s.pc.Waiting? ==> !s.eventTask.NoTask? && (s.app.Running? ==> s.pc.forApp)
  }

  /** A dispatcher on its way out stays on it, and any other turns to an exit exactly so. */
  lemma TurnsExactly(s: State, a: Action)
    requires GoingOn(s.pc) && Watches(s)
    ensures Sets(Step(s, a), if Way(s.pc).Some? then Way(s.pc) else Turns(s, a))
  {
    if a.Dispatcher? { hide Main, Sets, Turns; MainTurns(s, a.choice); }
    else {
      OthersTurn(s, a);
      hide Step, Turns, Sets;
      if a.Cancel? { CancelTurns(s); } else { StaysPut(s, a); PutSets(s, Step(s, a)); }
    }
  }

  lemma CancelTurns(s: State)
    requires GoingOn(s.pc) && Watches(s)
    ensures Sets(Step(s, Cancel), if Way(s.pc).Some? then Way(s.pc) else Some(Cancelled))
  {
    hide AckIds, Mark;
  }

  lemma PutSets(s: State, t: State)
    requires GoingOn(s.pc) && Watches(s) && t.pc == s.pc && (t.app == s.app || !t.app.Running?) && (s.eventTask.NoTask? || !t.eventTask.NoTask?)
    ensures Sets(t, Way(s.pc))
  {}

  /** Nobody but the dispatcher, and who cancels it, moves it. */
  lemma StaysPut(s: State, a: Action)
    requires !a.Dispatcher? && !a.Cancel?
    ensures var t := Step(s, a); t.pc == s.pc && (t.app == s.app || !t.app.Running?) && (s.eventTask.NoTask? || !t.eventTask.NoTask?)
  {
    hide Main, Join, FindAck, MoveAck, Own, StartReturn, CreditOf, Closes, AckIds, Mark;
    match a
    case ReceiverJoins(id) => JoinStays(s, id);
    case Receive => if s.queue != [] { ReturnStays(s.(queue := s.queue[1..]), s.queue[0]); }
    case SendFails(_) => MarkStays(s);
    case _ =>
  }

  lemma MarkStays(s: State)
    ensures forall k :: Mark(s, k).pc == s.pc && Mark(s, k).app == s.app && Mark(s, k).eventTask == s.eventTask
  {}

  lemma OthersTurn(s: State, a: Action)
    requires !a.Dispatcher?
    ensures Turns(s, a) == if a.Cancel? then Some(Cancelled) else None
  {}

  lemma JoinStays(s: State, id: nat)
    ensures var t := Join(s, id); t.pc == s.pc && t.app == s.app && t.eventTask == s.eventTask
  {
    hide FindAck, DropAck, Mark;
    MarkStays(s);
  }

  lemma ReturnStays(s: State, amount: nat)
    ensures var v := Own(s, amount);
            forall t :: t in [v, StartReturn(v, v.lastId), Discard(v, v.lastId)] ==> t.pc == s.pc && t.app == s.app && t.eventTask == s.eventTask
  {
    hide DropOwned, AmountOf;
  }

  /** The exit a state is on its way to, which is not behind a drain. */
  predicate Sets(t: State, exit: Option<Exit>) {
    GoingOn(t.pc) && Watches(t) && Way(t.pc) == exit
  }

  lemma ExitingSets(s: State, exit: Exit)
    ensures Sets(Exiting(s, exit), Some(exit))
  {
    hide AckIds;
  }

  lemma WaitingSets(s: State)
    ensures Sets(StartWaiting(s), None)
  {}

  lemma TurnsAtTop(s: State, c: Choice)
    requires s.pc.Top? || s.pc.Waiting?
    ensures Turns(s, Dispatcher(c)) == if MeetsFailure(s, c) || EndsEarly(s, c) then Some(Raised) else None
  {
    hide MeetsFailure, EndsEarly;
  }

  lemma TopTurns(s: State, c: Choice)
    requires s.pc.Top?
    ensures Sets(AtTop(s, c), Turns(s, Dispatcher(c)))
  {
    TurnsAtTop(s, c);
    ExitingSets(s, Raised);
    WaitingSets(s);
    hide Turns, Exiting, StartWaiting;
  }

  lemma WaitingTurns(s: State, c: Choice)
    requires s.pc.Waiting? && Watches(s)
    ensures Sets(Woken(s, s.pc.forApp, c), Turns(s, Dispatcher(c)))
  {
    TurnsAtTop(s, c);
    ExitingSets(s, Raised);
    hide Turns, Exiting, CreditOf, Closes;
    if s.eventTask.Got? { hide Woken; GotTurns(s, c); }
  }

  lemma GotTurns(s: State, c: Choice)
    requires s.pc.Waiting? && s.eventTask.Got?
    ensures Sets(Woken(s, s.pc.forApp, c), if MeetsFailure(s, c) then Some(Raised) else None)
  {
    var e := s.eventTask.event;
    ExitingSets(s.(eventTask := NoTask, fetched := CreditOf(e), endTaken := s.endTaken || Closes(e)), Raised);
    hide Exiting, CreditOf, Closes;
  }

  lemma AfterStartSets(s: State, ended: bool)
    ensures Sets(AfterStart(s, ended), if ended && s.app.NotStarted? then Some(Raised) else None)
  {
    hide Exiting;
    ExitingSets(s, Raised);
  }

  lemma TryStartTurns(s: State, ended: bool, c: Choice)
    ensures Sets(TryStart(s, ended, c),
                 if !s.metadata && c.parse.Unreadable? then Some(Raised)
                 else if !s.metadata && c.parse.Invalid? then Some(Rejected)
                 else if ended && s.app.NotStarted? && (s.metadata || c.parse.Incomplete?) then Some(Raised)
                 else None)
  {
    hide AfterStart, Exiting;
    AfterStartSets(s, ended);
    ExitingSets(s, Rejected);
    ExitingSets(s, Raised);
    if !s.metadata && c.parse.Complete? { hide TryStart; CompleteSets(s, ended, c); }
  }

  lemma CompleteSets(s: State, ended: bool, c: Choice)
    requires !s.metadata && c.parse.Complete?
    ensures Sets(TryStart(s, ended, c), None)
  {
    hide AfterStart, Own, StartReturn, Sets;
    AfterStartSets(s.(metadata := true, queue := s.queue + [s.pending], pending := 0, app := Running), ended);
    AfterStartSets(s.(metadata := true, app := Running), ended);
    if !c.parse.remainder && s.pending > 0 { AckSets(s, ended, c); }
  }

  lemma AckSets(s: State, ended: bool, c: Choice)
    requires !s.metadata && c.parse == Complete(false) && s.pending > 0
    ensures Sets(TryStart(s, ended, c), None)
  {
    hide AfterStart, Own, StartReturn;
  }

  lemma HandleTurns(s: State, c: Choice)
    requires s.pc.Handle?
    ensures Sets(HandleEvent(s, s.pc.event, c), Turns(s, Dispatcher(c)))
  {
    TurnsAtHandle(s, c);
    hide Turns, HandleEvent, Sets;
    if s.terminal.Some? || s.pc.event.None? { QuietHandleSets(s, c); }
    else if s.pc.event.value.Data? { DataSets(s, c); }
    else { EventSets(s, c); }
  }

  lemma TurnsAtHandle(s: State, c: Choice)
    requires s.pc.Handle?
    ensures Turns(s, Dispatcher(c)) ==
            if s.terminal.Some? then None
            else if s.pc.event.None? then (if s.uploadEof && s.app.Finished? then Some(Completed) else None)
            else if Parses(s) && c.parse.Unreadable? then Some(Raised)
            else if Parses(s) && c.parse.Invalid? then Some(Rejected)
            else if EndsEarly(s, c) then Some(Raised)
            else None
  {}

  lemma QuietHandleSets(s: State, c: Choice)
    requires s.pc.Handle? && (s.terminal.Some? || s.pc.event.None?)
    ensures Sets(HandleEvent(s, s.pc.event, c), if s.terminal.None? && s.uploadEof && s.app.Finished? then Some(Completed) else None)
  {
    hide TryStart, Own, StartReturn, Exiting;
    ExitingSets(s, Completed);
  }

  lemma DataSets(s: State, c: Choice)
    requires s.pc.Handle? && s.terminal.None? && s.pc.event.Some? && s.pc.event.value.Data?
    ensures Sets(HandleEvent(s, s.pc.event, c),
                 if !s.metadata && c.parse.Unreadable? then Some(Raised) else if !s.metadata && c.parse.Invalid? then Some(Rejected) else None)
  {
    hide TryStart, Own, StartReturn;
    if !s.metadata { TryStartTurns(s.(pending := s.pending + s.fetched, fetched := 0), false, c); }
  }

  lemma EventSets(s: State, c: Choice)
    requires s.pc.Handle? && s.terminal.None? && s.pc.event.Some? && !s.pc.event.value.Data?
    ensures Sets(HandleEvent(s, s.pc.event, c),
                 if !s.pc.event.value.Ended? || s.uploadEof then None
                 else if !s.metadata && c.parse.Unreadable? then Some(Raised)
                 else if !s.metadata && c.parse.Invalid? then Some(Rejected)
                 else if s.app.NotStarted? && (s.metadata || c.parse.Incomplete?) then Some(Raised)
                 else None)
  {
    hide TryStart, Own, StartReturn, Mark;
    if s.pc.event.value.Ended? { TryStartTurns(s, true, c); }
  }

  lemma SettleTurns(s: State, k: After, c: Choice)
    requires s.pc == Settle([], k)
    ensures Sets(Resume(s, k), if k.Leave? then Some(k.exit) else Turns(s, Dispatcher(c)))
  {
    TurnsAtSettle(s, k, c);
    hide Turns, Resume, Sets;
    match k
    case FromTop => DrainedSets(s);
    case Last => LastSets(s);
    case FromCollect => CollectedSets(s);
    case FromWait(_) => CarriedSets(s, k);
    case Leave(_) => CarriedSets(s, k);
  }

  lemma DrainedSets(s: State)
    ensures Sets(Resume(s, FromTop), if s.uploadEof && s.terminal.None? then Some(Completed) else None)
  {
    hide Exiting, StartWaiting;
    WaitingSets(s);
    ExitingSets(s, Completed);
  }

  lemma LastSets(s: State)
    ensures Sets(Resume(s, Last), Some(Terminated))
  {
    hide Exiting, Sets;
    ExitingSets(s, Terminated);
  }

  lemma CarriedSets(s: State, k: After)
    requires k.FromWait? || k.Leave?
    ensures Sets(Resume(s, k), if k.Leave? then Some(k.exit) else None)
  {}

  lemma CollectedSets(s: State)
    ensures Sets(Resume(s, FromCollect), None)
  {
    hide AckIds, OwnedIds, OwnedSum;
  }

  lemma TurnsAtSettle(s: State, k: After, c: Choice)
    requires s.pc == Settle([], k)
    ensures Turns(s, Dispatcher(c)) == if k.FromTop? && s.uploadEof && s.terminal.None? then Some(Completed) else if k.Last? then Some(Terminated) else None
  {}

  lemma DrainTurns(s: State, k: After)
    requires !k.Leave? && (s.pc == Drain(k) || s.pc == DrainPending(k))
    ensures Sets(DrainOne(s, k), None) && Sets(DrainRest(s, k), None)
  {
    hide Own, StartReturn, Discard, AckIds;
    if s.queue != [] { ReturnStays(s.(queue := s.queue[1..]), s.queue[0]); }
  }

  lemma CollectTurns(s: State, c: Choice)
    ensures Sets(CollectTask(s), None) && Sets(CollectCancelled(s, c), None) && Sets(CollectQueue(s), None)
  {
    hide Own, OwnAll, CreditOf;
  }

  lemma OwnedTurns(s: State, ids: seq<nat>)
    ensures Sets(ReturnNext(s, ids), None)
  {
    hide StartReturn, HasOwned, AckIds;
  }

  lemma AfterOwnedTurns(s: State, ids: seq<nat>)
    ensures Sets(AfterOwned(s, ids), None)
  {
    hide AckIds;
  }

  lemma ElsewhereNoTurn(s: State, c: Choice)
    requires !s.pc.Top? && !s.pc.Waiting? && !s.pc.Handle? && !(s.pc.Settle? && s.pc.ids == [])
    ensures Turns(s, Dispatcher(c)).None?
  {}

  lemma MainTurns(s: State, c: Choice)
    requires GoingOn(s.pc) && Watches(s)
    ensures Sets(Main(s, c), if Way(s.pc).Some? then Way(s.pc) else Turns(s, Dispatcher(c)))
  {
    hide AtTop, Woken, HandleEvent, AfterStart, Join, AckOver, DrainOne, DrainRest, Resume;
    hide CollectTask, CollectCancelled, CollectQueue, ReturnNext, AfterOwned, AckIds, Turns;
    if !s.pc.Top? && !s.pc.Waiting? && !s.pc.Handle? && !(s.pc.Settle? && s.pc.ids == []) { ElsewhereNoTurn(s, c); }
    match s.pc
    case Top => TopTurns(s, c);
    case Waiting(forApp) => WaitingTurns(s, c);
    case Handle(event) => HandleTurns(s, c);
    case StartAck(id, ended) => AfterStartSets(Join(s, id).(app := Running), ended);
    case Drain(k) => DrainTurns(s, k);
    case DrainPending(k) => DrainTurns(s, k);
    case Settle(ids, k) => if ids == [] { SettleTurns(s, k, c); }
    case ReturnOwned(ids) => OwnedTurns(s, ids);
    case OwnedAck(id, ids) => AfterOwnedTurns(Join(s, id), ids);
    case Collect => CollectTurns(s, c);
    case CollectCancel => CollectTurns(s, c);
    case CollectNative => CollectTurns(s, c);
    case _ =>
  }
}
