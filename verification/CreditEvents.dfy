// How an event of a stream gets to the dispatcher of a leased request. The lemmas follow it
// from the stream's queue to whoever awaits it, from there into the dispatcher's hand,
// perhaps past a drain, and to where it is handled; what they add up to over a whole run is
// in CreditCourse.dfy.

module CreditEvents {
  import opened Prelude
  import opened Credits
  import opened CreditExits

  /** The events still to be taken, the next one first. */
  function Next(s: State): seq<Event> {
    (if s.eventTask.Got? then [s.eventTask.event] else []) + s.native
  }

  function Carried(k: After): seq<Event> {
    if k.FromWait? && k.event.Some? then [k.event.value] else []
  }

  /** The event the dispatcher has in hand, perhaps while it drains what a finished application left. */
  function Hand(pc: Pc): seq<Event> {
    match pc
    case Handle(event) => if event.Some? then [event.value] else []
    case Drain(k) => Carried(k)
    case DrainAck(_, k) => Carried(k)
    case DrainPending(k) => Carried(k)
    case PendingAck(_, k) => Carried(k)
    case Settle(_, k) => Carried(k)
    case _ => []
  }

  /** The event a step adds: none behind the end of the stream but a failure of the connection or another reset. */
  function Comes(s: State, a: Action): seq<Event> {
    if a.Arrive? && !(s.peerGone && (a.event.Data? || a.event.Ended?)) then [a.event] else []
  }

  /** The event a step handles. */
  function Handled(s: State, a: Action): seq<Event> {
    if a.Dispatcher? && s.pc.Handle? then Hand(s.pc) else []
  }

  /** What is left of the events is being collected for their credit. */
  predicate Collecting(pc: Pc) {
    pc.Collect? || pc.CollectCancel? || pc.CollectNative?
  }

  predicate Keeps(s: State, t: State) {
    t.native == s.native && t.eventTask == s.eventTask
  }

  /** The events stay where they are, and the dispatcher has these in hand. */
  predicate Gives(s: State, t: State, hand: seq<Event>) {
    Keeps(s, t) && Hand(t.pc) == hand && !Collecting(t.pc)
  }

  lemma OwnKeeps(s: State, amount: nat)
    ensures var v := Own(s, amount); Keeps(s, v) && Keeps(s, StartReturn(v, v.lastId)) && Keeps(s, Discard(v, v.lastId))
  {
    hide DropOwned, AmountOf;
  }

  lemma JoinKeeps(s: State, id: nat)
    ensures Keeps(s, Join(s, id)) && Join(s, id).pc == s.pc
  {
    hide FindAck, DropAck, Mark;
    MarkKeeps(s);
  }

  lemma ExitingGives(s: State, exit: Exit)
    ensures Gives(s, Exiting(s, exit), []) && Way(Exiting(s, exit).pc) == Some(exit)
  {
    hide AckIds;
  }

  /** The same events in the same order, perhaps one of them now with the event task. */
  predicate Moves(s: State, t: State, hand: seq<Event>) {
    Next(t) == Next(s) && Hand(t.pc) == hand && (Collecting(t.pc) ==> s.terminal.Some?)
  }

  lemma GivesMoves(s: State, t: State, hand: seq<Event>)
    ensures Gives(s, t, hand) ==> Moves(s, t, hand)
  {}

  lemma WaitingMoves(s: State)
    ensures Moves(s, StartWaiting(s), []) && Way(StartWaiting(s).pc).None?
  {}

  lemma TopKeeps(s: State, c: Choice)
    requires s.pc.Top?
    ensures Moves(s, AtTop(s, c), [])
  {
    hide Exiting, StartWaiting;
    ExitingGives(s, Raised);
    WaitingMoves(s);
  }

  lemma WaitingTakes(s: State, c: Choice)
    requires s.pc.Waiting?
    ensures var t := Woken(s, s.pc.forApp, c); !Collecting(t.pc) && (Way(t.pc).None? ==> Next(s) == Hand(t.pc) + Next(t))
  {
    hide Exiting, CreditOf, Closes;
    ExitingGives(s, Raised);
    if s.eventTask.Got? { hide Woken; GotTakes(s, c); }
  }

  lemma GotTakes(s: State, c: Choice)
    requires s.pc.Waiting? && s.eventTask.Got?
    ensures var t := Woken(s, s.pc.forApp, c); !Collecting(t.pc) && (Way(t.pc).None? ==> Next(s) == Hand(t.pc) + Next(t))
  {
    var e := s.eventTask.event;
    ExitingGives(s.(eventTask := NoTask, fetched := CreditOf(e), endTaken := s.endTaken || Closes(e)), Raised);
    hide Exiting, CreditOf, Closes;
  }

  lemma AfterStartKeeps(s: State, ended: bool)
    ensures var t := AfterStart(s, ended); Gives(s, t, [])
  {
    hide AckIds;
  }

  lemma TryStartKeeps(s: State, ended: bool, c: Choice)
    ensures var t := TryStart(s, ended, c); Gives(s, t, [])
  {
    hide AfterStart, AckIds, Own, StartReturn;
    AfterStartKeeps(s, ended);
    if !s.metadata && c.parse.Complete? { hide TryStart; CompleteKeeps(s, ended, c); }
  }

  lemma CompleteKeeps(s: State, ended: bool, c: Choice)
    requires !s.metadata && c.parse.Complete?
    ensures var t := TryStart(s, ended, c); Gives(s, t, [])
  {
    hide AfterStart, Own, StartReturn;
    AfterStartKeeps(s.(metadata := true, queue := s.queue + [s.pending], pending := 0, app := Running), ended);
    AfterStartKeeps(s.(metadata := true, app := Running), ended);
    OwnKeeps(s.(metadata := true, pending := 0), s.pending);
  }

  lemma HandleKeeps(s: State, c: Choice)
    requires s.pc.Handle?
    ensures var t := HandleEvent(s, s.pc.event, c); Gives(s, t, [])
  {
    hide TryStart, Own, StartReturn, AckIds, Mark, HandleEvent;
    if s.terminal.None? && s.pc.event.Some? && s.pc.event.value.Data? { DataKeeps(s, c); }
    else { OtherKeeps(s, c); }
  }

  lemma DataKeeps(s: State, c: Choice)
    requires s.pc.Handle? && s.terminal.None? && s.pc.event.Some? && s.pc.event.value.Data?
    ensures var t := HandleEvent(s, s.pc.event, c); Gives(s, t, [])
  {
    hide TryStart, Own, StartReturn;
    if !s.metadata { TryStartKeeps(s.(pending := s.pending + s.fetched, fetched := 0), false, c); }
    else { OwnKeeps(s.(fetched := 0), s.fetched); }
  }

  lemma OtherKeeps(s: State, c: Choice)
    requires s.pc.Handle? && !(s.terminal.None? && s.pc.event.Some? && s.pc.event.value.Data?)
    ensures var t := HandleEvent(s, s.pc.event, c); Gives(s, t, [])
  {
    hide TryStart, Own, StartReturn, Exiting, Mark;
    if s.terminal.None? && s.pc.event.Some? {
      TryStartKeeps(s, true, c);
      MarkGives(s, ByReset);
      MarkGives(s, ByConnection);
    } else { ExitingGives(s, Completed); }
  }

  lemma MarkGives(s: State, k: Terminal)
    ensures Gives(s, Mark(s, k).(pc := Top), [])
  {}

  lemma RestKeeps(s: State, k: After)
    ensures Gives(s, DrainRest(s, k), Carried(k))
  {
    hide Own, StartReturn, Discard, AckIds;
    if s.pending > 0 {
      var u := s.(pending := 0);
      OwnKeeps(u, s.pending);
      hide Gives;
      var v := Own(u, s.pending);
      SettlingGives(u, Discard(v, v.lastId), k);
      AckingGives(u, StartReturn(v, v.lastId), v.lastId, k);
      FieldsGive(s, u, DrainRest(s, k), k);
    } else { SettlingGives(s, s, k); }
  }

  lemma SettlingGives(s: State, t: State, k: After)
    ensures Keeps(s, t) ==> Gives(s, t.(pc := Settle(AckIds(t.acks), k)), Carried(k))
  {
    hide AckIds;
  }

  lemma AckingGives(s: State, t: State, id: nat, k: After)
    ensures Keeps(s, t) ==> Gives(s, t.(pc := PendingAck(id, k)), Carried(k))
  {}

  lemma FieldsGive(s: State, u: State, t: State, k: After)
    requires Keeps(s, u)
    ensures Gives(u, t, Carried(k)) ==> Gives(s, t, Carried(k))
  {}

  lemma DrainOneKeeps(s: State, k: After)
    requires s.pc == Drain(k)
    ensures Gives(s, DrainOne(s, k), Carried(k))
  {
    hide Own, StartReturn, Discard;
    if s.queue != [] {
      var u := s.(queue := s.queue[1..]);
      OwnKeeps(u, s.queue[0]);
      ReturnStays(u, s.queue[0]);
    }
  }

  lemma ResumeKeeps(s: State, k: After)
    ensures var t := Resume(s, k); Way(t.pc).None? ==> Moves(s, t, Carried(k))
  {
    hide AckIds, OwnedIds, OwnedSum, Exiting, StartWaiting;
    match k
    case FromTop => hide Moves; ExitingGives(s, Completed); WaitingMoves(s); StoppedMoves(s);
    case Last => ExitingGives(s, Terminated);
    case FromCollect => hide Resume; CollectedGives(s);
    case _ =>
  }

  lemma StoppedMoves(s: State)
    ensures s.terminal.Some? ==> Moves(s, s.(pc := Collect), [])
  {}

  lemma CollectedGives(s: State)
    ensures Gives(s, Resume(s, FromCollect), [])
  {
    hide AckIds, OwnedIds, OwnedSum;
  }

  lemma OwnedKeeps(s: State, ids: seq<nat>)
    ensures Gives(s, ReturnNext(s, ids), [])
  {
    hide StartReturn, HasOwned, AckIds;
    if ids != [] { ReturnKeeps(s, ids[0]); }
  }

  lemma ReturnKeeps(s: State, id: nat)
    ensures Keeps(s, StartReturn(s, id))
  {
    hide DropOwned, AmountOf;
  }

  lemma AfterOwnedKeeps(s: State, ids: seq<nat>)
    ensures Gives(s, AfterOwned(s, ids), [])
  {
    hide AckIds;
  }

  lemma MainTakes(s: State, c: Choice)
    requires !Collecting(s.pc) && GoingOn(s.pc) && Way(Main(s, c).pc).None?
    ensures var t := Main(s, c); Hand(s.pc) + Next(s) == Handled(s, Dispatcher(c)) + Hand(t.pc) + Next(t) && (Collecting(t.pc) ==> s.terminal.Some?)
  {
    hide AtTop, Woken, HandleEvent, AfterStart, Join, AckOver, DrainOne, DrainRest, Resume, ReturnNext, AfterOwned, AckIds;
    match s.pc
    case Top => TopKeeps(s, c);
    case Waiting(forApp) => WaitingTakes(s, c);
    case Handle(event) => HandleKeeps(s, c);
    case StartAck(id, ended) => JoinKeeps(s, id); AfterStartKeeps(Join(s, id).(app := Running), ended);
    case DirectAck(id) => JoinKeeps(s, id);
    case Drain(k) => DrainOneKeeps(s, k);
    case DrainAck(id, k) => JoinKeeps(s, id);
    case DrainPending(k) => RestKeeps(s, k);
    case PendingAck(id, k) => JoinKeeps(s, id);
    case Settle(ids, k) => ResumeKeeps(s, k); if ids != [] { JoinKeeps(s, ids[0]); }
    case ReturnOwned(ids) => OwnedKeeps(s, ids);
    case OwnedAck(id, ids) => JoinKeeps(s, id); AfterOwnedKeeps(Join(s, id), ids);
    case _ =>
  }

  lemma OthersTake(s: State, a: Action)
    requires !a.Dispatcher? && !a.Cancel? && !Collecting(s.pc)
    ensures var t := Step(s, a); t.pc == s.pc && Next(s) + Comes(s, a) == Next(t)
  {
    if a.Arrive? || a.TakeEvent? { hide Main; }
    else { OthersKeep(s, a); hide Step; }
  }

  lemma OthersKeep(s: State, a: Action)
    requires !a.Dispatcher? && !a.Cancel? && !a.Arrive? && !a.TakeEvent?
    ensures var t := Step(s, a); t.pc == s.pc && Keeps(s, t) && Comes(s, a) == []
  {
    hide Main, Join, FindAck, MoveAck, Own, StartReturn, Mark;
    if a.ReceiverJoins? { JoinKeeps(s, a.id); }
    else if a.Receive? && s.queue != [] { OwnKeeps(s.(queue := s.queue[1..]), s.queue[0]); ReturnStays(s.(queue := s.queue[1..]), s.queue[0]); }
    else if a.SendFails? { MarkKeeps(s); }
  }

  lemma MarkKeeps(s: State)
    ensures forall k :: Keeps(s, Mark(s, k)) && Mark(s, k).pc == s.pc
  {}

  /** A step handles the event in hand, or takes the next one, or adds one behind all others. */
  lemma StepTakes(s: State, a: Action)
    requires !Collecting(s.pc) && GoingOn(s.pc) && Way(Step(s, a).pc).None?
    ensures var t := Step(s, a); (Hand(s.pc) + Next(s)) + Comes(s, a) == Handled(s, a) + (Hand(t.pc) + Next(t)) && (Collecting(t.pc) ==> s.terminal.Some?)
  {
    hide Next, Hand, Main;
    if a.Dispatcher? { hide Handled, GoingOn, Way, Collecting; MainTakes(s, a.choice); assert Comes(s, a) == []; }
    else if a.Cancel? { assert false by { CancelLeaves(s); } }
    else {
      OthersTake(s, a);
      hide Step, Comes;
      assert (Hand(s.pc) + Next(s)) + Comes(s, a) == Hand(s.pc) + (Next(s) + Comes(s, a));
    }
  }

  lemma CancelLeaves(s: State)
    ensures Way(Step(s, Cancel).pc).Some?
  {
    hide AckIds;
  }
}
