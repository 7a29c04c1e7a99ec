// Which credit each step of the dispatcher of a leased request starts to return, and which
// it drops. The lemmas go through the pieces of a step; the main one is the last, that a
// step does exactly what its fields call for. What follows for whole runs is in
// CreditCourse.dfy.

module CreditReturns {
  import opened Prelude
  import opened Credits
  import opened CreditBodies

  /** Credit can still be returned: the connection is there, and only a reset by the peer may have stopped the request. */
  predicate Returnable(s: State) {
    s.connected && s.terminal != Some(ByConnection) && s.terminal != Some(ByShutdown)
  }

  /** Data behind the metadata that comes when the application has finished. */
  predicate ComesLate(s: State, a: Action) {
    Handles(s, a) && s.metadata && s.app.Finished? && s.pc.event.value.Data?
  }

  /** The credit whose return a step starts. */
  function Starting(s: State, a: Action): Option<Credit> {
    if Starts(s, a) != [] then Some(Starts(s, a)[0])
    else if ComesLate(s, a) && s.fetched > 0 then Some(Credit(s.lastId + 1, s.fetched))
    else if !a.Dispatcher? then None
    else if s.pc.Drain? && s.queue != [] && s.queue[0] > 0 && Returnable(s) then Some(Credit(s.lastId + 1, s.queue[0]))
    else if s.pc.DrainPending? && s.pending > 0 && Returnable(s) then Some(Credit(s.lastId + 1, s.pending))
    else if s.pc.ReturnOwned? && s.pc.ids != [] && HasOwned(s.owned, s.pc.ids[0]) then Some(Credit(s.pc.ids[0], AmountOf(s.owned, s.pc.ids[0])))
    else None
  }

  /** The credit it drops. */
  function Drops(s: State, a: Action): nat {
    if !a.Dispatcher? then 0
    else if s.pc.Drain? && s.queue != [] && !Returnable(s) then s.queue[0]
    else if s.pc.DrainPending? && !Returnable(s) then s.pending
    else if s.pc == Settle([], FromCollect) && !(s.connected && s.terminal == Some(ByReset)) then OwnedSum(s.owned)
    else 0
  }

  /** A step from s to t starts one return or none, and drops this much. */
  predicate Spends(s: State, t: State, start: Option<Credit>, drop: nat) {
    && t.discarded == s.discarded + drop
    && match start
       case Some(c) => t.acks == s.acks + [Ack(c.id, c.amount, Unsent)]
       case None => forall x :: x in t.acks ==> x in s.acks
  }

  lemma Same(s: State, t: State)
    ensures t.acks == s.acks && t.discarded == s.discarded ==> Spends(s, t, None, 0)
  {}

  lemma JoinSpends(s: State, id: nat, t: State)
    ensures var u := Join(s, id); t.acks == u.acks && t.discarded == u.discarded ==> Spends(s, t, None, 0)
  {
    JoinOnlyDrops(s, id);
    JoinDiscards(s, id);
    hide Join;
  }

  lemma JoinDiscards(s: State, id: nat)
    ensures Join(s, id).discarded == s.discarded
  {
    hide FindAck, DropAck;
  }

  lemma ExitingSpends(s: State, exit: Exit)
    ensures Spends(s, Exiting(s, exit), None, 0)
  {
    hide AckIds;
  }

  /** Recording this credit and returning it at once, or dropping it. */
  lemma FreshSpends(s: State, amount: nat)
    requires OnePlace(s) && amount > 0
    ensures var v := Own(s, amount);
            && v.lastId == s.lastId + 1
            && Spends(s, StartReturn(v, v.lastId), Some(Credit(s.lastId + 1, amount)), 0)
            && Spends(s, Discard(v, v.lastId), None, amount)
  {
    FreshReturn(s, amount);
    FreshDiscard(s, amount);
    OwnGives(s, amount);
    hide OnePlace, StartReturn, Discard, Own;
  }

  lemma OwnSpends(s: State, amount: nat)
    ensures Spends(s, Own(s, amount), None, 0)
  {}

  lemma {:induction false} OwnAllSpends(s: State, events: seq<Event>)
    ensures Spends(s, OwnAll(s, events), None, 0)
    decreases |events|
  {
    hide Own, CreditOf;
    if events != [] {
      OwnSpends(s, CreditOf(events[0]));
      OwnAllSpends(Own(s, CreditOf(events[0])), events[1..]);
    }
  }

  lemma TopSpends(s: State, c: Choice)
    ensures Spends(s, AtTop(s, c), None, 0)
  {
    hide Exiting;
    ExitingSpends(s, Raised);
  }

  lemma WokenSpends(s: State, forApp: bool, c: Choice)
    ensures Spends(s, Woken(s, forApp, c), None, 0)
  {
    hide Exiting, CreditOf, Closes;
    ExitingSpends(s, Raised);
    if s.eventTask.Got? {
      var e := s.eventTask.event;
      ExitingSpends(s.(eventTask := NoTask, fetched := CreditOf(e), endTaken := s.endTaken || Closes(e)), Raised);
    }
  }

  lemma AfterStartSpends(s: State, ended: bool)
    ensures Spends(s, AfterStart(s, ended), None, 0)
  {
    hide Exiting;
    ExitingSpends(s, Raised);
  }

  lemma TryStartSpends(s: State, ended: bool, c: Choice)
    requires OnePlace(s)
    ensures Spends(s, TryStart(s, ended, c),
                   if !s.metadata && c.parse == Complete(false) && s.pending > 0 then Some(Credit(s.lastId + 1, s.pending)) else None, 0)
  {
    hide OnePlace, Own, StartReturn, AfterStart, Exiting;
    if !s.metadata && c.parse == Complete(false) && s.pending > 0 {
      var u := s.(metadata := true, pending := 0);
      SamePlaces(s, u);
      FreshSpends(u, s.pending);
    } else if !s.metadata && c.parse.Complete? { hide TryStart; BeginSpends(s, ended, c); }
    else {
      AfterStartSpends(s, ended);
      ExitingSpends(s, Rejected);
      ExitingSpends(s, Raised);
    }
  }

  lemma BeginSpends(s: State, ended: bool, c: Choice)
    requires !s.metadata && c.parse.Complete? && (c.parse.remainder || s.pending == 0)
    ensures Spends(s, TryStart(s, ended, c), None, 0)
  {
    hide Own, StartReturn, AfterStart;
    if c.parse.remainder { AfterStartSpends(s.(metadata := true, queue := s.queue + [s.pending], pending := 0, app := Running), ended); }
    else { AfterStartSpends(s.(metadata := true, app := Running), ended); }
  }

  lemma DataSpends(s: State, c: Choice)
    requires OnePlace(s) && Handles(s, Dispatcher(c)) && s.pc.event.value.Data?
    ensures Spends(s, HandleEvent(s, s.pc.event, c), Starting(s, Dispatcher(c)), 0)
  {
    hide OnePlace, Own, StartReturn, TryStart;
    if !s.metadata {
      var u := s.(pending := s.pending + s.fetched, fetched := 0);
      SamePlaces(s, u);
      TryStartSpends(u, false, c);
    } else if s.app.Finished? && s.fetched > 0 {
      var u := s.(fetched := 0);
      SamePlaces(s, u);
      FreshSpends(u, s.fetched);
    }
  }

  lemma OtherEventSpends(s: State, c: Choice)
    requires OnePlace(s) && s.pc.Handle? && !(Handles(s, Dispatcher(c)) && s.pc.event.value.Data?)
    ensures Spends(s, HandleEvent(s, s.pc.event, c), Starting(s, Dispatcher(c)), 0)
  {
    hide OnePlace, TryStart, Exiting, Mark, OwnedSum;
    MarkDiscards(s);
    ExitingSpends(s, Completed);
    TryStartSpends(s, true, c);
  }

  lemma MarkDiscards(s: State)
    ensures forall k :: Mark(s, k).discarded == s.discarded && Mark(s, k).acks == s.acks
  {}

  lemma DrainSpends(s: State, c: Choice)
    requires OnePlace(s) && s.pc.Drain?
    ensures Spends(s, DrainOne(s, s.pc.k), Starting(s, Dispatcher(c)), Drops(s, Dispatcher(c)))
  {
    hide OnePlace, Own, StartReturn, Discard;
    if s.queue != [] {
      var u := s.(queue := s.queue[1..]);
      SamePlaces(s, u);
      if s.queue[0] > 0 { FreshSpends(u, s.queue[0]); } else { OwnSpends(u, 0); }
    }
  }

  lemma PendingSpends(s: State, c: Choice)
    requires OnePlace(s) && s.pc.DrainPending?
    ensures Spends(s, DrainRest(s, s.pc.k), Starting(s, Dispatcher(c)), Drops(s, Dispatcher(c)))
  {
    hide OnePlace, Own, StartReturn, Discard, AckIds;
    if s.pending > 0 {
      var u := s.(pending := 0);
      SamePlaces(s, u);
      FreshSpends(u, s.pending);
    }
  }

  lemma ResumeSpends(s: State, k: After)
    ensures Spends(s, Resume(s, k), None, if k.FromCollect? && !(s.connected && s.terminal == Some(ByReset)) then OwnedSum(s.owned) else 0)
  {
    hide AckIds, OwnedIds, OwnedSum, Exiting;
    ExitingSpends(s, Completed);
    ExitingSpends(s, Terminated);
  }

  lemma CollectSpends(s: State)
    ensures Spends(s, CollectTask(s), None, 0)
  {
    hide Own, CreditOf;
    if s.eventTask.Got? { OwnSpends(s.(eventTask := NoTask), CreditOf(s.eventTask.event)); }
  }

  lemma CancelledSpends(s: State, c: Choice)
    ensures Spends(s, CollectCancelled(s, c), None, 0)
  {
    hide Own, CreditOf;
    if s.native != [] { OwnSpends(s.(eventTask := NoTask, native := s.native[1..]), CreditOf(s.native[0])); }
  }

  lemma NativeSpends(s: State)
    ensures Spends(s, CollectQueue(s), None, 0)
  {
    hide Own, OwnAll;
    var u := s.(native := [], fetched := 0);
    OwnAllSpends(u, s.native);
    OwnSpends(OwnAll(u, s.native), s.fetched);
  }

  lemma NextSpends(s: State, c: Choice)
    requires s.pc.ReturnOwned?
    ensures Spends(s, ReturnNext(s, s.pc.ids), Starting(s, Dispatcher(c)), 0)
  {
    StartingOwned(s, c);
    hide HasOwned, AckIds, StartReturn, Starting;
    if s.pc.ids != [] { ReturnSpends(s, s.pc.ids[0]); }
  }

  lemma StartingOwned(s: State, c: Choice)
    requires s.pc.ReturnOwned?
    ensures Starting(s, Dispatcher(c)) ==
            if s.pc.ids != [] && HasOwned(s.owned, s.pc.ids[0]) then Some(Credit(s.pc.ids[0], AmountOf(s.owned, s.pc.ids[0]))) else None
  {
    hide HasOwned, AmountOf;
  }

  lemma ReturnSpends(s: State, id: nat)
    ensures var t := StartReturn(s, id); t.acks == s.acks + [Ack(id, AmountOf(s.owned, id), Unsent)] && t.discarded == s.discarded
  {
    hide DropOwned, AmountOf;
  }

  lemma NoneElsewhere(s: State, c: Choice)
    requires !s.pc.Handle? && !s.pc.Drain? && !s.pc.DrainPending? && !s.pc.ReturnOwned?
    ensures Starting(s, Dispatcher(c)).None?
    ensures Drops(s, Dispatcher(c)) == if s.pc == Settle([], FromCollect) && !(s.connected && s.terminal == Some(ByReset)) then OwnedSum(s.owned) else 0
  {}

  lemma DropsNothing(s: State, c: Choice)
    requires s.pc.Handle? || s.pc.ReturnOwned?
    ensures Drops(s, Dispatcher(c)) == 0
  {}

  lemma AfterOwnedSpends(s: State, ids: seq<nat>)
    ensures AfterOwned(s, ids).acks == s.acks && AfterOwned(s, ids).discarded == s.discarded
  {
    hide AckIds;
  }

  lemma MainSpends(s: State, c: Choice)
    requires OnePlace(s)
    ensures Spends(s, Main(s, c), Starting(s, Dispatcher(c)), Drops(s, Dispatcher(c)))
  {
    if s.pc.Handle? {
      DropsNothing(s, c);
      hide Drops, OnePlace, HandleEvent, Starting;
      if Handles(s, Dispatcher(c)) && s.pc.event.value.Data? { DataSpends(s, c); } else { OtherEventSpends(s, c); }
    } else if s.pc.Drain? { hide OnePlace, Drops, DrainOne; DrainSpends(s, c); }
    else if s.pc.DrainPending? { hide OnePlace, Drops, DrainRest; PendingSpends(s, c); }
    else if s.pc.ReturnOwned? { DropsNothing(s, c); hide OnePlace, Drops, ReturnNext; NextSpends(s, c); }
    else { NoneElsewhere(s, c); hide OnePlace, Main, Starting, Drops; RestSpends(s, c); }
  }

  lemma RestSpends(s: State, c: Choice)
    requires !s.pc.Handle? && !s.pc.Drain? && !s.pc.DrainPending? && !s.pc.ReturnOwned?
    ensures Spends(s, Main(s, c), None, if s.pc == Settle([], FromCollect) && !(s.connected && s.terminal == Some(ByReset)) then OwnedSum(s.owned) else 0)
  {
    hide AtTop, Woken, AfterStart, Join, AckOver, Resume, CollectTask, CollectCancelled, CollectQueue, AfterOwned, AckIds, Spends, OwnedSum;
    match s.pc
    case Top => TopSpends(s, c);
    case Waiting(forApp) => WokenSpends(s, forApp, c);
    case StartAck(id, ended) =>
      var u := Join(s, id).(app := Running);
      AfterStartElse(u, ended);
      AfterStartDiscards(u, ended);
      JoinSpends(s, id, AfterStart(u, ended));
      Same(s, s);
    case DirectAck(id) => JoinSpends(s, id, Join(s, id).(pc := Top)); Same(s, s);
    case DrainAck(id, k) => JoinSpends(s, id, Join(s, id).(pc := Drain(k))); Same(s, s);
    case PendingAck(id, k) => var u := Join(s, id); JoinSpends(s, id, u.(pc := Settle(AckIds(u.acks), k))); Same(s, s);
    case Settle(ids, k) =>
      if ids == [] { ResumeSpends(s, k); } else { JoinSpends(s, ids[0], Join(s, ids[0]).(pc := Settle(ids[1..], k))); Same(s, s); }
    case OwnedAck(id, ids) => AfterOwnedSpends(Join(s, id), ids); JoinSpends(s, id, AfterOwned(Join(s, id), ids)); Same(s, s);
    case Collect => CollectSpends(s);
    case CollectCancel => CancelledSpends(s, c);
    case CollectNative => NativeSpends(s);
    case Exited(_) => Same(s, s);
  }

  lemma AfterStartDiscards(s: State, ended: bool)
    ensures AfterStart(s, ended).discarded == s.discarded
  {
    hide AckIds;
  }

  lemma ReceiveSpends(s: State)
    requires OnePlace(s)
    ensures Spends(s, Step(s, Receive), Starting(s, Receive), 0)
  {
    hide Main, OnePlace, Own, StartReturn;
    if Takes(s, Receive) != [] && s.queue[0] > 0 {
      var u := s.(queue := s.queue[1..]);
      SamePlaces(s, u);
      FreshSpends(u, s.queue[0]);
    }
  }

  lemma OthersSpend(s: State, a: Action)
    requires !a.Dispatcher? && !a.Receive? && !a.AckAccepted? && !a.AckFlushed? && !a.AckRefused?
    ensures Spends(s, Step(s, a), None, 0)
  {
    hide Main, Join, Exiting, Mark, CreditOf, Closes;
    if a.ReceiverJoins? { JoinSpends(s, a.id, Join(s, a.id)); }
    else { MarkDiscards(s); ExitingSpends(Mark(s, ByShutdown), Cancelled); }
  }

  lemma OthersStartNone(s: State, a: Action)
    requires !a.Dispatcher? && !a.Receive?
    ensures Starting(s, a).None?
  {}

  /** A step starts the return of exactly this credit and drops exactly this much; the progress of a task aside. */
  lemma ReturnsAndDropsExactly(s: State, a: Action)
    requires OnePlace(s) && !a.AckAccepted? && !a.AckFlushed? && !a.AckRefused?
    ensures Spends(s, Step(s, a), Starting(s, a), Drops(s, a))
  {
    if a.Dispatcher? { hide Main, OnePlace, Spends, Starting, Drops; MainSpends(s, a.choice); }
    else if a.Receive? { hide Step, OnePlace, Spends, Starting; ReceiveSpends(s); }
    else { OthersStartNone(s, a); hide Step, OnePlace, Spends, Starting; OthersSpend(s, a); }
  }
}
