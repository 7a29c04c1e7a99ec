// Which step of the dispatcher begins the rejection of a request. A rejection is the settling
// of the acknowledgement tasks with the exit Rejected behind it, and then that exit; it begins
// where data, or the end of the stream, is handled while the metadata is missing and invalid.
//
// Every other step is gone through here piece by piece, to show that it begins none and ends
// none. What follows for whole runs is in CreditRuns.dfy.

module CreditRefusals {
  import opened Credits

  /**
   * The dispatcher is about to refuse the request: nothing has stopped it, its metadata is
   * missing, data or the end of the stream is handled, and what has arrived is invalid.
   */
  predicate Refuses(s: State, a: Action) {
    && a.Dispatcher? && a.choice.parse.Invalid? && s.terminal.None? && !s.metadata && s.pc.Handle?
    && s.pc.event.Some? && (s.pc.event.value.Data? || (s.pc.event.value.Ended? && !s.uploadEof))
  }

  predicate Rejecting(pc: Pc) {
    pc == Exited(Rejected) || (pc.Settle? && pc.k == Leave(Rejected))
  }

  /** These pieces of a step leave the dispatcher where it stands. */
  lemma SmallPieces(s: State, amount: nat, id: nat)
    ensures Own(s, amount).pc == s.pc && Discard(s, id).pc == s.pc && StartReturn(s, id).pc == s.pc && Join(s, id).pc == s.pc
  {}

  lemma AfterStartRefuses(s: State, ended: bool)
    requires s.pc.Handle? || s.pc.StartAck?
    ensures !Rejecting(AfterStart(s, ended).pc)
  {
    hide AckIds;
  }

  lemma TryStartRefuses(s: State, ended: bool, c: Choice)
    requires s.pc.Handle?
    ensures Rejecting(TryStart(s, ended, c).pc) <==> !s.metadata && c.parse.Invalid?
  {
    hide AfterStart, Own, StartReturn, AckIds;
    AfterStartRefuses(s, ended);
    if !s.metadata && c.parse.Complete? {
      AfterStartRefuses(s.(metadata := true, app := Running), ended);
      AfterStartRefuses(s.(metadata := true, queue := s.queue + [s.pending], pending := 0, app := Running), ended);
    }
  }

  lemma DataRefuses(s: State, c: Choice)
    requires s.pc.Handle? && s.pc.event.Some? && s.pc.event.value.Data? && s.terminal.None?
    ensures Rejecting(HandleEvent(s, s.pc.event, c).pc) <==> !s.metadata && c.parse.Invalid?
  {
    hide TryStart, Own, StartReturn, Rejecting;
    if !s.metadata { TryStartRefuses(s.(pending := s.pending + s.fetched, fetched := 0), false, c); }
    else { NotRejecting(); }
  }

  lemma NotRejecting()
    ensures !Rejecting(Top) && forall id: nat :: !Rejecting(DirectAck(id))
  {}

  lemma HandleRefuses(s: State, c: Choice)
    requires s.pc.Handle?
    ensures Rejecting(HandleEvent(s, s.pc.event, c).pc) <==> Refuses(s, Dispatcher(c))
  {
    hide TryStart, Own, StartReturn, AckIds;
    if s.terminal.None? && s.pc.event.Some? && s.pc.event.value.Data? { hide HandleEvent; DataRefuses(s, c); }
    else { TryStartRefuses(s, true, c); }
  }

  lemma DrainRefuses(s: State, k: After)
    requires s.pc == Drain(k)
    ensures !Rejecting(DrainOne(s, k).pc)
  {
    hide Own, StartReturn, Discard;
    if s.queue != [] {
      var u := s.(queue := s.queue[1..]);
      SmallPieces(u, s.queue[0], 0);
      var v := Own(u, s.queue[0]);
      SmallPieces(v, 0, v.lastId);
    }
  }

  lemma ExitingPc(s: State, exit: Exit)
    ensures Rejecting(Exiting(s, exit).pc) <==> exit == Rejected
    ensures StartWaiting(s).pc.Waiting?
  {
    hide AckIds;
  }

  lemma TopRefuses(s: State, c: Choice)
    requires s.pc.Top?
    ensures !Rejecting(AtTop(s, c).pc)
  {
    hide Exiting, StartWaiting;
    ExitingPc(s, Raised);
    if s.terminal.Some? {}
    else if s.uploadEof && s.app.NotStarted? {}
    else if s.app.Finished? && !s.eventTask.Got? {}
    else {}
  }

  lemma WaitRefuses(s: State, forApp: bool, c: Choice)
    requires s.pc == Waiting(forApp)
    ensures !Rejecting(Woken(s, forApp, c).pc)
  {
    hide Exiting, CreditOf, Closes;
    ExitingPc(s, Raised);
    if s.eventTask.Got? {
      var e := s.eventTask.event;
      ExitingPc(s.(eventTask := NoTask, fetched := CreditOf(e), endTaken := s.endTaken || Closes(e)), Raised);
    }
  }

  lemma ResumeRefuses(s: State, k: After)
    ensures Rejecting(Resume(s, k).pc) <==> k == Leave(Rejected)
  {
    hide AckIds, OwnedIds, OwnedSum, Exiting, StartWaiting;
    match k
    case FromTop => ExitingPc(s, Completed);
    case Last => ExitingPc(s, Terminated);
    case _ =>
  }

  lemma CollectRefuses(s: State, c: Choice)
    ensures !Rejecting(CollectTask(s).pc) && !Rejecting(CollectCancelled(s, c).pc) && !Rejecting(CollectQueue(s).pc)
  {
    hide Own, OwnAll, CreditOf;
  }

  lemma OwnedRefuses(s: State, ids: seq<nat>)
    ensures !Rejecting(ReturnNext(s, ids).pc) && !Rejecting(AfterOwned(s, ids).pc)
  {
    hide StartReturn, HasOwned, AckIds;
  }

  lemma PendingRefuses(s: State, k: After)
    requires k != Leave(Rejected)
    ensures !Rejecting(DrainRest(s, k).pc)
  {
    hide Own, StartReturn, Discard, AckIds;
  }

  lemma MainRefuses(s: State, c: Choice)
    requires !s.pc.Handle? && (s.pc.PendingAck? || s.pc.DrainPending? ==> s.pc.k != Leave(Rejected))
    ensures Rejecting(Main(s, c).pc) <==> Rejecting(s.pc)
  {
    hide AtTop, Woken, HandleEvent, AfterStart, Join, AckOver, DrainOne, DrainRest, Resume;
    hide CollectTask, CollectCancelled, CollectQueue, ReturnNext, AfterOwned, AckIds;
    match s.pc
    case Top => TopRefuses(s, c);
    case Waiting(forApp) => WaitRefuses(s, forApp, c);
    case StartAck(id, ended) => SmallPieces(s, 0, id); AfterStartRefuses(Join(s, id).(app := Running), ended);
    case Drain(k) => DrainRefuses(s, k);
    case DrainPending(k) => PendingRefuses(s, k);
    case Settle(ids, k) => if ids == [] { ResumeRefuses(s, k); }
    case ReturnOwned(ids) => OwnedRefuses(s, ids);
    case OwnedAck(id, ids) => OwnedRefuses(Join(s, id), ids);
    case _ => CollectRefuses(s, c);
  }

  lemma StepRefuses(s: State, a: Action)
    requires Inv(s)
    ensures Rejecting(Step(s, a).pc) <==> Rejecting(s.pc) || Refuses(s, a)
  {
    hide Inv, Main, HandleEvent, Join, Own, StartReturn, AckIds, FindAck, MoveAck;
    match a
    case Dispatcher(c) =>
      if s.pc.Handle? { HandleRefuses(s, c); MainHandles(s, c); }
      else { DrainsThenGoesOn(s); MainRefuses(s, c); }
    case Receive =>
      if s.queue != [] {
        var u := s.(queue := s.queue[1..]);
        SmallPieces(u, s.queue[0], 0);
        var v := Own(u, s.queue[0]);
        SmallPieces(v, 0, v.lastId);
      }
    case ReceiverJoins(id) => SmallPieces(s, 0, id);
    case _ =>
  }

  lemma DrainsThenGoesOn(s: State)
    requires Inv(s)
    ensures s.pc.PendingAck? || s.pc.DrainPending? ==> s.pc.k != Leave(Rejected)
  {
    hide Core;
  }

  lemma MainHandles(s: State, c: Choice)
    requires s.pc.Handle?
    ensures Main(s, c) == HandleEvent(s, s.pc.event, c)
  {
    hide HandleEvent;
  }
}
