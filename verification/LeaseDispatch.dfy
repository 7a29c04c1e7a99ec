// The Python Guest's dispatch of one leased request, in the form the source gives it:
// counters, dictionaries and queues that the dispatcher and the receive call update.
// Every method is one region without an await and is proved against Credits.

module LeaseDispatch {
  import opened Prelude
  import opened Credits
  import opened CreditRefusals
  import opened CreditRuns

  lemma OwnElsewhere(s: State, amount: nat)
    ensures Own(s, amount).(native := []) == Own(s.(native := []), amount) && Own(s, amount).native == s.native
  {
    if amount > 0 {
      var owned := s.owned + [Credit(s.lastId + 1, amount)];
      assert Own(s, amount) == s.(lastId := s.lastId + 1, owned := owned);
      assert Own(s.(native := []), amount) == s.(native := []).(lastId := s.lastId + 1, owned := owned);
    }
  }

  lemma CoreConserves(s: State)
    requires Inv(s)
    ensures s.received == Held(s) + InFlight(s.acks) + OwnedSum(s.returned) + s.lost + s.discarded
  {
    hide OnePlace, Ordered, Ends, Losses, Placed, Held;
  }

  lemma JoinIsStep(s: State, id: nat)
    ensures Step(s, ReceiverJoins(id)) == Join(s, id)
  {
    hide Join, Main;
  }

  lemma JoinReturnsNone(s: State, id: nat)
    ensures Join(s, id).returned == s.returned && Join(s, id).received == s.received
  {
    hide FindAck, DropAck;
  }

  lemma DispatcherRefuses(s: State, c: Choice)
    requires Inv(s)
    ensures Rejecting(Main(s, c).pc) <==> Rejecting(s.pc) || Refuses(s, Dispatcher(c))
  {
    hide Inv, Main, Rejecting, Refuses;
    StepRefuses(s, Dispatcher(c));
  }

  class Dispatch {
    var native: seq<Event>
    var eventTask: EventTask
    var fetched: nat
    var pending: nat
    var queue: seq<nat>
    var owned: seq<Credit>
    var acks: seq<Ack>
    var lastId: nat
    var metadata: bool
    var app: App
    var responded: bool
    var uploadEof: bool
    var terminal: Option<Terminal>
    var connected: bool
    var peerGone: bool
    var endTaken: bool
    var received: nat
    var returned: seq<Credit>
    var lost: nat
    var discarded: nat
    var pc: Pc

    ghost function Now(): State
      reads this
    {
      State(native, eventTask, fetched, pending, queue, owned, acks, lastId, metadata, app, responded, uploadEof,
            terminal, connected, peerGone, endTaken, received, returned, lost, discarded, pc)
    }

    ghost predicate Valid()
      reads this
    {
      Inv(Now())
    }

    /**
     * The promise of every step: each unit of credit is in one place, none is returned twice,
     * and a dispatcher that has left with the connection up has settled its credit.
     */
    ghost predicate CreditIsSafe()
      reads this
    {
      && received == Held(Now()) + InFlight(acks) + OwnedSum(returned) + lost + discarded
      && ReturnedOnce(Now())
      && (pc.Exited? && connected ==> Settled(Now(), pc.exit))
    }

    lemma ValidIsSafe()
      requires Valid()
      ensures CreditIsSafe()
    {
      hide Held, InFlight, OwnedSum, Settled, ReturnedOnce;
      CoreReturnsOnce(Now());
      if pc.Exited? && connected { CoreIsSettled(Now()); }
      CoreConserves(Now());
    }

    constructor ()
      ensures Now() == Initial && Valid()
    {
      hide Inv;
      native, eventTask, fetched, pending, queue, owned, acks, lastId := [], NoTask, 0, 0, [], [], [], 0;
      metadata, app, responded, uploadEof, terminal, connected := false, NotStarted, false, false, None, true;
      peerGone, endTaken, received, returned, lost, discarded, pc := false, false, 0, [], 0, 0, Top;
      new;
      InitialInv();
    }

    // ------------------------------------------------------------ credits

    method MarkTerminal(kind: Terminal)
      modifies this
      ensures Now() == Mark(old(Now()), kind)
    {
      if terminal.None? { terminal := Some(kind); }
    }

    /** Records a credit; an empty one gets no identity. */
    method OwnCredit(amount: nat) returns (id: Option<nat>)
      modifies this
      ensures Now() == Own(old(Now()), amount)
      ensures id == if amount == 0 then None else Some(old(lastId) + 1)
    {
      if amount == 0 { return None; }
      lastId := lastId + 1;
      owned := owned + [Credit(lastId, amount)];
      id := Some(lastId);
    }

    /** Takes the credit out of the owned ones and starts its return. */
    method StartReturning(id: nat)
      modifies this
      ensures Now() == StartReturn(old(Now()), id)
    {
      var amount := AmountOf(owned, id);
      owned := DropOwned(owned, id);
      acks := acks + [Ack(id, amount, Unsent)];
    }

    method DiscardOwned(id: nat)
      modifies this
      ensures Now() == Discard(old(Now()), id)
    {
      discarded := discarded + AmountOf(owned, id);
      owned := DropOwned(owned, id);
    }

    /** A receive call whose acknowledgement is over goes on. */
    method ReceiverGoesOn(id: nat)
      requires Valid()
      modifies this
      ensures Now() == Join(old(Now()), id)
      ensures Valid() && CreditIsSafe() && returned == old(returned) && received == old(received)
    {
      hide Inv, CreditIsSafe, Join;
      ReceiverJoinsKeepsInv(Now(), id);
      JoinIsStep(Now(), id);
      JoinReturnsNone(Now(), id);
      JoinAck(id);
      ValidIsSafe();
    }

    /** The awaiter of a finished task sees its result and removes it. */
    method JoinAck(id: nat)
      modifies this
      ensures Now() == Join(old(Now()), id)
    {
      var found := FindAck(acks, id);
      if found.None? || !found.value.phase.Done? { return; }
      match found.value.phase.result {
        case Fine =>
        case StreamClosed => MarkTerminal(ByReset);
        case Broken => MarkTerminal(ByConnection);
      }
      acks := DropAck(acks, id);
    }

    // ------------------------------------------------------------ the application's side

    /** One turn of the application's receive, up to its await. */
    method ReceiveOnce() returns (returning: Option<nat>)
      requires Valid()
      modifies this
      ensures Now() == Step(old(Now()), Receive)
      ensures returning.Some? ==> returning.value == lastId && lastId == old(lastId) + 1
      ensures Valid() && CreditIsSafe() && returned == old(returned) && received == old(received)
    {
      hide Inv, CreditIsSafe;
      ReceiveKeepsInv(Now());
      returning := TakeQueued();
      ValidIsSafe();
    }

    method TakeQueued() returns (returning: Option<nat>)
      modifies this
      ensures Now() == Step(old(Now()), Receive)
      ensures returning.Some? ==> returning.value == lastId && lastId == old(lastId) + 1
      ensures returned == old(returned) && received == old(received)
    {
      returning := None;
      if terminal.Some? || responded || queue == [] || !metadata { return; }
      var credit := queue[0];
      queue := queue[1..];
      if credit > 0 {
        returning := OwnCredit(credit);
        StartReturning(lastId);
      }
    }

    // ------------------------------------------------------------ the dispatcher

    method Settling(k: After)
      modifies this
      ensures Now() == old(Now()).(pc := Settle(AckIds(old(acks)), k))
    {
      pc := Settle(AckIds(acks), k);
    }

    method Leaving(exit: Exit)
      modifies this
      ensures Now() == Exiting(old(Now()), exit)
    {
      Settling(Leave(exit));
    }

    method AfterStarting(ended: bool)
      modifies this
      ensures Now() == AfterStart(old(Now()), ended)
    {
      if !ended { pc := Top; }
      else if app.NotStarted? { Leaving(Raised); }
      else {
        uploadEof := true;
        if !app.Finished? { queue := queue + [0]; }
        pc := Top;
      }
    }

    method TryStartApp(ended: bool, c: Choice)
      modifies this
      ensures Now() == TryStart(old(Now()), ended, c)
    {
      hide AfterStart, Own, StartReturn, Exiting;
      if metadata || c.parse.Incomplete? { AfterStarting(ended); }
      else if c.parse.Invalid? { Leaving(Rejected); }
      else if c.parse.Unreadable? { Leaving(Raised); }
      else { hide TryStart; StartApp(ended, c); }
    }

    /** The metadata is complete. */
    method StartApp(ended: bool, c: Choice)
      requires !metadata && c.parse.Complete?
      modifies this
      ensures Now() == TryStart(old(Now()), ended, c)
    {
      hide AfterStart, Own, StartReturn, Exiting;
      if c.parse.remainder {
        StartWithBody(ended);
      } else if pending == 0 {
        metadata, app := true, Running;
        AfterStarting(ended);
      } else {
        StartAfterReturning(ended);
      }
    }

    /** Body bytes behind the metadata carry the credit held so far. */
    method StartWithBody(ended: bool)
      modifies this
      ensures var s := old(Now());
              Now() == AfterStart(s.(metadata := true, queue := s.queue + [s.pending], pending := 0, app := Running), ended)
    {
      hide AfterStart;
      queue := queue + [pending];
      metadata, pending, app := true, 0, Running;
      AfterStarting(ended);
    }

    method StartAfterReturning(ended: bool)
      requires pending > 0
      modifies this
      ensures var s := old(Now());
              && Now() == StartReturn(Own(s.(metadata := true, pending := 0), s.pending), s.lastId + 1).(pc := StartAck(s.lastId + 1, ended))
              && Own(s.(metadata := true, pending := 0), s.pending).lastId == s.lastId + 1
    {
      hide Own, StartReturn;
      var credit := pending;
      metadata, pending := true, 0;
      ReturnAtOnce(credit);
      pc := StartAck(lastId, ended);
    }

    method Handling(event: Option<Event>, c: Choice)
      modifies this
      ensures Now() == HandleEvent(old(Now()), event, c)
    {
      hide TryStart, Own, StartReturn, Exiting;
      if terminal.Some? { pc := Top; return; }
      match event {
        case None =>
          if uploadEof && app.Finished? { Leaving(Completed); } else { pc := Top; }
        case Some(Failure) => MarkTerminal(ByConnection); pc := Top;
        case Some(Reset) => MarkTerminal(ByReset); pc := Top;
        case Some(Other) => pc := Top;
        case Some(Ended) => if uploadEof { pc := Top; } else { TryStartApp(true, c); }
        case Some(Data(_)) => HandlingData(event.value, c);
      }
    }

    method HandlingData(event: Event, c: Choice)
      requires event.Data? && terminal.None?
      modifies this
      ensures Now() == HandleEvent(old(Now()), Some(event), c)
    {
      hide TryStart, Own, StartReturn;
      var credit := fetched;
      fetched := 0;
      if !metadata {
        pending := pending + credit;
        TryStartApp(false, c);
      } else if !app.Finished? {
        queue := queue + [credit];
        pc := Top;
      } else {
        AcknowledgeUnread(credit);
      }
    }

    /** Data nobody will read is acknowledged at once. */
    method AcknowledgeUnread(credit: nat)
      modifies this
      ensures Now() == if credit == 0 then old(Now()).(pc := Top)
                       else StartReturn(Own(old(Now()), credit), old(lastId) + 1).(pc := DirectAck(old(lastId) + 1))
      ensures credit > 0 ==> Own(old(Now()), credit).lastId == old(lastId) + 1
    {
      hide Own, StartReturn;
      if credit > 0 {
        ReturnAtOnce(credit);
        pc := DirectAck(lastId);
      } else {
        pc := Top;
      }
    }

    /** Records a credit and starts its return. */
    method ReturnAtOnce(amount: nat)
      requires amount > 0
      modifies this
      ensures Now() == StartReturn(Own(old(Now()), amount), old(lastId) + 1)
      ensures lastId == old(lastId) + 1 && Own(old(Now()), amount).lastId == lastId
    {
      var id := OwnCredit(amount);
      hide Own;
      StartReturning(lastId);
    }

    /** Records a credit only to drop it. */
    method DropAtOnce(amount: nat)
      requires amount > 0
      modifies this
      ensures Now() == Discard(Own(old(Now()), amount), old(lastId) + 1) && Own(old(Now()), amount).lastId == old(lastId) + 1
    {
      var id := OwnCredit(amount);
      hide Own;
      DiscardOwned(lastId);
    }

    /** One turn of the loop over the events queued for the application. */
    method DrainQueued(k: After)
      modifies this
      ensures Now() == DrainOne(old(Now()), k)
    {
      if queue == [] { pc := DrainPending(k); return; }
      hide Own, StartReturn, Discard;
      var may := connected && (terminal.None? || terminal.value.ByReset?);
      var credit := queue[0];
      queue := queue[1..];
      if credit > 0 {
        if may {
          ReturnAtOnce(credit);
          pc := DrainAck(lastId, k);
        } else {
          DropAtOnce(credit);
        }
      } else { OwnNothing(Now()); }
    }

    method DrainPendingCredit(k: After)
      modifies this
      ensures Now() == DrainRest(old(Now()), k)
    {
      hide Own, StartReturn, Discard, AckIds, DrainRest;
      if pending == 0 { NothingPending(k); }
      else if connected && (terminal.None? || terminal.value.ByReset?) { ReturnPending(k); }
      else { DropPending(k); }
    }

    method NothingPending(k: After)
      requires pending == 0
      modifies this
      ensures Now() == DrainRest(old(Now()), k)
    {
      hide AckIds;
      Settling(k);
    }

    method ReturnPending(k: After)
      requires pending > 0 && MayReturn(Now())
      modifies this
      ensures Now() == DrainRest(old(Now()), k)
    {
      hide Own, StartReturn, Discard, AckIds;
      var credit := pending;
      pending := 0;
      ReturnAtOnce(credit);
      pc := PendingAck(lastId, k);
    }

    method DropPending(k: After)
      requires pending > 0 && !MayReturn(Now())
      modifies this
      ensures Now() == DrainRest(old(Now()), k)
    {
      hide Own, StartReturn, Discard, AckIds;
      var credit := pending;
      pending := 0;
      DropAtOnce(credit);
      Settling(k);
    }

    /** Every event still queued on the stream gives its credit to the owned ones. */
    method CollectQueued()
      modifies this
      ensures Now() == CollectQueue(old(Now()))
    {
      ghost var goal := OwnAll(Now().(native := [], fetched := 0), native);
      var credit := fetched;
      fetched := 0;
      while native != []
        invariant OwnAll(Now().(native := []), native) == goal
        decreases |native|
      {
        CollectHead();
      }
      OwnCreditOnly(credit);
      pc := Drain(FromCollect);
    }

    method CollectHead()
      requires native != []
      modifies this
      ensures native == old(native)[1..]
      ensures OwnAll(Now().(native := []), native) == OwnAll(old(Now()).(native := []), old(native))
    {
      var event := native[0];
      native := native[1..];
      ghost var before := Now();
      OwnElsewhere(before, CreditOf(event));
      hide Own;
      OwnCreditOnly(CreditOf(event));
    }

    method OwnCreditOnly(amount: nat)
      modifies this
      ensures Now() == Own(old(Now()), amount)
    {
      var _ := OwnCredit(amount);
    }

    method ReturnNextOwned(ids: seq<nat>)
      modifies this
      ensures Now() == ReturnNext(old(Now()), ids)
    {
      if ids == [] { Settling(Last); return; }
      var found := false;
      var i := 0;
      while i < |owned| && !found
        invariant 0 <= i <= |owned|
        invariant found ==> HasOwned(owned, ids[0])
        invariant !found ==> forall j :: 0 <= j < i ==> owned[j].id != ids[0]
        invariant Now() == old(Now())
      {
        found := owned[i].id == ids[0];
        i := i + 1;
      }
      if found {
        StartReturning(ids[0]);
        pc := OwnedAck(ids[0], ids[1..]);
      } else {
        pc := ReturnOwned(ids[1..]);
      }
    }

    /** Credit that may not be returned is forgotten. */
    method ForgetOwned()
      modifies this
      ensures Now() == old(Now()).(discarded := old(discarded) + OwnedSum(old(owned)), owned := [])
    {
      while owned != []
        invariant Now() == old(Now()).(discarded := discarded, owned := owned)
        invariant discarded + OwnedSum(owned) == old(discarded) + OwnedSum(old(owned))
        decreases |owned|
      {
        discarded := discarded + owned[0].amount;
        owned := owned[1..];
      }
    }

    // ------------------------------------------------------------ one turn of the dispatcher

    method StartWait()
      modifies this
      ensures Now() == StartWaiting(old(Now()))
    {
      if eventTask.NoTask? { eventTask := Getting; }
      pc := Waiting(app.Running?);
    }

    method TopOfLoop(c: Choice)
      modifies this
      ensures Now() == AtTop(old(Now()), c)
    {
      hide Exiting, StartWaiting;
      if terminal.Some? { pc := Collect; }
      else if uploadEof && app.NotStarted? { Leaving(Raised); }
      else if app.Finished? && !eventTask.Got? {
        if c.appRaises { Leaving(Raised); } else { pc := Drain(FromTop); }
      }
      else { StartWait(); }
    }

    method TakeFetched()
      requires eventTask.Got?
      modifies this
      ensures var s := old(Now());
              var e := s.eventTask.event;
              Now() == s.(eventTask := NoTask, fetched := CreditOf(e), endTaken := s.endTaken || Closes(e))
    {
      var e := eventTask.event;
      eventTask, fetched, endTaken := NoTask, CreditOf(e), endTaken || Closes(e);
    }

    method WakeUp(forApp: bool, c: Choice)
      modifies this
      ensures Now() == Woken(old(Now()), forApp, c)
    {
      hide Exiting, Woken;
      if c.seesTerminal && terminal.Some? { GoToTop(forApp, c); }
      else if eventTask.Got? { WakeWithEvent(forApp, c); }
      else { WakeWithoutEvent(forApp, c); }
    }

    method GoToTop(forApp: bool, c: Choice)
      requires c.seesTerminal && terminal.Some?
      modifies this
      ensures Now() == Woken(old(Now()), forApp, c)
    {
      pc := Top;
    }

    method WakeWithEvent(forApp: bool, c: Choice)
      requires !(c.seesTerminal && terminal.Some?) && eventTask.Got?
      modifies this
      ensures Now() == Woken(old(Now()), forApp, c)
    {
      hide Exiting;
      var event := eventTask.event;
      TakeFetched();
      if !(forApp && app.Finished?) { pc := Handle(Some(event)); }
      else if c.appRaises { Leaving(Raised); }
      else { pc := Drain(FromWait(Some(event))); }
    }

    method WakeWithoutEvent(forApp: bool, c: Choice)
      requires !(c.seesTerminal && terminal.Some?) && !eventTask.Got?
      modifies this
      ensures Now() == Woken(old(Now()), forApp, c)
    {
      hide Exiting;
      if forApp && app.Finished? {
        if c.appRaises { Leaving(Raised); } else { pc := Drain(FromWait(None)); }
      }
    }

    method Resuming(k: After)
      modifies this
      ensures Now() == Resume(old(Now()), k)
    {
      hide Exiting, StartWaiting, AckIds, OwnedIds;
      match k {
        case FromTop =>
          if terminal.Some? { pc := Collect; }
          else if uploadEof { Leaving(Completed); }
          else { StartWait(); }
        case FromWait(e) => pc := Handle(e);
        case FromCollect => ReturnOrForget();
        case Last => Leaving(Terminated);
        case Leave(exit) => pc := Exited(exit);
      }
    }

    /** The end of `collect_transport_credits`. */
    method ReturnOrForget()
      modifies this
      ensures Now() == Resume(old(Now()), FromCollect)
    {
      hide AckIds, OwnedIds, OwnedSum;
      if terminal == Some(ByReset) && connected {
        pc := ReturnOwned(OwnedIds(owned));
      } else {
        ForgetOwned();
        pc := Settle(AckIds(acks), Last);
      }
    }

    method CollectFetching()
      modifies this
      ensures Now() == CollectTask(old(Now()))
    {
      hide Own;
      if eventTask.Getting? { pc := CollectCancel; }
      else if eventTask.NoTask? { pc := CollectNative; }
      else { hide CollectTask; CollectGot(); }
    }

    method CollectGot()
      requires eventTask.Got?
      modifies this
      ensures Now() == CollectTask(old(Now()))
    {
      var credit := CreditOf(eventTask.event);
      eventTask := NoTask;
      OwnThenGoOn(credit);
    }

    method OwnThenGoOn(amount: nat)
      modifies this
      ensures Now() == Own(old(Now()), amount).(pc := CollectNative)
    {
      OwnCreditOnly(amount);
      hide Own;
      pc := CollectNative;
    }

    /** The cancelled task may still have taken an event. */
    method CollectAfterCancel(c: Choice)
      modifies this
      ensures Now() == CollectCancelled(old(Now()), c)
    {
      hide Own;
      if c.consumed && native != [] { hide CollectCancelled; CollectConsumed(c); }
      else { eventTask, pc := NoTask, CollectNative; }
    }

    method CollectConsumed(c: Choice)
      requires c.consumed && native != []
      modifies this
      ensures Now() == CollectCancelled(old(Now()), c)
    {
      var credit := CreditOf(native[0]);
      eventTask, native := NoTask, native[1..];
      OwnThenGoOn(credit);
    }

    method AfterOwnedAck(ids: seq<nat>)
      modifies this
      ensures Now() == AfterOwned(old(Now()), ids)
    {
      if terminal == Some(ByConnection) { Settling(Last); } else { pc := ReturnOwned(ids); }
    }

    /** Whatever the dispatcher awaited is there; it goes on to its next await. */
    method AfterAck(c: Choice)
      requires pc.StartAck? || pc.DirectAck? || pc.DrainAck? || pc.PendingAck? || pc.OwnedAck?
      modifies this
      ensures Now() == Main(old(Now()), c)
    {
      hide Join, AfterStart, AfterOwned, AckIds, FindAck;
      var at := pc;
      var over := FindAck(acks, at.id).None? || FindAck(acks, at.id).value.phase.Done?;
      if !over { return; }
      JoinAck(at.id);
      match at {
        case StartAck(_, ended) => app := Running; AfterStarting(ended);
        case DirectAck(_) => pc := Top;
        case DrainAck(_, k) => pc := Drain(k);
        case PendingAck(_, k) => Settling(k);
        case OwnedAck(_, ids) => AfterOwnedAck(ids);
      }
    }

    method SettleNext(ids: seq<nat>, k: After, c: Choice)
      requires pc == Settle(ids, k)
      modifies this
      ensures Now() == Main(old(Now()), c)
    {
      hide Join, Resume;
      if ids == [] { Resuming(k); return; }
      var over := FindAck(acks, ids[0]).None? || FindAck(acks, ids[0]).value.phase.Done?;
      if !over { return; }
      JoinAck(ids[0]);
      pc := Settle(ids[1..], k);
    }

    /** One step of the dispatcher, wherever it stands. */
    method Turn(c: Choice)
      requires Valid()
      modifies this
      ensures Now() == Main(old(Now()), c)
      ensures Valid() && CreditIsSafe()
      ensures Rejecting(pc) <==> Rejecting(old(pc)) || Refuses(old(Now()), Dispatcher(c))
    {
      hide Inv, CreditIsSafe, Main, Rejecting, Refuses;
      MainKeepsInv(Now(), c);
      DispatcherRefuses(Now(), c);
      GoOn(c);
      ValidIsSafe();
    }

    method GoOn(c: Choice)
      modifies this
      ensures Now() == Main(old(Now()), c)
    {
      hide AtTop, Woken, HandleEvent, AfterStart, Join, AckOver, DrainOne, DrainRest, Resume;
      hide CollectTask, CollectCancelled, CollectQueue, ReturnNext, AfterOwned, AckIds;
      match pc {
        case Top => TopOfLoop(c);
        case Waiting(forApp) => WakeUp(forApp, c);
        case Handle(event) => Handling(event, c);
        case Drain(k) => DrainQueued(k);
        case DrainPending(k) => DrainPendingCredit(k);
        case Settle(ids, k) => SettleNext(ids, k, c);
        case Collect => CollectFetching();
        case CollectCancel => CollectAfterCancel(c);
        case CollectNative => CollectQueued();
        case ReturnOwned(ids) => ReturnNextOwned(ids);
        case Exited(_) =>
        case _ => AfterAck(c);
      }
    }
  }
}
