// Flow-control credit in the Python Guest's dispatch of one leased HTTP request: the
// dispatcher, the application's receive calls and the acknowledgement tasks move each
// received credit from place to place until it is returned to the peer or dropped.
//
// The dispatcher is cut into steps at least as fine as its awaits, so every schedule of
// the event loop is a run of the model. This file has the steps and the invariant that
// each of them keeps; what it means for whole runs is in CreditRuns.dfy.

module Credits {
  import opened Prelude

  // ---------------------------------------------------------------- state

  datatype Event = Data(credit: nat) | Ended | Reset | Failure | Other

  datatype EventTask = NoTask | Getting | Got(event: Event)

  datatype Credit = Credit(id: nat, amount: nat)

  datatype AckPhase = Unsent | Sent | Done(result: AckResult)

  datatype AckResult = Fine | StreamClosed | Broken

  /** A task returning one credit to the peer. */
  datatype Ack = Ack(id: nat, amount: nat, phase: AckPhase)

  datatype App = NotStarted | Running | Finished

  datatype Terminal = ByReset | ByConnection | ByShutdown

  datatype Exit = Completed | Terminated | Rejected | Raised | Cancelled

  /** What follows `acknowledge_queued_data` or `settle_inflight_credit_acks`. */
  datatype After = FromTop | FromWait(event: Option<Event>) | FromCollect | Last | Leave(exit: Exit)

  /** Where the dispatcher stands. */
  datatype Pc =
    | Top
    | Waiting(forApp: bool)
    | Handle(event: Option<Event>)
    | StartAck(id: nat, ended: bool)
    | DirectAck(id: nat)
    | Drain(k: After)
    | DrainAck(id: nat, k: After)
    | DrainPending(k: After)
    | PendingAck(id: nat, k: After)
    | Settle(ids: seq<nat>, k: After)
    | Collect
    | CollectCancel
    | CollectNative
    | ReturnOwned(ids: seq<nat>)
    | OwnedAck(id: nat, ids: seq<nat>)
    | Exited(exit: Exit)

  datatype State = State(
    native: seq<Event>,          // the stream's event queue
    eventTask: EventTask,        // whoever takes the next event
    fetched: nat,                // credit of the event in hand
    pending: nat,                // credit of the bytes that may hold metadata
    queue: seq<nat>,             // credits of the events queued for the application
    owned: seq<Credit>,          // owned_credits, in insertion order
    acks: seq<Ack>,              // credit_ack_tasks, in insertion order
    lastId: nat,
    metadata: bool,
    app: App,
    responded: bool,
    uploadEof: bool,
    terminal: Option<Terminal>,
    connected: bool,             // the HTTP/2 connection object is still there
    peerGone: bool,              // the peer ended or reset the stream
    endTaken: bool,              // the dispatcher took an end or reset from the queue
    received: nat,
    returned: seq<Credit>,       // the acknowledgements the HTTP/2 layer accepted
    lost: nat,                   // credit whose acknowledgement was refused
    discarded: nat,              // credit dropped on purpose
    pc: Pc)

  const Initial := State([], NoTask, 0, 0, [], [], [], 0, false, NotStarted, false, false,
                         None, true, false, false, 0, [], 0, 0, Top)

  // ---------------------------------------------------------------- small pieces

  function CreditOf(e: Event): nat {
    if e.Data? then e.credit else 0
  }

  predicate Closes(e: Event) {
    e.Ended? || e.Reset?
  }

  predicate HasOwned(owned: seq<Credit>, id: nat) {
    exists i :: 0 <= i < |owned| && owned[i].id == id
  }

  function AmountOf(owned: seq<Credit>, id: nat): nat {
    if owned == [] then 0 else if owned[0].id == id then owned[0].amount else AmountOf(owned[1..], id)
  }

  function DropOwned(owned: seq<Credit>, id: nat): seq<Credit> {
    if owned == [] then [] else if owned[0].id == id then owned[1..] else [owned[0]] + DropOwned(owned[1..], id)
  }

  function FindAck(acks: seq<Ack>, id: nat): Option<Ack> {
    if acks == [] then None else if acks[0].id == id then Some(acks[0]) else FindAck(acks[1..], id)
  }

  function DropAck(acks: seq<Ack>, id: nat): seq<Ack> {
    if acks == [] then [] else if acks[0].id == id then acks[1..] else [acks[0]] + DropAck(acks[1..], id)
  }

  function MoveAck(acks: seq<Ack>, id: nat, phase: AckPhase): seq<Ack> {
    if acks == [] then []
    else if acks[0].id == id then [acks[0].(phase := phase)] + acks[1..]
    else [acks[0]] + MoveAck(acks[1..], id, phase)
  }

  function AckIds(acks: seq<Ack>): seq<nat> {
    if acks == [] then [] else [acks[0].id] + AckIds(acks[1..])
  }

  function OwnedIds(owned: seq<Credit>): seq<nat> {
    if owned == [] then [] else [owned[0].id] + OwnedIds(owned[1..])
  }

  /** The first reason to stop is the one that stays. */
  function Mark(s: State, t: Terminal): State {
    if s.terminal.None? then s.(terminal := Some(t)) else s
  }

  /** `own_credit`: nothing is recorded for an empty credit. */
  function Own(s: State, amount: nat): State {
    if amount == 0 then s else s.(lastId := s.lastId + 1, owned := s.owned + [Credit(s.lastId + 1, amount)])
  }

  /** The synchronous start of `return_owned_credit`: the credit moves from the owned ones to a new task. */
  function StartReturn(s: State, id: nat): State {
    s.(owned := DropOwned(s.owned, id), acks := s.acks + [Ack(id, AmountOf(s.owned, id), Unsent)])
  }

  /** An owned credit is dropped instead of returned. */
  function Discard(s: State, id: nat): State {
    s.(owned := DropOwned(s.owned, id), discarded := s.discarded + AmountOf(s.owned, id))
  }

  predicate AckOver(s: State, id: nat) {
    FindAck(s.acks, id).None? || FindAck(s.acks, id).value.phase.Done?
  }

  /** Whoever awaited a finished task sees its result and takes it out of the registry. */
  function Join(s: State, id: nat): State {
    var a := FindAck(s.acks, id);
    if a.None? || !a.value.phase.Done? then s
    else
      var s1 := match a.value.phase.result
                case Fine => s
                case StreamClosed => Mark(s, ByReset)
                case Broken => Mark(s, ByConnection);
      s1.(acks := DropAck(s.acks, id))
  }

  /** Credit may be returned: the connection is there and nothing but a reset has stopped the request. */
  predicate MayReturn(s: State) {
    s.connected && (s.terminal.None? || s.terminal.value.ByReset?)
  }

  // ---------------------------------------------------------------- the dispatcher

  /** What the environment decides for one step of the dispatcher. */
  datatype Parse = Incomplete | Invalid | Unreadable | Complete(remainder: bool)
  datatype Choice = Choice(parse: Parse, seesTerminal: bool, consumed: bool, appRaises: bool)

  function Exiting(s: State, exit: Exit): State {
    s.(pc := Settle(AckIds(s.acks), Leave(exit)))
  }

  function AtTop(s: State, c: Choice): State {
    if s.terminal.Some? then s.(pc := Collect)
    else if s.uploadEof && s.app.NotStarted? then Exiting(s, Raised)
    else if s.app.Finished? && !s.eventTask.Got? then
      if c.appRaises then Exiting(s, Raised) else s.(pc := Drain(FromTop))
    else StartWaiting(s)
  }

  function StartWaiting(s: State): State {
    s.(eventTask := if s.eventTask.NoTask? then Getting else s.eventTask, pc := Waiting(s.app.Running?))
  }

  function Woken(s: State, forApp: bool, c: Choice): State {
    if c.seesTerminal && s.terminal.Some? then s.(pc := Top)
    else
      var appDone := forApp && s.app.Finished?;
      if s.eventTask.Got? then
        var e := s.eventTask.event;
        var s1 := s.(eventTask := NoTask, fetched := CreditOf(e), endTaken := s.endTaken || Closes(e));
        if !appDone then s1.(pc := Handle(Some(e)))
        else if c.appRaises then Exiting(s1, Raised)
        else s1.(pc := Drain(FromWait(Some(e))))
      else if !appDone then s
      else if c.appRaises then Exiting(s, Raised)
      else s.(pc := Drain(FromWait(None)))
  }

  function HandleEvent(s: State, event: Option<Event>, c: Choice): State {
    if s.terminal.Some? then s.(pc := Top)
    else
      match event
      case None => if s.uploadEof && s.app.Finished? then Exiting(s, Completed) else s.(pc := Top)
      case Some(Failure) => Mark(s, ByConnection).(pc := Top)
      case Some(Reset) => Mark(s, ByReset).(pc := Top)
      case Some(Other) => s.(pc := Top)
      case Some(Ended) => if s.uploadEof then s.(pc := Top) else TryStart(s, true, c)
      case Some(Data(_)) =>
        if !s.metadata then TryStart(s.(pending := s.pending + s.fetched, fetched := 0), false, c)
        else if !s.app.Finished? then s.(queue := s.queue + [s.fetched], fetched := 0, pc := Top)
        else if s.fetched == 0 then s.(pc := Top)
        else
          var s1 := Own(s.(fetched := 0), s.fetched);
          StartReturn(s1, s1.lastId).(pc := DirectAck(s1.lastId))
  }

  function TryStart(s: State, ended: bool, c: Choice): State {
    if s.metadata || c.parse.Incomplete? then AfterStart(s, ended)
    else
      match c.parse
      case Invalid => Exiting(s, Rejected)
      case Complete(true) =>
        AfterStart(s.(metadata := true, queue := s.queue + [s.pending], pending := 0, app := Running), ended)
      case Complete(false) =>
        if s.pending == 0 then AfterStart(s.(metadata := true, app := Running), ended)
        else
          var s1 := Own(s.(metadata := true, pending := 0), s.pending);
          StartReturn(s1, s1.lastId).(pc := StartAck(s1.lastId, ended))
      case _ => Exiting(s, Raised)
  }

  function AfterStart(s: State, ended: bool): State {
    if !ended then s.(pc := Top)
    else if s.app.NotStarted? then Exiting(s, Raised)
    else s.(uploadEof := true, queue := if s.app.Finished? then s.queue else s.queue + [0], pc := Top)
  }

  /** One turn of the loop that returns the credits queued for the application. */
  function DrainOne(s: State, k: After): State {
    if s.queue == [] then s.(pc := DrainPending(k))
    else
      var s1 := Own(s.(queue := s.queue[1..]), s.queue[0]);
      if s.queue[0] == 0 then s1
      else if MayReturn(s) then StartReturn(s1, s1.lastId).(pc := DrainAck(s1.lastId, k))
      else Discard(s1, s1.lastId)
  }

  function DrainRest(s: State, k: After): State {
    if s.pending == 0 then s.(pc := Settle(AckIds(s.acks), k))
    else
      var s1 := Own(s.(pending := 0), s.pending);
      if MayReturn(s) then StartReturn(s1, s1.lastId).(pc := PendingAck(s1.lastId, k))
      else var s2 := Discard(s1, s1.lastId); s2.(pc := Settle(AckIds(s2.acks), k))
  }

  function Resume(s: State, k: After): State {
    match k
    case FromTop =>
      if s.terminal.Some? then s.(pc := Collect)
      else if s.uploadEof then Exiting(s, Completed)
      else StartWaiting(s)
    case FromWait(e) => s.(pc := Handle(e))
    case FromCollect =>
      if s.terminal == Some(ByReset) && s.connected then s.(pc := ReturnOwned(OwnedIds(s.owned)))
      else s.(discarded := s.discarded + OwnedSum(s.owned), owned := [], pc := Settle(AckIds(s.acks), Last))
    case Last => Exiting(s, Terminated)
    case Leave(exit) => s.(pc := Exited(exit))
  }

  function OwnAll(s: State, events: seq<Event>): State
    decreases |events|
  {
    if events == [] then s else OwnAll(Own(s, CreditOf(events[0])), events[1..])
  }

  /** The parts of `collect_transport_credits`, cut at its awaits. */
  function CollectTask(s: State): State {
    if s.eventTask.Getting? then s.(pc := CollectCancel)
    else if s.eventTask.Got? then Own(s.(eventTask := NoTask), CreditOf(s.eventTask.event)).(pc := CollectNative)
    else s.(pc := CollectNative)
  }

  function CollectCancelled(s: State, c: Choice): State {
    if c.consumed && s.native != [] then
      Own(s.(eventTask := NoTask, native := s.native[1..]), CreditOf(s.native[0])).(pc := CollectNative)
    else s.(eventTask := NoTask, pc := CollectNative)
  }

  function CollectQueue(s: State): State {
    Own(OwnAll(s.(native := [], fetched := 0), s.native), s.fetched).(pc := Drain(FromCollect))
  }

  function ReturnNext(s: State, ids: seq<nat>): State {
    if ids == [] then s.(pc := Settle(AckIds(s.acks), Last))
    else if HasOwned(s.owned, ids[0]) then StartReturn(s, ids[0]).(pc := OwnedAck(ids[0], ids[1..]))
    else s.(pc := ReturnOwned(ids[1..]))
  }

  function AfterOwned(s: State, ids: seq<nat>): State {
    if s.terminal == Some(ByConnection) then s.(pc := Settle(AckIds(s.acks), Last)) else s.(pc := ReturnOwned(ids))
  }

  function Main(s: State, c: Choice): State {
    match s.pc
    case Top => AtTop(s, c)
    case Waiting(forApp) => Woken(s, forApp, c)
    case Handle(event) => HandleEvent(s, event, c)
    case StartAck(id, ended) => if AckOver(s, id) then AfterStart(Join(s, id).(app := Running), ended) else s
    case DirectAck(id) => if AckOver(s, id) then Join(s, id).(pc := Top) else s
    case Drain(k) => DrainOne(s, k)
    case DrainAck(id, k) => if AckOver(s, id) then Join(s, id).(pc := Drain(k)) else s
    case DrainPending(k) => DrainRest(s, k)
    case PendingAck(id, k) =>
      if AckOver(s, id) then var s1 := Join(s, id); s1.(pc := Settle(AckIds(s1.acks), k)) else s
    case Settle(ids, k) =>
      if ids == [] then Resume(s, k)
      else if AckOver(s, ids[0]) then Join(s, ids[0]).(pc := Settle(ids[1..], k))
      else s
    case Collect => CollectTask(s)
    case CollectCancel => CollectCancelled(s, c)
    case CollectNative => CollectQueue(s)
    case ReturnOwned(ids) => ReturnNext(s, ids)
    case OwnedAck(id, ids) => if AckOver(s, id) then AfterOwned(Join(s, id), ids) else s
    case Exited(_) => s
  }

  // ---------------------------------------------------------------- everybody else

  datatype Action =
    | Arrive(event: Event)           // the read loop queues an event of the stream
    | Disconnect                     // the connection object goes away
    | TakeEvent                      // the event task gets the next event
    | AckAccepted(id: nat)           // the HTTP/2 layer accepts an acknowledgement
    | AckFlushed(id: nat, ok: bool)  // and its bytes are written, or not
    | AckRefused(id: nat, closed: bool)
    | Receive                        // the application receives a queued event
    | ReceiverJoins(id: nat)         // a receive call awaiting an acknowledgement goes on
    | Responded                      // the application's response is complete
    | AppEnds
    | SendFails(closed: bool)        // the application's send fails
    | Cancel                         // the dispatcher is cancelled while it waits
    | Dispatcher(choice: Choice)

  function Step(s: State, a: Action): State {
    match a
    case Arrive(e) =>
      if s.peerGone && (e.Data? || e.Ended?) then s
      else s.(native := s.native + [e], received := s.received + CreditOf(e), peerGone := s.peerGone || Closes(e))
    case Disconnect => s.(connected := false)
    case TakeEvent =>
      if s.eventTask.Getting? && s.native != [] && !s.pc.CollectCancel? && !s.pc.Exited? then
        s.(eventTask := Got(s.native[0]), native := s.native[1..])
      else s
    case AckAccepted(id) =>
      var a := FindAck(s.acks, id);
      if a.Some? && a.value.phase.Unsent? && s.connected then
        s.(acks := MoveAck(s.acks, id, Sent), returned := s.returned + [Credit(id, a.value.amount)])
      else s
    case AckFlushed(id, ok) =>
      var a := FindAck(s.acks, id);
      if a.Some? && a.value.phase.Sent? then s.(acks := MoveAck(s.acks, id, Done(if ok then Fine else Broken))) else s
    case AckRefused(id, closed) =>
      var a := FindAck(s.acks, id);
      if a.Some? && a.value.phase.Unsent? && (closed ==> s.peerGone) then
        s.(acks := MoveAck(s.acks, id, Done(if closed then StreamClosed else Broken)), lost := s.lost + a.value.amount)
      else s
    case Receive =>
      if s.terminal.Some? || s.responded || s.queue == [] || !s.metadata then s
      else if s.queue[0] == 0 then s.(queue := s.queue[1..])
      else
        var s1 := Own(s.(queue := s.queue[1..]), s.queue[0]);
        StartReturn(s1, s1.lastId)
    case ReceiverJoins(id) => Join(s, id)
    case Responded => s.(responded := true)
    case AppEnds => if s.app.Running? then s.(app := Finished) else s
    case SendFails(closed) => if closed ==> s.peerGone then Mark(s, if closed then ByReset else ByConnection) else s
    case Cancel =>
      if s.pc.Exited? || (s.pc.Settle? && s.pc.k.Leave?) then s else Exiting(Mark(s, ByShutdown), Cancelled)
    case Dispatcher(c) => Main(s, c)
  }

  // ---------------------------------------------------------------- sums

  function EventSum(events: seq<Event>): nat {
    if events == [] then 0 else CreditOf(events[0]) + EventSum(events[1..])
  }

  function Sum(amounts: seq<nat>): nat {
    if amounts == [] then 0 else amounts[0] + Sum(amounts[1..])
  }

  function OwnedSum(owned: seq<Credit>): nat {
    if owned == [] then 0 else owned[0].amount + OwnedSum(owned[1..])
  }

  /** Credit whose acknowledgement the HTTP/2 layer has neither accepted nor refused. */
  function InFlight(acks: seq<Ack>): nat {
    if acks == [] then 0 else (if acks[0].phase.Unsent? then acks[0].amount else 0) + InFlight(acks[1..])
  }

  function InTask(t: EventTask): nat {
    if t.Got? then CreditOf(t.event) else 0
  }

  /** Credit that sits in one of the dispatcher's places. */
  function Held(s: State): nat {
    EventSum(s.native) + InTask(s.eventTask) + s.fetched + s.pending + Sum(s.queue) + OwnedSum(s.owned)
  }

  function Total(s: State): nat {
    Held(s) + InFlight(s.acks) + OwnedSum(s.returned) + s.lost + s.discarded
  }

  // ---------------------------------------------------------------- identities

  function CountOwned(owned: seq<Credit>, id: nat): nat {
    if owned == [] then 0 else (if owned[0].id == id then 1 else 0) + CountOwned(owned[1..], id)
  }

  function CountUnsent(acks: seq<Ack>, id: nat): nat {
    if acks == [] then 0 else (if acks[0].id == id && acks[0].phase.Unsent? then 1 else 0) + CountUnsent(acks[1..], id)
  }

  function CountAcks(acks: seq<Ack>, id: nat): nat {
    if acks == [] then 0 else (if acks[0].id == id then 1 else 0) + CountAcks(acks[1..], id)
  }

  function Allowed(s: State, id: nat): nat {
    if id <= s.lastId then 1 else 0
  }

  /** A credit is in one place only, and the registry of tasks has one entry an identity. */
  ghost predicate OnePlace(s: State) {
    && (forall id: nat :: CountOwned(s.owned, id) + CountUnsent(s.acks, id) + CountOwned(s.returned, id) <= Allowed(s, id))
    && (forall id: nat :: CountOwned(s.owned, id) + CountAcks(s.acks, id) <= Allowed(s, id))
  }

  function Failed(acks: seq<Ack>): nat {
    if acks == [] then 0
    else (if acks[0].phase.Done? && !acks[0].phase.result.Fine? then 1 else 0) + Failed(acks[1..])
  }

  function ClosedAcks(acks: seq<Ack>): nat {
    if acks == [] then 0
    else (if acks[0].phase == Done(StreamClosed) then 1 else 0) + ClosedAcks(acks[1..])
  }

  // appending

  lemma {:induction false} OwnedAppend(owned: seq<Credit>, c: Credit)
    ensures OwnedSum(owned + [c]) == OwnedSum(owned) + c.amount
    ensures forall id: nat :: CountOwned(owned + [c], id) == CountOwned(owned, id) + (if c.id == id then 1 else 0)
    ensures CountOwned(owned, c.id) == 0 ==> DropOwned(owned + [c], c.id) == owned && AmountOf(owned + [c], c.id) == c.amount
  {
    if owned != [] {
      assert (owned + [c])[1..] == owned[1..] + [c];
      OwnedAppend(owned[1..], c);
    }
  }

  lemma {:induction false} AcksAppend(acks: seq<Ack>, a: Ack)
    requires a.phase.Unsent?
    ensures InFlight(acks + [a]) == InFlight(acks) + a.amount
    ensures forall id: nat :: CountUnsent(acks + [a], id) == CountUnsent(acks, id) + (if a.id == id then 1 else 0)
    ensures forall id: nat :: CountAcks(acks + [a], id) == CountAcks(acks, id) + (if a.id == id then 1 else 0)
    ensures Failed(acks + [a]) == Failed(acks) && ClosedAcks(acks + [a]) == ClosedAcks(acks)
  {
    if acks != [] {
      assert (acks + [a])[1..] == acks[1..] + [a];
      AcksAppend(acks[1..], a);
    }
  }

  lemma {:induction false} EventsAppend(events: seq<Event>, e: Event)
    ensures EventSum(events + [e]) == EventSum(events) + CreditOf(e)
  {
    if events != [] {
      assert (events + [e])[1..] == events[1..] + [e];
      EventsAppend(events[1..], e);
    }
  }

  lemma {:induction false} SumAppend(amounts: seq<nat>, n: nat)
    ensures Sum(amounts + [n]) == Sum(amounts) + n
  {
    if amounts != [] {
      assert (amounts + [n])[1..] == amounts[1..] + [n];
      SumAppend(amounts[1..], n);
    }
  }

  // taking out

  lemma {:induction false} OwnedDrop(owned: seq<Credit>, id: nat)
    requires HasOwned(owned, id)
    ensures OwnedSum(DropOwned(owned, id)) + AmountOf(owned, id) == OwnedSum(owned)
    ensures forall x: nat :: CountOwned(DropOwned(owned, id), x) + (if x == id then 1 else 0) == CountOwned(owned, x)
  {
    if owned[0].id != id {
      assert HasOwned(owned[1..], id) by { var i :| 0 <= i < |owned| && owned[i].id == id; assert owned[1..][i - 1].id == id; }
      OwnedDrop(owned[1..], id);
      var rest := DropOwned(owned[1..], id);
      assert DropOwned(owned, id)[1..] == rest;
    }
  }

  lemma {:induction false} AcksDrop(acks: seq<Ack>, id: nat)
    requires FindAck(acks, id).Some?
    ensures forall x: nat :: CountAcks(DropAck(acks, id), x) + (if x == id then 1 else 0) == CountAcks(acks, x)
    ensures FindAck(acks, id).value.phase.Done? ==> InFlight(DropAck(acks, id)) == InFlight(acks)
    ensures FindAck(acks, id).value.phase.Done? ==> forall x: nat :: CountUnsent(DropAck(acks, id), x) == CountUnsent(acks, x)
    ensures Failed(DropAck(acks, id)) <= Failed(acks) && ClosedAcks(DropAck(acks, id)) <= ClosedAcks(acks)
    ensures FindAck(acks, id).value.phase == Done(Fine) ==> Failed(DropAck(acks, id)) == Failed(acks)
    ensures FindAck(acks, id).value.phase == Done(StreamClosed) ==> ClosedAcks(acks) > 0
  {
    if acks[0].id != id {
      AcksDrop(acks[1..], id);
      assert DropAck(acks, id)[1..] == DropAck(acks[1..], id);
    }
  }

  function Weight(phase: AckPhase, amount: nat): nat {
    if phase.Unsent? then amount else 0
  }

  lemma {:induction false} AcksMove(acks: seq<Ack>, id: nat, phase: AckPhase)
    requires FindAck(acks, id).Some? && !phase.Unsent? && !FindAck(acks, id).value.phase.Done?
    ensures var a := FindAck(acks, id).value;
            InFlight(MoveAck(acks, id, phase)) + Weight(a.phase, a.amount) == InFlight(acks)
    ensures forall x: nat :: CountAcks(MoveAck(acks, id, phase), x) == CountAcks(acks, x)
    ensures forall x: nat :: CountUnsent(MoveAck(acks, id, phase), x)
                             + (if x == id && FindAck(acks, id).value.phase.Unsent? then 1 else 0) == CountUnsent(acks, x)
    ensures Failed(MoveAck(acks, id, phase)) == Failed(acks) + (if phase.Done? && !phase.result.Fine? then 1 else 0)
    ensures ClosedAcks(MoveAck(acks, id, phase)) == ClosedAcks(acks) + (if phase == Done(StreamClosed) then 1 else 0)
  {
    if acks[0].id != id {
      AcksMove(acks[1..], id, phase);
      assert MoveAck(acks, id, phase)[1..] == MoveAck(acks[1..], id, phase);
    }
  }

  // membership

  ghost predicate Within(acks: seq<Ack>, ids: seq<nat>) {
    forall i :: 0 <= i < |acks| ==> acks[i].id in ids
  }

  ghost predicate OwnedWithin(owned: seq<Credit>, ids: seq<nat>) {
    forall i :: 0 <= i < |owned| ==> owned[i].id in ids
  }

  lemma {:induction false} AckIdsCover(acks: seq<Ack>)
    ensures |AckIds(acks)| == |acks|
    ensures forall i :: 0 <= i < |acks| ==> AckIds(acks)[i] == acks[i].id
    ensures Within(acks, AckIds(acks))
  {
    if acks != [] { AckIdsCover(acks[1..]); }
  }

  lemma {:induction false} OwnedIdsCover(owned: seq<Credit>)
    ensures |OwnedIds(owned)| == |owned|
    ensures forall i :: 0 <= i < |owned| ==> OwnedIds(owned)[i] == owned[i].id
    ensures OwnedWithin(owned, OwnedIds(owned))
  {
    if owned != [] { OwnedIdsCover(owned[1..]); }
  }

  lemma {:induction false} NoAck(acks: seq<Ack>, id: nat)
    ensures CountAcks(acks, id) == 0 <==> FindAck(acks, id).None?
    ensures CountAcks(acks, id) == 0 <==> forall i :: 0 <= i < |acks| ==> acks[i].id != id
  {
    if acks != [] {
      NoAck(acks[1..], id);
      if CountAcks(acks, id) == 0 {
        forall i | 0 <= i < |acks| ensures acks[i].id != id {
          if i > 0 { assert acks[i] == acks[1..][i - 1]; }
        }
      }
    }
  }

  lemma {:induction false} NoOwned(owned: seq<Credit>, id: nat)
    ensures CountOwned(owned, id) == 0 <==> !HasOwned(owned, id)
  {
    if owned != [] {
      NoOwned(owned[1..], id);
      if HasOwned(owned, id) && owned[0].id != id {
        var i :| 0 <= i < |owned| && owned[i].id == id;
        assert owned[1..][i - 1].id == id;
      }
      if HasOwned(owned[1..], id) {
        var i :| 0 <= i < |owned| - 1 && owned[1..][i].id == id;
        assert owned[i + 1].id == id;
      }
    }
  }

  lemma {:induction false} DropAckFrom(acks: seq<Ack>, id: nat)
    ensures forall i :: 0 <= i < |DropAck(acks, id)| ==> DropAck(acks, id)[i] in acks
  {
    if acks != [] { DropAckFrom(acks[1..], id); }
  }

  lemma {:induction false} DropOwnedFrom(owned: seq<Credit>, id: nat)
    ensures forall i :: 0 <= i < |DropOwned(owned, id)| ==> DropOwned(owned, id)[i] in owned
  {
    if owned != [] { DropOwnedFrom(owned[1..], id); }
  }

  lemma {:induction false} MoveAckIds(acks: seq<Ack>, id: nat, phase: AckPhase)
    ensures |MoveAck(acks, id, phase)| == |acks|
    ensures forall i :: 0 <= i < |acks| ==> MoveAck(acks, id, phase)[i].id == acks[i].id
  {
    if acks != [] { MoveAckIds(acks[1..], id, phase); }
  }

  /** Joining the first of the awaited tasks leaves only the others in the registry. */
  lemma DropWithin(acks: seq<Ack>, ids: seq<nat>)
    requires ids != [] && Within(acks, ids) && CountAcks(acks, ids[0]) <= 1
    ensures Within(DropAck(acks, ids[0]), ids[1..])
  {
    var id := ids[0];
    var rest := DropAck(acks, id);
    NoAck(acks, id);
    NoAck(rest, id);
    DropAckFrom(acks, id);
    if FindAck(acks, id).Some? { AcksDrop(acks, id); }
    else { DropNothing(acks, id); }
    forall i | 0 <= i < |rest| ensures rest[i].id in ids[1..] {
      assert rest[i] in acks;
    }
  }

  lemma {:induction false} DropNothing(acks: seq<Ack>, id: nat)
    requires FindAck(acks, id).None?
    ensures DropAck(acks, id) == acks
  {
    if acks != [] { DropNothing(acks[1..], id); }
  }

  lemma DropOwnedWithin(owned: seq<Credit>, ids: seq<nat>)
    requires ids != [] && OwnedWithin(owned, ids) && CountOwned(owned, ids[0]) <= 1
    ensures HasOwned(owned, ids[0]) ==> OwnedWithin(DropOwned(owned, ids[0]), ids[1..])
    ensures !HasOwned(owned, ids[0]) ==> OwnedWithin(owned, ids[1..])
  {
    var id := ids[0];
    if HasOwned(owned, id) {
      var rest := DropOwned(owned, id);
      OwnedDrop(owned, id);
      NoOwned(rest, id);
      DropOwnedFrom(owned, id);
      forall i | 0 <= i < |rest| ensures rest[i].id in ids[1..] {
        assert rest[i] in owned;
      }
    }
  }

  // ---------------------------------------------------------------- invariant

  /** The events the dispatcher has not looked at yet. */
  function Rest(s: State): seq<Event> {
    (if s.eventTask.Got? then [s.eventTask.event] else []) + s.native
  }

  /** A reset or end is the last event of the stream that can carry credit. */
  ghost predicate Ordered(s: State) {
    && (forall i, j :: 0 <= i < j < |Rest(s)| && Closes(Rest(s)[i]) ==> CreditOf(Rest(s)[j]) == 0)
    && (!s.peerGone ==> forall i :: 0 <= i < |Rest(s)| ==> !Closes(Rest(s)[i]))
    && (s.endTaken ==> s.peerGone && forall i :: 0 <= i < |Rest(s)| ==> CreditOf(Rest(s)[i]) == 0)
  }

  predicate Ends(s: State) {
    && (s.uploadEof ==> s.endTaken)
    && (s.terminal == Some(ByReset) ==> s.peerGone)
    && (ClosedAcks(s.acks) > 0 ==> s.peerGone)
  }

  /** Credit goes missing only where something has failed. */
  predicate Losses(s: State) {
    && (s.lost > 0 ==> s.terminal.Some? || Failed(s.acks) > 0)
    && (s.discarded > 0 ==> !s.connected || (s.terminal.Some? && !s.terminal.value.ByReset?))
  }

  function CreditIn(event: Option<Event>): nat {
    if event.Some? then CreditOf(event.value) else 0
  }

  predicate ClosesIn(event: Option<Event>) {
    event.Some? && Closes(event.value)
  }

  /** Before the request is known, no credit has gone anywhere. */
  predicate Untouched(s: State) {
    s.queue == [] && s.owned == [] && s.acks == [] && s.returned == [] && s.lost == 0 && s.discarded == 0 && s.app.NotStarted?
  }

  predicate Collected(s: State) {
    && s.eventTask.NoTask? && s.fetched == 0 && s.terminal.Some?
    && (s.terminal.value.ByReset? ==> EventSum(s.native) == 0)
  }

  /** With the connection up, no credit was dropped. */
  predicate NoneDropped(s: State) {
    s.connected ==> s.discarded == 0
  }

  predicate Drained(s: State) {
    s.queue == [] && s.pending == 0
  }

  predicate InDrain(s: State, k: After) {
    match k
    case FromTop => s.owned == [] && s.fetched == 0 && s.metadata
    case FromWait(e) => s.owned == [] && s.fetched == CreditIn(e) && s.metadata && (ClosesIn(e) ==> s.endTaken)
    case FromCollect => Collected(s)
    case Last => Collected(s) && s.owned == []
    case Leave(_) => false
  }

  predicate Left(s: State, exit: Exit) {
    match exit
    case Completed =>
      && s.uploadEof && Drained(s) && s.owned == [] && s.acks == [] && s.fetched == 0
      && s.lost == 0 && (s.connected ==> s.discarded == 0)
    case Terminated => Collected(s) && Drained(s) && s.owned == [] && s.acks == []
    case Rejected => !s.metadata && Untouched(s) && s.fetched == 0
    case Raised => s.owned == [] && NoneDropped(s) && (!s.metadata ==> Untouched(s))
    case Cancelled => true
  }

  ghost predicate Placed(s: State) {
    match s.pc
    case Top => s.owned == [] && (s.terminal.None? ==> s.fetched == 0) && (!s.metadata ==> Untouched(s))
    case Waiting(_) => s.owned == [] && s.fetched == 0 && NoneDropped(s) && (!s.metadata ==> Untouched(s))
    case Handle(e) =>
      && s.owned == [] && s.fetched == CreditIn(e) && (ClosesIn(e) ==> s.endTaken) && (!s.metadata ==> Untouched(s))
      && (e.None? ==> Drained(s) && s.acks == [])
    case StartAck(_, ended) => s.owned == [] && s.fetched == 0 && s.metadata && (ended ==> s.endTaken)
    case DirectAck(_) => s.owned == [] && s.fetched == 0 && s.metadata
    case Drain(k) => InDrain(s, k)
    case DrainAck(_, k) => InDrain(s, k)
    case DrainPending(k) => InDrain(s, k) && s.queue == []
    case PendingAck(_, k) => InDrain(s, k) && Drained(s)
    case Settle(ids, k) => if k.Leave? then Left(s, k.exit) else InDrain(s, k) && Drained(s) && Within(s.acks, ids)
    case Collect => s.owned == [] && s.terminal.Some?
    case CollectCancel => s.owned == [] && s.terminal.Some? && s.eventTask.Getting?
    case CollectNative => s.terminal.Some? && s.eventTask.NoTask?
    case ReturnOwned(ids) => Collected(s) && s.terminal.value.ByReset? && Drained(s) && OwnedWithin(s.owned, ids)
    case OwnedAck(_, ids) => Collected(s) && s.terminal.value.ByReset? && Drained(s) && OwnedWithin(s.owned, ids)
    case Exited(exit) => Left(s, exit)
  }

  /** What holds wherever the dispatcher stands. */
  ghost predicate Core(s: State) {
    OnePlace(s) && Ordered(s) && Ends(s) && Losses(s) && s.received == Total(s)
  }

  ghost predicate Inv(s: State) {
    Core(s) && Placed(s)
  }

  // ---------------------------------------------------------------- the pieces keep it

  /** Recording a credit and starting its return at once only adds a task. */
  lemma FreshReturn(s: State, amount: nat)
    requires OnePlace(s) && amount > 0
    ensures StartReturn(Own(s, amount), s.lastId + 1)
         == s.(lastId := s.lastId + 1, acks := s.acks + [Ack(s.lastId + 1, amount, Unsent)])
  {
    OwnedAppend(s.owned, Credit(s.lastId + 1, amount));
  }

  lemma FreshDiscard(s: State, amount: nat)
    requires OnePlace(s) && amount > 0
    ensures Discard(Own(s, amount), s.lastId + 1) == s.(lastId := s.lastId + 1, discarded := s.discarded + amount)
  {
    OwnedAppend(s.owned, Credit(s.lastId + 1, amount));
  }

  /** What one more task does to the counts. */
  lemma AddTask(s: State, amount: nat)
    requires OnePlace(s)
    ensures var t := s.(lastId := s.lastId + 1, acks := s.acks + [Ack(s.lastId + 1, amount, Unsent)]);
            && OnePlace(t) && InFlight(t.acks) == InFlight(s.acks) + amount
            && Failed(t.acks) == Failed(s.acks) && ClosedAcks(t.acks) == ClosedAcks(s.acks)
  {
    AcksAppend(s.acks, Ack(s.lastId + 1, amount, Unsent));
  }

  /** Joining changes the registry and, after a failure, the terminal mark; nothing else. */
  lemma JoinKeeps(s: State, id: nat)
    requires OnePlace(s) && Ends(s) && Losses(s)
    ensures var t := Join(s, id);
            && OnePlace(t) && Ends(t) && Losses(t) && InFlight(t.acks) == InFlight(s.acks)
            && t == s.(acks := t.acks, terminal := t.terminal)
            && (s.terminal.Some? ==> t.terminal == s.terminal)
            && (s.acks == [] ==> t == s)
  {
    if FindAck(s.acks, id).Some? { AcksDrop(s.acks, id); }
    else { DropNothing(s.acks, id); }
    hide DropAck, CountOwned, CountUnsent, CountAcks, InFlight, Failed, ClosedAcks;
  }

  lemma JoinWithin(s: State, id: nat, ids: seq<nat>)
    requires Within(s.acks, ids)
    ensures Within(Join(s, id).acks, ids)
  {
    DropAckFrom(s.acks, id);
    forall i | 0 <= i < |DropAck(s.acks, id)| ensures DropAck(s.acks, id)[i].id in ids {
      assert DropAck(s.acks, id)[i] in s.acks;
    }
  }

  lemma JoinFirst(s: State, ids: seq<nat>)
    requires ids != [] && Within(s.acks, ids) && OnePlace(s) && AckOver(s, ids[0])
    ensures Within(Join(s, ids[0]).acks, ids[1..])
  {
    DropWithin(s.acks, ids);
    if FindAck(s.acks, ids[0]).None? { DropNothing(s.acks, ids[0]); }
  }

  /** Recording a credit without returning it. */
  lemma OwnKeeps(s: State, amount: nat)
    requires OnePlace(s)
    ensures var t := Own(s, amount);
            && OnePlace(t) && OwnedSum(t.owned) == OwnedSum(s.owned) + amount
            && t == s.(owned := t.owned, lastId := t.lastId)
  {
    hide OwnedSum, CountOwned, CountUnsent, CountAcks;
    OwnedAppend(s.owned, Credit(s.lastId + 1, amount));
  }

  lemma {:induction false} OwnAllKeeps(s: State, events: seq<Event>)
    requires OnePlace(s)
    ensures var t := OwnAll(s, events);
            && OnePlace(t) && OwnedSum(t.owned) == OwnedSum(s.owned) + EventSum(events)
            && t == s.(owned := t.owned, lastId := t.lastId)
    decreases |events|
  {
    if events != [] {
      OwnKeeps(s, CreditOf(events[0]));
      OwnAllKeeps(Own(s, CreditOf(events[0])), events[1..]);
    }
  }

  lemma {:induction false} NoCredit(events: seq<Event>)
    requires forall i :: 0 <= i < |events| ==> CreditOf(events[i]) == 0
    ensures EventSum(events) == 0
  {
    if events != [] {
      NoCredit(events[1..]);
    }
  }

  // ---------------------------------------------------------------- the others' actions

  lemma SameRest(s: State, t: State)
    requires Ordered(s) && Rest(t) == Rest(s) && t.peerGone == s.peerGone && t.endTaken == s.endTaken
    ensures Ordered(t)
  {}

  lemma SameEvents(s: State, t: State)
    requires Ordered(s) && t.native == s.native && t.eventTask == s.eventTask
    requires t.peerGone == s.peerGone && t.endTaken == s.endTaken
    ensures Ordered(t)
  {
    assert Rest(t) == Rest(s);
  }

  lemma SameIds(s: State, t: State)
    requires OnePlace(s) && t.owned == s.owned && t.acks == s.acks && t.returned == s.returned && t.lastId == s.lastId
    ensures OnePlace(t)
  {}

  /** Everything Placed reads is the same in t, or moved in a direction that cannot hurt it. */
  ghost predicate Gentle(s: State, t: State) {
    && t.pc == s.pc && t.metadata == s.metadata && t.owned == s.owned && t.fetched == s.fetched && t.pending == s.pending
    && t.uploadEof == s.uploadEof && t.endTaken == s.endTaken && t.discarded == s.discarded
    && (s.terminal.Some? ==> t.terminal == s.terminal)
    && (s.queue == [] ==> t.queue == [])
    && (s.queue == [] ==> forall ids :: Within(s.acks, ids) ==> Within(t.acks, ids))
    && (s.queue == [] && s.acks == [] ==> t.acks == [] && t.returned == s.returned && t.lost == s.lost)
    && (s.eventTask.NoTask? ==> t.eventTask.NoTask?)
    && (s.pc.CollectCancel? ==> t.eventTask == s.eventTask)
    && (s.terminal == Some(ByReset) && EventSum(s.native) == 0 ==> EventSum(t.native) == 0)
    && (t.connected ==> s.connected)
    && (s.app.NotStarted? ==> t.app.NotStarted?)
  }

  lemma GentlyPlaced(s: State, t: State)
    requires Placed(s) && Gentle(s, t)
    ensures Placed(t)
  {
    hide Within, EventSum;
  }

  lemma ArriveOrdered(s: State, e: Event)
    requires Ordered(s) && Ends(s)
    ensures Ordered(Step(s, Arrive(e)))
  {
    hide Main;
    var t := Step(s, Arrive(e));
    assert t == s || Rest(t) == Rest(s) + [e];
  }

  lemma ArriveKeepsInv(s: State, e: Event)
    requires Inv(s)
    ensures Inv(Step(s, Arrive(e)))
  {
    var t := Step(s, Arrive(e));
    ArriveOrdered(s, e);
    hide Main, Ordered, Rest;
    EventsAppend(s.native, e);
    SameIds(s, t);
    GentlyPlaced(s, t);
    hide OnePlace, Placed, EventSum;
  }

  lemma TakeEventOrdered(s: State)
    requires Ordered(s)
    ensures Ordered(Step(s, TakeEvent))
  {
    hide Main;
    assert Rest(Step(s, TakeEvent)) == Rest(s);
  }

  lemma TakeEventKeepsInv(s: State)
    requires Inv(s)
    ensures Inv(Step(s, TakeEvent))
  {
    hide Main, Ordered, OnePlace, Rest, Placed, Sum, OwnedSum, InFlight, Failed, ClosedAcks, Within;
    var t := Step(s, TakeEvent);
    TakeEventOrdered(s);
    SameIds(s, t);
    GentlyPlaced(s, t);
  }

  function PhaseAfter(a: Action): AckPhase
    requires a.AckAccepted? || a.AckFlushed? || a.AckRefused?
  {
    match a
    case AckAccepted(_) => Sent
    case AckFlushed(_, ok) => Done(if ok then Fine else Broken)
    case AckRefused(_, closed) => Done(if closed then StreamClosed else Broken)
  }

  lemma AckOnePlace(s: State, a: Action)
    requires OnePlace(s) && (a.AckAccepted? || a.AckFlushed? || a.AckRefused?) && Step(s, a) != s
    ensures OnePlace(Step(s, a))
  {
    hide Main;
    AcksMove(s.acks, a.id, PhaseAfter(a));
    if a.AckAccepted? { OwnedAppend(s.returned, Credit(a.id, FindAck(s.acks, a.id).value.amount)); }
  }

  lemma AckPlaced(s: State, a: Action)
    requires Placed(s) && (a.AckAccepted? || a.AckFlushed? || a.AckRefused?) && Step(s, a) != s
    ensures Placed(Step(s, a))
  {
    hide Main, Placed;
    MoveAckIds(s.acks, a.id, PhaseAfter(a));
    assert s.acks != [];
    GentlyPlaced(s, Step(s, a));
  }

  lemma AckKeepsInv(s: State, a: Action)
    requires Inv(s) && (a.AckAccepted? || a.AckFlushed? || a.AckRefused?)
    ensures Inv(Step(s, a))
  {
    hide Main;
    var t := Step(s, a);
    if t != s {
      assert Rest(t) == Rest(s);
      SameRest(s, t);
      AckOnePlace(s, a);
      AckPlaced(s, a);
      hide Placed, OnePlace, Ordered, Rest;
      AcksMove(s.acks, a.id, PhaseAfter(a));
      if a.AckAccepted? { OwnedAppend(s.returned, Credit(a.id, FindAck(s.acks, a.id).value.amount)); }
    }
  }

  lemma ReceiveKeepsInv(s: State)
    requires Inv(s)
    ensures Inv(Step(s, Receive))
  {
    hide Main, Placed, EventSum, CountOwned, CountUnsent, CountAcks;
    var t := Step(s, Receive);
    if t != s {
      assert Rest(t) == Rest(s);
      SameRest(s, t);
      hide Ordered, Rest;
      var rest := s.(queue := s.queue[1..]);
      SameIds(s, rest);
      assert Sum(s.queue) == s.queue[0] + Sum(rest.queue);
      if s.queue[0] > 0 {
        FreshReturn(rest, s.queue[0]);
        AddTask(rest, s.queue[0]);
      }
      hide OnePlace, Own, StartReturn;
      GentlyPlaced(s, t);
    }
  }

  lemma ReceiverJoinsKeepsInv(s: State, id: nat)
    requires Inv(s)
    ensures Inv(Step(s, ReceiverJoins(id)))
  {
    hide Main, Placed;
    JoinKeeps(s, id);
    var t := Join(s, id);
    assert Rest(t) == Rest(s);
    SameRest(s, t);
    forall ids | Within(s.acks, ids) ensures Within(t.acks, ids) { JoinWithin(s, id, ids); }
    hide Ordered, Rest, OnePlace, Join, Losses, Ends;
    GentlyPlaced(s, t);
  }

  lemma SendFailsKeepsInv(s: State, closed: bool)
    requires Inv(s)
    ensures Inv(Step(s, SendFails(closed)))
  {
    hide Main, Core, Placed, EventSum, Within;
    if closed ==> s.peerGone {
      var k := if closed then ByReset else ByConnection;
      MarkCore(s, k);
      GentlyPlaced(s, Mark(s, k));
    }
  }

  lemma PlainKeepsInv(s: State, a: Action)
    requires Inv(s) && (a.Disconnect? || a.Responded? || a.AppEnds?)
    ensures Inv(Step(s, a))
  {
    hide Main, Ordered, OnePlace, Rest, Placed, EventSum, Sum, OwnedSum, InFlight, Failed, ClosedAcks, Within;
    var t := Step(s, a);
    SameEvents(s, t);
    SameIds(s, t);
    GentlyPlaced(s, t);
  }

  lemma CancelKeepsInv(s: State)
    requires Inv(s)
    ensures Inv(Step(s, Cancel))
  {
    hide Core, Exiting, Mark, Placed;
    var u := Mark(s, ByShutdown);
    MarkCore(s, ByShutdown);
    LeftFreely(u);
    ExitingKeeps(u, Cancelled);
  }

  // ---------------------------------------------------------------- the dispatcher's steps

  lemma SameCore(s: State, t: State)
    requires Core(s) && t == s.(pc := t.pc, metadata := t.metadata, app := t.app, uploadEof := t.uploadEof)
    requires t.uploadEof ==> s.uploadEof || s.endTaken
    ensures Core(t)
  {
    SameEvents(s, t);
    SameIds(s, t);
    hide OnePlace, Ordered;
  }

  lemma PcCore(s: State, pc: Pc)
    requires Core(s)
    ensures Core(s.(pc := pc))
  {
    SameCore(s, s.(pc := pc));
  }

  lemma MarkCore(s: State, k: Terminal)
    requires Core(s) && (k.ByReset? ==> s.peerGone)
    ensures Core(Mark(s, k))
  {
    var t := Mark(s, k);
    SameEvents(s, t);
    SameIds(s, t);
    hide OnePlace, Ordered;
  }

  lemma JoinCore(s: State, id: nat)
    requires Core(s)
    ensures var t := Join(s, id);
            && Core(t) && t == s.(acks := t.acks, terminal := t.terminal)
            && (s.terminal.Some? ==> t.terminal == s.terminal) && (s.acks == [] ==> t == s)
  {
    JoinKeeps(s, id);
    SameEvents(s, Join(s, id));
    hide OnePlace, Ordered, Ends, Losses, Join;
  }

  /** Credit taken from a place of the dispatcher is returned, or dropped when it may not be. */
  lemma TaskCore(s: State, u: State, amount: nat)
    requires Core(s) && amount > 0 && u == s.(pending := u.pending, queue := u.queue, fetched := u.fetched)
    requires u.pending + Sum(u.queue) + u.fetched + amount == s.pending + Sum(s.queue) + s.fetched
    ensures var t := StartReturn(Own(u, amount), u.lastId + 1);
            && Core(t) && t == u.(lastId := u.lastId + 1, acks := u.acks + [Ack(u.lastId + 1, amount, Unsent)])
    ensures var t := Discard(Own(u, amount), u.lastId + 1);
            && t == u.(lastId := u.lastId + 1, discarded := u.discarded + amount) && (!MayReturn(u) ==> Core(t))
  {
    SameIds(s, u);
    FreshReturn(u, amount);
    FreshDiscard(u, amount);
    AddTask(u, amount);
    SameEvents(s, StartReturn(Own(u, amount), u.lastId + 1));
    SameEvents(s, Discard(Own(u, amount), u.lastId + 1));
    DiscardOnePlace(u, u.discarded + amount);
    hide OnePlace, Ordered, Own, StartReturn, Discard;
  }

  lemma DiscardOnePlace(s: State, n: nat)
    requires OnePlace(s)
    ensures OnePlace(s.(lastId := s.lastId + 1, discarded := n))
  {}

  /** Moving credit between the dispatcher's places, or none at all. */
  lemma ShiftCore(s: State, t: State)
    requires Core(s) && t == s.(pending := t.pending, queue := t.queue, fetched := t.fetched)
    requires t.pending + Sum(t.queue) + t.fetched == s.pending + Sum(s.queue) + s.fetched
    ensures Core(t)
  {
    SameEvents(s, t);
    SameIds(s, t);
    hide OnePlace, Ordered;
  }

  lemma StartWaitingKeeps(s: State)
    requires Core(s) && s.owned == [] && s.fetched == 0 && NoneDropped(s) && (!s.metadata ==> Untouched(s))
    ensures Inv(StartWaiting(s))
  {
    var t := StartWaiting(s);
    assert Rest(t) == Rest(s);
    SameRest(s, t);
    SameIds(s, t);
    hide OnePlace, Ordered;
  }

  lemma ExitingKeeps(s: State, exit: Exit)
    requires Core(s) && Left(s, exit)
    ensures Inv(Exiting(s, exit))
  {
    SameCore(s, Exiting(s, exit));
    hide Core, AckIds;
  }

  lemma AtTopKeeps(s: State, c: Choice)
    requires Inv(s) && s.pc.Top?
    ensures Inv(AtTop(s, c))
  {
    if s.terminal.None? { RunningDropsNone(s); }
    hide Core;
    var t := AtTop(s, c);
    if s.terminal.Some? || (s.app.Finished? && !s.eventTask.Got? && !c.appRaises) { SameCore(s, t); }
    else if t == Exiting(s, Raised) { ExitingKeeps(s, Raised); }
    else { StartWaitingKeeps(s); }
  }

  lemma TakenOrdered(s: State, t: State)
    requires Ordered(s) && s.eventTask.Got?
    requires var e := s.eventTask.event;
             t == s.(eventTask := NoTask, fetched := CreditOf(e), endTaken := s.endTaken || Closes(e))
    ensures Ordered(t) && (Closes(s.eventTask.event) ==> s.peerGone)
  {
    var r := Rest(s);
    assert Rest(t) == r[1..] && r[0] == s.eventTask.event;
    assert Closes(r[0]) ==> s.peerGone;
    forall i, j | 0 <= i < j < |r| - 1 && Closes(r[1..][i]) ensures CreditOf(r[1..][j]) == 0 {
      assert r[1..][i] == r[i + 1];
    }
  }

  lemma TakenCore(s: State, t: State)
    requires Core(s) && s.eventTask.Got? && s.fetched == 0
    requires var e := s.eventTask.event;
             t == s.(eventTask := NoTask, fetched := CreditOf(e), endTaken := s.endTaken || Closes(e))
    ensures Core(t)
  {
    CoreIds(s);
    hide Ordered, OnePlace, EventSum, Sum, OwnedSum, InFlight, Failed, ClosedAcks;
    TakenOrdered(s, t);
    SameIds(s, t);
  }

  /** While nothing has stopped the request, only a lost connection lets credit be dropped. */
  lemma RunningDropsNone(s: State)
    requires Core(s) && s.terminal.None?
    ensures NoneDropped(s)
  {}

  lemma LeftFreely(s: State)
    ensures Left(s, Cancelled)
    ensures s.owned == [] && NoneDropped(s) && (!s.metadata ==> Untouched(s)) ==> Left(s, Raised)
  {}

  lemma EventTaken(s: State, c: Choice)
    requires Inv(s) && s.pc.Waiting? && s.eventTask.Got?
    ensures var e := s.eventTask.event;
            var u := s.(eventTask := NoTask, fetched := CreditOf(e), endTaken := s.endTaken || Closes(e));
            && Core(u) && Inv(u.(pc := Handle(Some(e))))
            && (s.app.Finished? ==> Inv(u.(pc := Drain(FromWait(Some(e))))))
            && Inv(Exiting(u, Raised))
  {
    hide Core, Exiting, EventSum, Collected, Within;
    var e := s.eventTask.event;
    var u := s.(eventTask := NoTask, fetched := CreditOf(e), endTaken := s.endTaken || Closes(e));
    TakenCore(s, u);
    LeftFreely(u);
    ExitingKeeps(u, Raised);
    PcCore(u, Handle(Some(e)));
    PcCore(u, Drain(FromWait(Some(e))));
  }

  lemma WokenKeeps(s: State, forApp: bool, c: Choice)
    requires Inv(s) && s.pc == Waiting(forApp)
    ensures Inv(Woken(s, forApp, c))
  {
    hide Core, Left, AckIds, Within, Exiting, Collected, EventSum, OwnedWithin;
    var t := Woken(s, forApp, c);
    if c.seesTerminal && s.terminal.Some? { SameCore(s, t); }
    else if s.eventTask.Got? { hide Placed; EventTaken(s, c); }
    else if !(forApp && s.app.Finished?) {}
    else if c.appRaises { LeftFreely(s); ExitingKeeps(s, Raised); }
    else { SameCore(s, t); }
  }

  lemma AfterStartKeeps(s: State, ended: bool)
    requires Core(s) && s.owned == [] && s.fetched == 0 && (ended ==> s.endTaken)
    requires (!s.metadata ==> Untouched(s)) && (s.app.NotStarted? ==> NoneDropped(s))
    ensures Inv(AfterStart(s, ended))
  {
    hide Core;
    if ended && s.app.NotStarted? { ExitingKeeps(s, Raised); }
    else {
      var t := AfterStart(s, ended);
      var u := s.(queue := t.queue);
      SumAppend(s.queue, 0);
      ShiftCore(s, u);
      SameCore(u, t);
    }
  }

  lemma TryStartKeeps(s: State, ended: bool, c: Choice)
    requires Core(s) && s.owned == [] && s.fetched == 0 && (ended ==> s.endTaken)
    requires (!s.metadata ==> Untouched(s)) && NoneDropped(s)
    ensures Inv(TryStart(s, ended, c))
  {
    hide Core, AfterStart, Own, StartReturn, Exiting, Within;
    if s.metadata || c.parse.Incomplete? { AfterStartKeeps(s, ended); }
    else if c.parse.Invalid? { ExitingKeeps(s, Rejected); }
    else if c.parse.Unreadable? { ExitingKeeps(s, Raised); }
    else if c.parse.remainder {
      var u := s.(queue := s.queue + [s.pending], pending := 0);
      SumAppend(s.queue, s.pending);
      ShiftCore(s, u);
      var v := u.(metadata := true, app := Running);
      SameCore(u, v);
      AfterStartKeeps(v, ended);
    } else if s.pending == 0 {
      var v := s.(metadata := true, app := Running);
      SameCore(s, v);
      AfterStartKeeps(v, ended);
    } else {
      var m := s.(metadata := true);
      SameCore(s, m);
      TaskCore(m, m.(pending := 0), s.pending);
      var u := StartReturn(Own(m.(pending := 0), s.pending), s.lastId + 1);
      PcCore(u, StartAck(u.lastId, ended));
    }
  }

  /** Data behind the metadata: queued for the application, or acknowledged at once. */
  lemma HandleBodyKeeps(s: State, e: Event, c: Choice)
    requires Inv(s) && s.pc == Handle(Some(e)) && e.Data? && s.terminal.None? && s.metadata
    ensures Inv(HandleEvent(s, Some(e), c))
  {
    hide Core, TryStart, Own, StartReturn, AckIds, Within, Sum, NoneDropped, Untouched, EventSum;
    if !s.app.Finished? {
      var u := s.(queue := s.queue + [s.fetched], fetched := 0);
      SumAppend(s.queue, s.fetched);
      ShiftCore(s, u);
      PcCore(u, Top);
    } else if s.fetched == 0 { PcCore(s, Top); }
    else {
      TaskCore(s, s.(fetched := 0), s.fetched);
      var u := StartReturn(Own(s.(fetched := 0), s.fetched), s.lastId + 1);
      PcCore(u, DirectAck(u.lastId));
    }
  }

  lemma HandleDataKeeps(s: State, e: Event, c: Choice)
    requires Inv(s) && s.pc == Handle(Some(e)) && e.Data? && s.terminal.None?
    ensures Inv(HandleEvent(s, Some(e), c))
  {
    if s.metadata { hide Inv, HandleEvent; HandleBodyKeeps(s, e, c); }
    else {
      hide Core, TryStart, Inv, Untouched, NoneDropped, Sum;
      MetadataMissing(s, e);
      var u := s.(pending := s.pending + s.fetched, fetched := 0);
      ShiftCore(s, u);
      TryStartKeeps(u, false, c);
    }
  }

  lemma MetadataMissing(s: State, e: Event)
    requires Inv(s) && s.pc == Handle(Some(e)) && s.terminal.None? && !s.metadata
    ensures Core(s) && s.owned == []
    ensures var u := s.(pending := s.pending + s.fetched, fetched := 0); Untouched(u) && NoneDropped(u)
  {
    RunningDropsNone(s);
    hide Core;
  }

  lemma HandleKeeps(s: State, event: Option<Event>, c: Choice)
    requires Inv(s) && s.pc == Handle(event)
    ensures Inv(HandleEvent(s, event, c))
  {
    if s.terminal.None? { RunningDropsNone(s); }
    hide Core, TryStart, Own, StartReturn, AckIds, Within, Sum;
    var top := s.(pc := Top);
    SameCore(s, top);
    if s.terminal.Some? {}
    else if event.None? { if s.uploadEof && s.app.Finished? { CoreIsQuiet(s); ExitingKeeps(s, Completed); } }
    else if event.value.Failure? { MarkCore(s, ByConnection); PcCore(Mark(s, ByConnection), Top); }
    else if event.value.Reset? { CoreIsQuiet(s); MarkCore(s, ByReset); PcCore(Mark(s, ByReset), Top); }
    else if event.value.Ended? { if !s.uploadEof { TryStartKeeps(s, true, c); } }
    else if event.value.Data? { HandleDataKeeps(s, event.value, c); }
  }

  /** What the dispatcher may conclude once no task is registered and nothing has stopped it. */
  lemma CoreIsQuiet(s: State)
    requires Core(s)
    ensures s.acks == [] && s.terminal.None? ==> s.lost == 0 && (s.connected ==> s.discarded == 0)
    ensures s.uploadEof ==> s.endTaken
    ensures s.endTaken ==> s.peerGone && EventSum(s.native) == 0 && InTask(s.eventTask) == 0
    ensures s.terminal == Some(ByReset) ==> s.peerGone
  {
    if s.endTaken {
      var r := Rest(s);
      forall i | 0 <= i < |s.native| ensures CreditOf(s.native[i]) == 0 {
        assert s.native[i] == r[i + (if s.eventTask.Got? then 1 else 0)];
      }
      NoCredit(s.native);
      assert s.eventTask.Got? ==> r[0] == s.eventTask.event;
    }
  }

  lemma InDrainSame(s: State, t: State, k: After)
    requires InDrain(s, k) && t.owned == s.owned && t.fetched == s.fetched && t.metadata == s.metadata
    requires t.endTaken == s.endTaken && t.eventTask == s.eventTask && t.native == s.native
    requires t.terminal == s.terminal || s.terminal.None?
    ensures InDrain(t, k)
  {}

  lemma DrainOneReturns(s: State, k: After)
    requires Inv(s) && s.pc == Drain(k) && s.queue != [] && s.queue[0] > 0 && MayReturn(s)
    ensures Inv(DrainOne(s, k))
  {
    hide Core, Own, StartReturn, Sum, MayReturn, InDrain;
    var u := s.(queue := s.queue[1..]);
    SumHead(s.queue);
    TaskCore(s, u, s.queue[0]);
    OwnGives(u, s.queue[0]);
    var v := StartReturn(Own(u, s.queue[0]), u.lastId + 1);
    PcCore(v, DrainAck(v.lastId, k));
    InDrainSame(s, v.(pc := DrainAck(v.lastId, k)), k);
  }

  lemma DrainOneDrops(s: State, k: After)
    requires Inv(s) && s.pc == Drain(k) && s.queue != [] && s.queue[0] > 0 && !MayReturn(s)
    ensures Inv(DrainOne(s, k))
  {
    hide Core, Own, Discard, Sum, MayReturn, InDrain;
    var u := s.(queue := s.queue[1..]);
    SumHead(s.queue);
    DrainedOne(s, u);
    TaskCore(s, u, s.queue[0]);
    OwnGives(u, s.queue[0]);
    InDrainSame(s, Discard(Own(u, s.queue[0]), u.lastId + 1), k);
  }

  lemma DrainOneKeeps(s: State, k: After)
    requires Inv(s) && s.pc == Drain(k)
    ensures Inv(DrainOne(s, k))
  {
    hide Core, Own, StartReturn, Discard, Sum, MayReturn, InDrain;
    if s.queue == [] { PcCore(s, DrainPending(k)); InDrainSame(s, s.(pc := DrainPending(k)), k); }
    else if s.queue[0] == 0 {
      var u := s.(queue := s.queue[1..]);
      SumHead(s.queue);
      ShiftCore(s, u);
      OwnNothing(u);
      InDrainSame(s, u, k);
    } else { hide Inv, DrainOne; if MayReturn(s) { DrainOneReturns(s, k); } else { DrainOneDrops(s, k); } }
  }

  lemma SumHead(amounts: seq<nat>)
    ensures amounts != [] ==> Sum(amounts) == amounts[0] + Sum(amounts[1..])
  {}

  lemma DrainedOne(s: State, u: State)
    requires u == s.(queue := u.queue, pending := u.pending)
    ensures MayReturn(u) == MayReturn(s)
  {}

  lemma OwnNothing(s: State)
    ensures Own(s, 0) == s
  {}

  lemma OwnGives(s: State, amount: nat)
    requires amount > 0
    ensures Own(s, amount).lastId == s.lastId + 1
  {}

  lemma DrainRestReturns(s: State, k: After)
    requires Inv(s) && s.pc == DrainPending(k) && s.pending > 0 && MayReturn(s)
    ensures Inv(DrainRest(s, k))
  {
    hide Core, Own, StartReturn, MayReturn, InDrain;
    var u := s.(pending := 0);
    TaskCore(s, u, s.pending);
    OwnGives(u, s.pending);
    var v := StartReturn(Own(u, s.pending), u.lastId + 1);
    PcCore(v, PendingAck(v.lastId, k));
    InDrainSame(s, v.(pc := PendingAck(v.lastId, k)), k);
  }

  lemma DrainRestKeeps(s: State, k: After)
    requires Inv(s) && s.pc == DrainPending(k)
    ensures Inv(DrainRest(s, k))
  {
    hide Core, Own, StartReturn, Discard, MayReturn, InDrain, AckIds, Within;
    AckIdsCover(s.acks);
    if s.pending == 0 {
      PcCore(s, Settle(AckIds(s.acks), k));
      InDrainSame(s, s.(pc := Settle(AckIds(s.acks), k)), k);
    } else if MayReturn(s) { DrainRestReturns(s, k); }
    else {
      var u := s.(pending := 0);
      DrainedOne(s, u);
      TaskCore(s, u, s.pending);
      OwnGives(u, s.pending);
      var v := Discard(Own(u, s.pending), u.lastId + 1);
      PcCore(v, Settle(AckIds(v.acks), k));
      InDrainSame(s, v.(pc := Settle(AckIds(v.acks), k)), k);
    }
  }

  lemma DropOwnedCore(s: State)
    requires Core(s) && !MayReturn(s)
    ensures Core(s.(discarded := s.discarded + OwnedSum(s.owned), owned := []))
  {
    var t := s.(discarded := s.discarded + OwnedSum(s.owned), owned := []);
    SameEvents(s, t);
  }

  lemma NoneWithin(acks: seq<Ack>)
    ensures Within(acks, []) ==> acks == []
  {
    if acks != [] { assert acks[0].id !in []; }
  }

  lemma ResumeFromTop(s: State)
    requires Inv(s) && s.pc == Settle([], FromTop)
    ensures Inv(Resume(s, FromTop))
  {
    if s.terminal.None? { RunningDropsNone(s); CoreIsQuiet(s); }
    NoneWithin(s.acks);
    hide Core, Within, AckIds, EventSum, Exiting, StartWaiting, NoneDropped, Untouched;
    if s.terminal.Some? { PcCore(s, Collect); }
    else if s.uploadEof { ExitingKeeps(s, Completed); }
    else { StartWaitingKeeps(s); }
  }

  /** After a reset the collected credits are returned one by one. */
  lemma ResumeToReturn(s: State)
    requires Inv(s) && s.pc == Settle([], FromCollect) && s.terminal == Some(ByReset) && s.connected
    ensures Inv(Resume(s, FromCollect))
  {
    OwnedIdsCover(s.owned);
    hide Core, Within, OwnedIds, OwnedWithin, EventSum;
    PcCore(s, ReturnOwned(OwnedIds(s.owned)));
  }

  lemma ResumeToDrop(s: State)
    requires Inv(s) && s.pc == Settle([], FromCollect) && !(s.terminal == Some(ByReset) && s.connected)
    ensures Inv(Resume(s, FromCollect))
  {
    hide Core, Within, AckIds, EventSum, OwnedSum, Untouched, NoneDropped;
    DropOwnedCore(s);
    AckIdsCover(s.acks);
    var u := s.(discarded := s.discarded + OwnedSum(s.owned), owned := []);
    PcCore(u, Settle(AckIds(s.acks), Last));
  }

  lemma ResumeKeeps(s: State, k: After)
    requires Inv(s) && s.pc == Settle([], k)
    ensures Inv(Resume(s, k))
  {
    match k
    case FromTop => hide Inv, Resume; ResumeFromTop(s);
    case FromWait(e) => NoneWithin(s.acks); hide Core, Within, NoneDropped, Untouched; PcCore(s, Handle(e));
    case FromCollect =>
      hide Inv, Resume;
      if s.terminal == Some(ByReset) && s.connected { ResumeToReturn(s); } else { ResumeToDrop(s); }
    case Last => NoneWithin(s.acks); hide Core, Within, EventSum, Exiting; ExitingKeeps(s, Terminated);
    case Leave(exit) => hide Core, Left; PcCore(s, Exited(exit));
  }

  lemma SettleKeeps(s: State, ids: seq<nat>, k: After)
    requires Inv(s) && s.pc == Settle(ids, k) && ids != [] && AckOver(s, ids[0])
    ensures Inv(Join(s, ids[0]).(pc := Settle(ids[1..], k)))
  {
    hide Core, Join, EventSum, Within, AckOver;
    JoinCore(s, ids[0]);
    var t := Join(s, ids[0]);
    if !k.Leave? { CoreIds(s); JoinFirst(s, ids); }
    PcCore(t, Settle(ids[1..], k));
  }

  lemma CoreIds(s: State)
    requires Core(s)
    ensures OnePlace(s) && Ordered(s)
  {}

  // steps that go on after an acknowledgement

  lemma StartAckKeeps(s: State, id: nat, ended: bool)
    requires Inv(s) && s.pc == StartAck(id, ended)
    ensures Inv(AfterStart(Join(s, id).(app := Running), ended))
  {
    hide Core, Join, AfterStart, Untouched;
    JoinCore(s, id);
    var t := Join(s, id).(app := Running);
    SameCore(Join(s, id), t);
    AfterStartKeeps(t, ended);
  }

  lemma DirectAckKeeps(s: State, id: nat)
    requires Inv(s) && s.pc == DirectAck(id)
    ensures Inv(Join(s, id).(pc := Top))
  {
    hide Core, Join, Untouched;
    JoinCore(s, id);
    PcCore(Join(s, id), Top);
  }

  lemma DrainAckKeeps(s: State, id: nat, k: After)
    requires Inv(s) && s.pc == DrainAck(id, k)
    ensures Inv(Join(s, id).(pc := Drain(k)))
  {
    hide Core, Join, InDrain;
    JoinCore(s, id);
    var t := Join(s, id).(pc := Drain(k));
    PcCore(Join(s, id), Drain(k));
    InDrainSame(s, t, k);
  }

  lemma PendingAckKeeps(s: State, id: nat, k: After)
    requires Inv(s) && s.pc == PendingAck(id, k)
    ensures Inv(Join(s, id).(pc := Settle(AckIds(Join(s, id).acks), k)))
  {
    hide Core, Join, InDrain, AckIds, Within;
    JoinCore(s, id);
    var ids := AckIds(Join(s, id).acks);
    var t := Join(s, id).(pc := Settle(ids, k));
    AckIdsCover(t.acks);
    PcCore(Join(s, id), Settle(ids, k));
    InDrainSame(s, t, k);
  }

  // ---------------------------------------------------------------- collecting after the end

  lemma NoRest(s: State, t: State)
    requires Ordered(s) && t.native == [] && t.eventTask.NoTask? && t.peerGone == s.peerGone && t.endTaken == s.endTaken
    ensures Ordered(t)
  {
    assert Rest(t) == [];
  }

  lemma TailOrdered(s: State, t: State)
    requires Ordered(s) && Rest(s) != [] && Rest(t) == Rest(s)[1..] && t.peerGone == s.peerGone && t.endTaken == s.endTaken
    ensures Ordered(t)
  {
    forall i, j | 0 <= i < j < |Rest(t)| && Closes(Rest(t)[i]) ensures CreditOf(Rest(t)[j]) == 0 {
      assert Rest(s)[i + 1] == Rest(t)[i];
    }
  }

  lemma HeadOrdered(s: State)
    requires Ordered(s)
    ensures s.eventTask.Got? ==> Ordered(s.(eventTask := NoTask))
    ensures s.eventTask.Getting? ==> Ordered(s.(eventTask := NoTask))
    ensures s.eventTask.Getting? && s.native != [] ==> Ordered(s.(eventTask := NoTask, native := s.native[1..]))
  {
    var t := s.(eventTask := NoTask);
    if s.eventTask.Got? { assert Rest(t) == Rest(s)[1..]; TailOrdered(s, t); }
    else {
      assert Rest(t) == Rest(s);
      if s.native != [] { TailOrdered(s, t.(native := s.native[1..])); }
    }
  }

  /** The credit of the event already taken, or at the head of the queue, becomes an owned one. */
  lemma CollectOne(s: State, u: State, amount: nat)
    requires Core(s) && Ordered(u) && u == s.(eventTask := NoTask, native := u.native)
    requires InTask(s.eventTask) + EventSum(s.native) == amount + EventSum(u.native)
    ensures Core(Own(u, amount)) && Own(u, amount).eventTask.NoTask? && Own(u, amount).terminal == u.terminal
    ensures Own(u, amount).uploadEof == u.uploadEof && Own(u, amount).endTaken == u.endTaken
  {
    SameIds(s, u);
    OwnKeeps(u, amount);
    SameEvents(u, Own(u, amount));
    hide Own, OnePlace, Ordered, EventSum, Sum, OwnedSum, InFlight, Failed, ClosedAcks;
  }

  lemma CollectKeeps(s: State)
    requires Inv(s) && s.pc.Collect?
    ensures Inv(CollectTask(s))
  {
    CoreIds(s);
    HeadOrdered(s);
    hide Core, Own, Ordered, OnePlace, EventSum, Collected, InDrain, Left, Untouched, Within, OwnedWithin;
    if s.eventTask.Got? {
      var u := s.(eventTask := NoTask);
      CollectOne(s, u, CreditOf(s.eventTask.event));
      PcCore(Own(u, CreditOf(s.eventTask.event)), CollectNative);
    } else { PcCore(s, CollectCancel); PcCore(s, CollectNative); }
  }

  lemma CollectCancelKeeps(s: State, c: Choice)
    requires Inv(s) && s.pc.CollectCancel?
    ensures Inv(CollectCancelled(s, c))
  {
    CoreIds(s);
    HeadOrdered(s);
    EventsHead(s.native);
    hide Core, Own, Ordered, OnePlace, EventSum, Collected, InDrain, Left, Untouched, Within, OwnedWithin;
    var took := c.consumed && s.native != [];
    var u := s.(eventTask := NoTask, native := if took then s.native[1..] else s.native);
    var amount := if took then CreditOf(s.native[0]) else 0;
    CollectOne(s, u, amount);
    OwnNothing(u);
    OwnNothingHere(u);
    PcCore(Own(u, amount), CollectNative);
  }

  lemma OwnNothingHere(s: State)
    ensures Own(s.(pc := CollectNative), 0) == Own(s, 0).(pc := CollectNative)
  {}

  lemma EventsHead(events: seq<Event>)
    ensures events != [] ==> EventSum(events) == CreditOf(events[0]) + EventSum(events[1..])
  {}

  lemma CollectNativeKeeps(s: State)
    requires Inv(s) && s.pc.CollectNative?
    ensures Inv(CollectQueue(s))
  {
    var u := s.(native := [], fetched := 0);
    var v := OwnAll(u, s.native);
    var t := Own(v, s.fetched).(pc := Drain(FromCollect));
    SameIds(s, u);
    OwnAllKeeps(u, s.native);
    OwnKeeps(v, s.fetched);
    SameIds(Own(v, s.fetched), t);
    NoRest(s, t);
    hide OnePlace, Ordered, Rest, Own, OwnAll;
  }

  lemma NoneOwnedWithin(owned: seq<Credit>)
    ensures OwnedWithin(owned, []) ==> owned == []
  {
    if owned != [] { assert owned[0].id !in []; }
  }

  lemma StartReturnDrops(s: State, id: nat)
    ensures var t := StartReturn(s, id); t == s.(owned := DropOwned(s.owned, id), acks := t.acks)
  {}

  lemma ReturnOwnedKeeps(s: State, ids: seq<nat>)
    requires Inv(s) && s.pc == ReturnOwned(ids)
    ensures Inv(ReturnNext(s, ids))
  {
    hide Core, Join, StartReturn, EventSum, Within, AckIds;
    var t := ReturnNext(s, ids);
    if ids == [] {
      NoneOwnedWithin(s.owned);
      AckIdsCover(s.acks);
      PcCore(s, Settle(AckIds(s.acks), Last));
    } else {
      CoreIds(s);
      DropOwnedWithin(s.owned, ids);
      StartReturnDrops(s, ids[0]);
      hide OwnedWithin, OnePlace, HasOwned, DropOwned;
      if HasOwned(s.owned, ids[0]) {
        ReturnCore(s, ids[0]);
        PcCore(StartReturn(s, ids[0]), OwnedAck(ids[0], ids[1..]));
      } else { PcCore(s, ReturnOwned(ids[1..])); }
    }
  }

  /** Starting the return of any owned credit. */
  lemma ReturnCore(s: State, id: nat)
    requires Core(s) && HasOwned(s.owned, id)
    ensures Core(StartReturn(s, id))
  {
    var t := StartReturn(s, id);
    OwnedDrop(s.owned, id);
    AcksAppend(s.acks, Ack(id, AmountOf(s.owned, id), Unsent));
    SameEvents(s, t);
    hide Ordered, DropOwned, AmountOf, HasOwned;
  }

  /** Only a reset lets owned credit be returned, so the loop is never left early. */
  lemma OwnedAckKeeps(s: State, id: nat, ids: seq<nat>)
    requires Inv(s) && s.pc == OwnedAck(id, ids)
    ensures Inv(AfterOwned(Join(s, id), ids))
  {
    hide Core, Join, EventSum, OwnedWithin, AckIds;
    JoinCore(s, id);
    PcCore(Join(s, id), ReturnOwned(ids));
  }

  lemma MainKeepsInv(s: State, c: Choice)
    requires Inv(s)
    ensures Inv(Main(s, c))
  {
    hide Inv, AtTop, Woken, HandleEvent, AfterStart, Join, AckOver, DrainOne, DrainRest, Resume;
    hide CollectTask, CollectCancelled, CollectQueue, ReturnNext, AfterOwned, AckIds;
    match s.pc
    case Top => AtTopKeeps(s, c);
    case Waiting(forApp) => WokenKeeps(s, forApp, c);
    case Handle(event) => HandleKeeps(s, event, c);
    case StartAck(id, ended) => StartAckKeeps(s, id, ended);
    case DirectAck(id) => DirectAckKeeps(s, id);
    case Drain(k) => DrainOneKeeps(s, k);
    case DrainAck(id, k) => DrainAckKeeps(s, id, k);
    case DrainPending(k) => DrainRestKeeps(s, k);
    case PendingAck(id, k) => PendingAckKeeps(s, id, k);
    case Settle(ids, k) =>
      if ids == [] { ResumeKeeps(s, k); } else if AckOver(s, ids[0]) { SettleKeeps(s, ids, k); }
    case Collect => CollectKeeps(s);
    case CollectCancel => CollectCancelKeeps(s, c);
    case CollectNative => CollectNativeKeeps(s);
    case ReturnOwned(ids) => ReturnOwnedKeeps(s, ids);
    case OwnedAck(id, ids) => OwnedAckKeeps(s, id, ids);
    case Exited(_) =>
  }

  lemma StepKeepsInv(s: State, a: Action)
    requires Inv(s)
    ensures Inv(Step(s, a))
  {
    hide Inv, Main;
    match a
    case Arrive(e) => hide Step; ArriveKeepsInv(s, e);
    case TakeEvent => hide Step; TakeEventKeepsInv(s);
    case AckAccepted(_) => hide Step; AckKeepsInv(s, a);
    case AckFlushed(_, _) => hide Step; AckKeepsInv(s, a);
    case AckRefused(_, _) => hide Step; AckKeepsInv(s, a);
    case Receive => hide Step; ReceiveKeepsInv(s);
    case ReceiverJoins(id) => hide Step; ReceiverJoinsKeepsInv(s, id);
    case Cancel => hide Step; CancelKeepsInv(s);
    case SendFails(closed) => hide Step; SendFailsKeepsInv(s, closed);
    case Dispatcher(c) => MainKeepsInv(s, c);
    case _ => hide Step; PlainKeepsInv(s, a);
  }

  lemma InitialInv()
    ensures Inv(Initial)
  {
    assert Rest(Initial) == [];
  }
}
