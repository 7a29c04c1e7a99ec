// The sending half of HTTP/2 flow control in the Python Guest and Broker
// (sections 5.2 and 6.9 of RFC 9113): senders cut their data to the open window and
// sleep on a future while it is closed. One action is one region under the I/O lock.

module WindowedSend {
  import opened Bytes

  const DEFAULT_FRAME_SIZE := 16384

  // ---------------------------------------------------------------- state

  /** Where a `_send_data` call stands between two locked regions. */
  datatype Phase = Ready | Asleep(waiter: nat) | Finished | Failed

  datatype Sender = Sender(stream: nat, data: seq<byte>, endStream: bool, offset: nat, phase: Phase)

  /** A DATA frame on the wire, with the window and frame limit in force when it was cut. */
  datatype Frame = Frame(sender: nat, payload: seq<byte>, endStream: bool, window: int, limit: nat)

  /**
   * `adjust` holds what WINDOW_UPDATE frames and sent data have done to a stream's
   * window since it was opened with `initialWindow`; stream 0 is the connection.
   */
  datatype State = State(
    connection: int,
    initialWindow: int,
    adjust: map<nat, int>,
    frameSize: nat,
    senders: seq<Sender>,
    waiters: map<nat, seq<nat>>,
    resolved: map<nat, bool>,
    nextWaiter: nat,
    wire: seq<Frame>)

  function Min(a: int, b: int): int { if a <= b then a else b }

  function Adjustment(s: State, stream: nat): int {
    if stream in s.adjust then s.adjust[stream] else 0
  }

  /** The window a sender on `stream` may use: the smaller of the stream's and the connection's. */
  function Window(s: State, stream: nat): int {
    Min(s.connection, s.initialWindow + Adjustment(s, stream))
  }

  function FrameLimit(s: State): (limit: nat)
    ensures limit > 0
  {
    if s.frameSize == 0 then DEFAULT_FRAME_SIZE else s.frameSize
  }

  // ---------------------------------------------------------------- locked regions

  function Registered(waiters: map<nat, seq<nat>>, stream: nat): seq<nat> {
    if stream in waiters then waiters[stream] else []
  }

  function Emit(s: State, i: nat, size: nat): State
    requires i < |s.senders| && s.senders[i].offset + size <= |s.senders[i].data|
  {
    var p := s.senders[i];
    var offset := p.offset + size;
    var last := offset == |p.data|;
    s.(connection := s.connection - size,
       adjust := s.adjust[p.stream := Adjustment(s, p.stream) - size],
       senders := s.senders[i := p.(offset := offset, phase := if last then Finished else Ready)],
       wire := s.wire + [Frame(i, p.data[p.offset..offset], p.endStream && last, Window(s, p.stream), FrameLimit(s))])
  }

  /** One pass of the loop of `_send_data`, or its whole run for empty data. */
  function Send(s: State, i: nat): State
    requires i < |s.senders| && s.senders[i].phase.Ready? && s.senders[i].offset <= |s.senders[i].data|
  {
    var p := s.senders[i];
    var window := Window(s, p.stream);
    if p.data == [] then Emit(s, i, 0)
    else if window > 0 then Emit(s, i, Min(Min(window, FrameLimit(s)), |p.data| - p.offset))
    else
      s.(waiters := s.waiters[p.stream := Registered(s.waiters, p.stream) + [s.nextWaiter]],
         senders := s.senders[i := p.(phase := Asleep(s.nextWaiter))],
         nextWaiter := s.nextWaiter + 1)
  }

  /** What one read from the transport may report. */
  datatype Event =
    | WindowUpdate(stream: nat, increment: nat)
    | Gone(stream: nat)                  // the stream was reset, or ended where that stops its senders
    | SettingsWindow(delta: int)         // SETTINGS_INITIAL_WINDOW_SIZE changed

  /** The HTTP/2 state change behind an event; all of a batch's changes come before any notification. */
  function Apply(s: State, e: Event): State {
    match e
    case WindowUpdate(stream, increment) =>
      if stream == 0 then s.(connection := s.connection + increment)
      else s.(adjust := s.adjust[stream := Adjustment(s, stream) + increment])
    case Gone(_) => s
    case SettingsWindow(delta) => s.(initialWindow := s.initialWindow + delta)
  }

  function ApplyAll(s: State, events: seq<Event>): State {
    if events == [] then s else Apply(ApplyAll(s, events[..|events| - 1]), events[|events| - 1])
  }

  function Resolve(resolved: map<nat, bool>, group: set<nat>, ok: bool): map<nat, bool> {
    resolved + map w | w in group && w !in resolved :: ok
  }

  function Members(group: seq<nat>): set<nat> {
    set w | w in group
  }

  function Everyone(waiters: map<nat, seq<nat>>): set<nat> {
    set stream, w | stream in waiters && w in waiters[stream] :: w
  }

  /** Pops and settles the waiters of a stream, or of every stream for stream 0. */
  function Settle(s: State, stream: nat, ok: bool): State {
    if stream == 0 then
      s.(waiters := map[], resolved := Resolve(s.resolved, Everyone(s.waiters), ok))
    else
      s.(waiters := s.waiters - {stream},
         resolved := Resolve(s.resolved, Members(Registered(s.waiters, stream)), ok))
  }

  function React(s: State, e: Event): State {
    match e
    case WindowUpdate(stream, _) => Settle(s, stream, true)
    case Gone(stream) => if stream == 0 then s else Settle(s, stream, false)
    case SettingsWindow(_) => s
  }

  function ReactAll(s: State, events: seq<Event>): State {
    if events == [] then s else React(ReactAll(s, events[..|events| - 1]), events[|events| - 1])
  }

  function ReadBatch(s: State, events: seq<Event>): State {
    ReactAll(ApplyAll(s, events), events)
  }

  /** A sleeping sender continues once its future is settled. */
  function Wake(s: State, i: nat): State
    requires i < |s.senders| && s.senders[i].phase.Asleep? && s.senders[i].phase.waiter in s.resolved
  {
    s.(senders := s.senders[i := s.senders[i].(phase := if s.resolved[s.senders[i].phase.waiter] then Ready else Failed)])
  }

  function Without(group: seq<nat>, w: nat): seq<nat> {
    if group == [] then []
    else Without(group[..|group| - 1], w) + (if group[|group| - 1] == w then [] else [group[|group| - 1]])
  }

  /** A sleeping sender is cancelled. The Broker takes its future out of the group; the Guest leaves it there. */
  function Cancel(s: State, i: nat, tidy: bool): State
    requires i < |s.senders| && s.senders[i].phase.Asleep?
  {
    var p := s.senders[i];
    var s1 := s.(senders := s.senders[i := p.(phase := Failed)],
                 resolved := Resolve(s.resolved, {p.phase.waiter}, false));
    if tidy then
      var rest := Without(Registered(s.waiters, p.stream), p.phase.waiter);
      s1.(waiters := if rest == [] then s.waiters - {p.stream} else s.waiters[p.stream := rest])
    else s1
  }

  // ---------------------------------------------------------------- runs

  datatype Action =
    | Start(stream: nat, data: seq<byte>, endStream: bool)
    | Region(sender: nat)
    | Read(events: seq<Event>)
    | Continue(sender: nat)
    | Abandon(sender: nat, tidy: bool)
    | Limit(frameSize: nat)

  predicate Shaped(s: State) {
    forall i :: 0 <= i < |s.senders| ==> s.senders[i].offset <= |s.senders[i].data|
  }

  function Step(s: State, a: Action): State
    requires Shaped(s)
  {
    match a
    case Start(stream, data, endStream) =>
      if stream == 0 then s else s.(senders := s.senders + [Sender(stream, data, endStream, 0, Ready)])
    case Region(i) => if i < |s.senders| && s.senders[i].phase.Ready? then Send(s, i) else s
    case Read(events) => ReadBatch(s, events)
    case Continue(i) =>
      if i < |s.senders| && s.senders[i].phase.Asleep? && s.senders[i].phase.waiter in s.resolved then Wake(s, i) else s
    case Abandon(i, tidy) => if i < |s.senders| && s.senders[i].phase.Asleep? then Cancel(s, i, tidy) else s
    case Limit(frameSize) => s.(frameSize := frameSize)
  }

  function Opened(connection: int, initialWindow: int, frameSize: nat): State {
    State(connection, initialWindow, map[], frameSize, [], map[], map[], 0, [])
  }

  function Run(s: State, actions: seq<Action>): (r: State)
    requires Shaped(s)
    ensures Shaped(r)
  {
    if actions == [] then s
    else
      var before := Run(s, actions[..|actions| - 1]);
      StepKeepsShape(before, actions[|actions| - 1]);
      Step(before, actions[|actions| - 1])
  }

  lemma StepKeepsShape(s: State, a: Action)
    requires Shaped(s)
    ensures Shaped(Step(s, a))
  {
    if a.Read? {
      ApplyKeepsSenders(s, a.events);
      ReactKeepsSenders(ApplyAll(s, a.events), a.events);
    }
  }

  lemma ApplyKeepsSenders(s: State, events: seq<Event>)
    ensures var r := ApplyAll(s, events);
            r.senders == s.senders && r.waiters == s.waiters && r.resolved == s.resolved && r.nextWaiter == s.nextWaiter
            && r.wire == s.wire
  {
  }

  lemma ReactKeepsSenders(s: State, events: seq<Event>)
    ensures var r := ReactAll(s, events);
            r.senders == s.senders && r.connection == s.connection && r.initialWindow == s.initialWindow
            && r.adjust == s.adjust && r.nextWaiter == s.nextWaiter && r.wire == s.wire
  {
  }

  // ---------------------------------------------------------------- what the wire carries

  /** The frames of sender `i`, in wire order. */
  function FramesOf(wire: seq<Frame>, i: nat): seq<Frame> {
    if wire == [] then []
    else FramesOf(wire[..|wire| - 1], i) + (if wire[|wire| - 1].sender == i then [wire[|wire| - 1]] else [])
  }

  function Payload(frames: seq<Frame>): seq<byte> {
    if frames == [] then [] else Payload(frames[..|frames| - 1]) + frames[|frames| - 1].payload
  }

  /** A sender's frames are a prefix of its data; only a final frame may, and then does, carry END_STREAM. */
  ghost predicate Delivers(p: Sender, frames: seq<Frame>) {
    && p.offset <= |p.data|
    && Payload(frames) == p.data[..p.offset]
    && (p.phase.Finished? ==> p.offset == |p.data| && frames != [])
    && (p.offset == |p.data| && p.data != [] ==> p.phase.Finished?)
    && (!p.phase.Finished? && p.data == [] ==> frames == [])
    && (forall k :: 0 <= k < |frames| ==>
          frames[k].endStream == (k == |frames| - 1 && p.phase.Finished? && p.endStream))
  }

  /** A frame fits the limits in force when it was cut, and is empty only for empty data. */
  predicate Fits(s: State, f: Frame) {
    && f.sender < |s.senders|
    && |f.payload| <= f.limit
    && (f.payload != [] ==> |f.payload| <= f.window)
    && (f.payload == [] ==> s.senders[f.sender].data == [])
  }

  ghost predicate WireInv(s: State) {
    && (forall i :: 0 <= i < |s.senders| ==> Delivers(s.senders[i], FramesOf(s.wire, i)))
    && (forall k :: 0 <= k < |s.wire| ==> Fits(s, s.wire[k]))
  }

  lemma AppendFrame(wire: seq<Frame>, f: Frame, i: nat)
    ensures FramesOf(wire + [f], i) == FramesOf(wire, i) + (if f.sender == i then [f] else [])
  {
    assert (wire + [f])[..|wire + [f]| - 1] == wire;
  }

  lemma {:induction false} NoFramesYet(wire: seq<Frame>, i: nat)
    requires forall k :: 0 <= k < |wire| ==> wire[k].sender < i
    ensures FramesOf(wire, i) == []
  {
    if wire != [] { NoFramesYet(wire[..|wire| - 1], i); }
  }

  lemma EmitDelivers(p: Sender, frames: seq<Frame>, f: Frame, size: nat)
    requires Delivers(p, frames) && p.phase.Ready?
    requires p.offset + size <= |p.data| && (size == 0 <==> p.data == [])
    requires f.payload == p.data[p.offset..p.offset + size]
    requires f.endStream == (p.endStream && p.offset + size == |p.data|)
    ensures Delivers(p.(offset := p.offset + size, phase := if p.offset + size == |p.data| then Finished else Ready),
                     frames + [f])
  {
    assert (frames + [f])[..|frames + [f]| - 1] == frames;
    assert p.data[..p.offset] + f.payload == p.data[..p.offset + size];
  }

  lemma EmitFits(s: State, i: nat, size: nat, k: nat)
    requires WireInv(s) && i < |s.senders| && k <= |s.wire|
    requires s.senders[i].offset + size <= |s.senders[i].data| && size <= FrameLimit(s)
    requires if s.senders[i].data == [] then size == 0 else 0 < size <= Window(s, s.senders[i].stream)
    ensures Fits(Emit(s, i, size), Emit(s, i, size).wire[k])
  {
    if k < |s.wire| {
      assert Fits(s, s.wire[k]) && Emit(s, i, size).wire[k] == s.wire[k];
    }
  }

  lemma EmitDeliversFor(s: State, i: nat, size: nat, j: nat)
    requires i < |s.senders| && j < |s.senders| && s.senders[i].phase.Ready?
    requires s.senders[i].offset + size <= |s.senders[i].data| && (size == 0 <==> s.senders[i].data == [])
    requires Delivers(s.senders[j], FramesOf(s.wire, j))
    ensures Delivers(Emit(s, i, size).senders[j], FramesOf(Emit(s, i, size).wire, j))
  {
    var s', p := Emit(s, i, size), s.senders[i];
    var f := s'.wire[|s.wire|];
    assert s'.wire == s.wire + [f];
    AppendFrame(s.wire, f, j);
    if j == i {
      EmitDelivers(p, FramesOf(s.wire, i), f, size);
      assert s'.senders[j] == p.(offset := p.offset + size, phase := if p.offset + size == |p.data| then Finished else Ready);
    } else {
      assert s'.senders[j] == s.senders[j];
      assert FramesOf(s'.wire, j) == FramesOf(s.wire, j);
    }
  }

  lemma EmitKeepsWireInv(s: State, i: nat, size: nat)
    requires WireInv(s) && i < |s.senders| && s.senders[i].phase.Ready?
    requires s.senders[i].offset + size <= |s.senders[i].data| && size <= FrameLimit(s)
    requires if s.senders[i].data == [] then size == 0 else 0 < size <= Window(s, s.senders[i].stream)
    ensures WireInv(Emit(s, i, size))
  {
    var s' := Emit(s, i, size);
    forall k | 0 <= k < |s'.wire| ensures Fits(s', s'.wire[k]) {
      EmitFits(s, i, size, k);
    }
    hide Fits, Delivers, FramesOf;
    forall j | 0 <= j < |s'.senders| ensures Delivers(s'.senders[j], FramesOf(s'.wire, j)) {
      EmitDeliversFor(s, i, size, j);
    }
  }

  /** Actions that put nothing on the wire only move unfinished senders between unfinished phases. */
  lemma QuietKeepsWireInv(s: State, s': State)
    requires WireInv(s) && s'.wire == s.wire && |s'.senders| == |s.senders|
    requires forall j :: 0 <= j < |s.senders| ==>
      || s'.senders[j] == s.senders[j]
      || (!s.senders[j].phase.Finished? && !s'.senders[j].phase.Finished?
          && s'.senders[j] == s.senders[j].(phase := s'.senders[j].phase))
    ensures WireInv(s')
  {
    forall j | 0 <= j < |s'.senders| ensures Delivers(s'.senders[j], FramesOf(s'.wire, j)) {
      assert Delivers(s.senders[j], FramesOf(s.wire, j));
    }
    forall k | 0 <= k < |s'.wire| ensures Fits(s', s'.wire[k]) {
      assert Fits(s, s.wire[k]);
    }
  }

  lemma StartKeepsWireInv(s: State, stream: nat, data: seq<byte>, endStream: bool)
    requires Shaped(s) && WireInv(s)
    ensures WireInv(Step(s, Start(stream, data, endStream)))
  {
    var s' := Step(s, Start(stream, data, endStream));
    forall k | 0 <= k < |s'.wire| ensures Fits(s', s'.wire[k]) && s'.wire[k].sender < |s.senders| {
      assert Fits(s, s.wire[k]);
    }
    NoFramesYet(s.wire, |s.senders|);
  }

  lemma RegionKeepsWireInv(s: State, i: nat)
    requires Shaped(s) && WireInv(s)
    ensures WireInv(Step(s, Region(i)))
  {
    if i < |s.senders| && s.senders[i].phase.Ready? {
      var p := s.senders[i];
      assert Delivers(p, FramesOf(s.wire, i));
      hide Delivers;
      if p.data == [] {
        EmitKeepsWireInv(s, i, 0);
      } else if Window(s, p.stream) > 0 {
        EmitKeepsWireInv(s, i, Min(Min(Window(s, p.stream), FrameLimit(s)), |p.data| - p.offset));
      } else {
        QuietKeepsWireInv(s, Step(s, Region(i)));
      }
    }
  }

  lemma StepKeepsWireInv(s: State, a: Action)
    requires Shaped(s) && WireInv(s)
    ensures WireInv(Step(s, a))
  {
    hide WireInv;
    match a
    case Start(stream, data, endStream) => StartKeepsWireInv(s, stream, data, endStream);
    case Region(i) => RegionKeepsWireInv(s, i);
    case Read(events) =>
      ApplyKeepsSenders(s, events);
      ReactKeepsSenders(ApplyAll(s, events), events);
      QuietKeepsWireInv(s, Step(s, a));
    case _ => QuietKeepsWireInv(s, Step(s, a));
  }

  // ---------------------------------------------------------------- no lost wake-up

  /** Sender `i` sleeps on a future nothing has settled yet. */
  predicate Sleeping(s: State, i: nat) {
    i < |s.senders| && s.senders[i].phase.Asleep? && s.senders[i].phase.waiter !in s.resolved
  }

  /** All futures handed out so far are below `bound`, and none is registered under two streams. */
  ghost predicate Below(s: State, bound: nat) {
    && (forall a, b, w | a in s.waiters && w in s.waiters[a] && b in s.waiters && w in s.waiters[b] :: a == b)
    && (forall w :: w in s.resolved ==> w < bound)
    && (forall stream, w :: stream in s.waiters && w in s.waiters[stream] ==> w < bound)
  }

  /** A sleeping sender is registered under its stream. */
  ghost predicate Findable(s: State) {
    && (forall i: nat :: i < |s.senders| ==> s.senders[i].stream != 0)
    && (forall i: nat :: Sleeping(s, i) ==> s.senders[i].phase.waiter in Registered(s.waiters, s.senders[i].stream))
    && (forall i: nat :: i < |s.senders| && s.senders[i].phase.Asleep? ==> s.senders[i].phase.waiter < s.nextWaiter)
    && Below(s, s.nextWaiter)
    && (forall i: nat, j: nat |
          Sleeping(s, i) && Sleeping(s, j) && s.senders[i].phase.waiter == s.senders[j].phase.waiter :: i == j)
  }

  /** No sender sleeps while its window is open. */
  ghost predicate NoneStranded(s: State) {
    forall i: nat :: Sleeping(s, i) ==> Window(s, s.senders[i].stream) <= 0
  }

  /** Some event of the batch notifies the waiters of `stream`. */
  predicate Notifies(events: seq<Event>, stream: nat) {
    exists k :: 0 <= k < |events| && events[k].WindowUpdate? && (events[k].stream == 0 || events[k].stream == stream)
  }

  predicate GrowsBySettings(events: seq<Event>) {
    exists k :: 0 <= k < |events| && events[k].SettingsWindow? && events[k].delta > 0
  }

  lemma {:induction false} WindowGrowthIsNotified(s: State, events: seq<Event>, stream: nat)
    requires !Notifies(events, stream) && !GrowsBySettings(events)
    ensures var r := ApplyAll(s, events);
            r.connection == s.connection && Adjustment(r, stream) == Adjustment(s, stream)
            && r.initialWindow <= s.initialWindow
  {
    if events != [] {
      var before := events[..|events| - 1];
      assert forall k :: 0 <= k < |before| ==> before[k] == events[k];
      WindowGrowthIsNotified(s, before, stream);
      assert events[|events| - 1] == events[|before|];
    }
  }

  /** After the notifications a waiter is either settled, or still registered and never notified. */
  lemma {:induction false} ReactSettles(s: State, events: seq<Event>, stream: nat, w: nat)
    requires stream != 0 && (w in s.resolved || w in Registered(s.waiters, stream))
    ensures var r := ReactAll(s, events);
            && (w in s.resolved ==> w in r.resolved)
            && (w in r.resolved || (w in Registered(r.waiters, stream) && !Notifies(events, stream)))
  {
    if events != [] {
      var before := events[..|events| - 1];
      ReactSettles(s, before, stream, w);
      var m := ReactAll(s, before);
      if w !in m.resolved {
        assert w in Registered(m.waiters, stream) ==> w in Everyone(m.waiters);
        assert forall k :: 0 <= k < |before| ==> events[k] == before[k];
      }
    }
  }

  lemma ReactStaysBelow(s: State, e: Event, bound: nat)
    requires Below(s, bound)
    ensures Below(React(s, e), bound)
  {
  }

  lemma {:induction false} ReactAllStaysBelow(s: State, events: seq<Event>, bound: nat)
    requires Below(s, bound)
    ensures Below(ReactAll(s, events), bound)
  {
    if events != [] {
      ReactAllStaysBelow(s, events[..|events| - 1], bound);
      ReactStaysBelow(ReactAll(s, events[..|events| - 1]), events[|events| - 1], bound);
    }
  }

  lemma ReadKeepsFindable(s: State, events: seq<Event>)
    requires Findable(s)
    ensures Findable(ReadBatch(s, events))
  {
    var m, r := ApplyAll(s, events), ReadBatch(s, events);
    ApplyKeepsSenders(s, events);
    ReactKeepsSenders(m, events);
    ReactAllStaysBelow(m, events, s.nextWaiter);
    forall i: nat | i < |s.senders| && s.senders[i].phase.Asleep?
      ensures s.senders[i].phase.waiter in s.resolved ==> s.senders[i].phase.waiter in r.resolved
      ensures Sleeping(r, i) ==> Sleeping(s, i) && s.senders[i].phase.waiter in Registered(r.waiters, s.senders[i].stream)
    {
      assert Sleeping(s, i) || s.senders[i].phase.waiter in s.resolved;
      ReactSettles(m, events, s.senders[i].stream, s.senders[i].phase.waiter);
    }
  }

  /** A batch that grows no window through SETTINGS strands nobody. */
  lemma ReadStrandsNobody(s: State, events: seq<Event>)
    requires Findable(s) && NoneStranded(s) && !GrowsBySettings(events)
    ensures NoneStranded(ReadBatch(s, events))
  {
    var m, r := ApplyAll(s, events), ReadBatch(s, events);
    ApplyKeepsSenders(s, events);
    ReactKeepsSenders(m, events);
    forall i: nat | Sleeping(r, i) ensures Window(r, r.senders[i].stream) <= 0 {
      var p := s.senders[i];
      assert Sleeping(s, i) || p.phase.waiter in s.resolved;
      ReactSettles(m, events, p.stream, p.phase.waiter);
      WindowGrowthIsNotified(s, events, p.stream);
    }
  }

  lemma {:induction false} WithoutKeepsOthers(group: seq<nat>, w: nat, v: nat)
    ensures v in Without(group, w) <==> v in group && v != w
  {
    if group != [] {
      WithoutKeepsOthers(group[..|group| - 1], w, v);
      assert group == group[..|group| - 1] + [group[|group| - 1]];
    }
  }

  lemma CancelKeepsFindable(s: State, i: nat, tidy: bool)
    requires Findable(s) && i < |s.senders| && s.senders[i].phase.Asleep?
    ensures Findable(Cancel(s, i, tidy))
  {
    var p, r := s.senders[i], Cancel(s, i, tidy);
    forall v ensures v in Without(Registered(s.waiters, p.stream), p.phase.waiter)
                     <==> v in Registered(s.waiters, p.stream) && v != p.phase.waiter {
      WithoutKeepsOthers(Registered(s.waiters, p.stream), p.phase.waiter, v);
    }
    forall j: nat | Sleeping(r, j)
      ensures Sleeping(s, j) && r.senders[j].phase.waiter in Registered(r.waiters, r.senders[j].stream)
    {
      assert j != i && r.senders[j] == s.senders[j];
    }
  }

  lemma EmitKeepsFindable(s: State, i: nat, size: nat)
    requires Findable(s) && i < |s.senders| && s.senders[i].phase.Ready?
    requires s.senders[i].offset + size <= |s.senders[i].data|
    ensures Findable(Emit(s, i, size)) && (NoneStranded(s) ==> NoneStranded(Emit(s, i, size)))
  {
    var r := Emit(s, i, size);
    forall j: nat | j < |s.senders|
      ensures Sleeping(r, j) ==> Sleeping(s, j) && r.senders[j] == s.senders[j]
      ensures r.senders[j].stream == s.senders[j].stream && (j == i ==> !r.senders[j].phase.Asleep?)
    {
    }
    forall stream ensures Window(r, stream) <= Window(s, stream) {}
  }

  lemma SleepKeepsFindable(s: State, i: nat)
    requires Shaped(s) && Findable(s) && i < |s.senders| && s.senders[i].phase.Ready?
    requires s.senders[i].data != [] && Window(s, s.senders[i].stream) <= 0
    ensures Findable(Send(s, i)) && (NoneStranded(s) ==> NoneStranded(Send(s, i)))
  {
    var r, w := Send(s, i), s.nextWaiter;
    forall stream ensures Registered(r.waiters, stream)
                          == Registered(s.waiters, stream) + if stream == s.senders[i].stream then [w] else [] {}
    forall j: nat | Sleeping(r, j)
      ensures Sleeping(s, j) || (j == i && r.senders[j].phase.waiter == w)
    {
    }
  }

  lemma SendKeepsFindable(s: State, i: nat)
    requires Shaped(s) && Findable(s) && i < |s.senders| && s.senders[i].phase.Ready?
    ensures Findable(Send(s, i)) && (NoneStranded(s) ==> NoneStranded(Send(s, i)))
  {
    var p := s.senders[i];
    hide Findable, NoneStranded;
    if p.data == [] {
      EmitKeepsFindable(s, i, 0);
    } else if Window(s, p.stream) > 0 {
      EmitKeepsFindable(s, i, Min(Min(Window(s, p.stream), FrameLimit(s)), |p.data| - p.offset));
    } else {
      SleepKeepsFindable(s, i);
    }
  }

  predicate NoSettingsGrowth(actions: seq<Action>) {
    forall k :: 0 <= k < |actions| && actions[k].Read? ==> !GrowsBySettings(actions[k].events)
  }

  /** Sleepers stay registered whatever happens; none is stranded unless windows grow through SETTINGS. */
  lemma StepStrandsNobody(s: State, a: Action)
    requires Shaped(s) && Findable(s)
    ensures Findable(Step(s, a))
    ensures NoneStranded(s) && (a.Read? ==> !GrowsBySettings(a.events)) ==> NoneStranded(Step(s, a))
  {
    match a
    case Read(events) =>
      ReadKeepsFindable(s, events);
      if NoneStranded(s) && !GrowsBySettings(events) { ReadStrandsNobody(s, events); }
    case Region(i) =>
      if i < |s.senders| && s.senders[i].phase.Ready? { SendKeepsFindable(s, i); }
    case Abandon(i, tidy) =>
      if i < |s.senders| && s.senders[i].phase.Asleep? {
        AbandonStrandsNobody(s, i, tidy);
      }
    case Limit(frameSize) =>
      LimitStrandsNobody(s, frameSize);
    case Start(_, _, _) => SameSleepers(s, Step(s, a));
    case Continue(_) => SameSleepers(s, Step(s, a));
  }

  lemma AbandonStrandsNobody(s: State, i: nat, tidy: bool)
    requires Shaped(s) && Findable(s) && i < |s.senders| && s.senders[i].phase.Asleep?
    ensures Findable(Step(s, Abandon(i, tidy))) && (NoneStranded(s) ==> NoneStranded(Step(s, Abandon(i, tidy))))
  {
    CancelKeepsFindable(s, i, tidy);
    hide Findable;
    forall j: nat | Sleeping(Step(s, Abandon(i, tidy)), j) ensures Sleeping(s, j) {}
  }

  lemma LimitStrandsNobody(s: State, frameSize: nat)
    requires Findable(s)
    ensures Findable(s.(frameSize := frameSize)) && (NoneStranded(s) ==> NoneStranded(s.(frameSize := frameSize)))
  {
    forall j: nat | Sleeping(s.(frameSize := frameSize), j) ensures Sleeping(s, j) {}
  }

  /** Starting and resuming senders leaves the sleeping ones, their futures and the windows alone. */
  lemma SameSleepers(s: State, r: State)
    requires Findable(s)
    requires r == s.(senders := r.senders) && |r.senders| >= |s.senders|
    requires forall j: nat :: j < |s.senders| ==>
      r.senders[j] == s.senders[j] || (!r.senders[j].phase.Asleep? && r.senders[j].stream == s.senders[j].stream)
    requires forall j: nat :: |s.senders| <= j < |r.senders| ==> r.senders[j].phase.Ready? && r.senders[j].stream != 0
    ensures Findable(r) && (NoneStranded(s) ==> NoneStranded(r))
  {
    forall j: nat | Sleeping(r, j) ensures Sleeping(s, j) && r.senders[j] == s.senders[j] {}
  }

  /** Settling two groups in turn settles their union. */
  lemma ResolveMore(resolved: map<nat, bool>, a: set<nat>, b: set<nat>, ok: bool)
    ensures Resolve(Resolve(resolved, a, ok), b, ok) == Resolve(resolved, a + b, ok)
  {
  }

  lemma SettleOne(resolved: map<nat, bool>, w: nat, ok: bool)
    ensures Resolve(resolved, {w}, ok) == if w in resolved then resolved else resolved[w := ok]
  {
  }

  // ---------------------------------------------------------------- the connection object

  /** What a step keeps: the frames always, the wake-ups unless windows grow through SETTINGS. */
  lemma StepKeepsBoth(s: State, a: Action)
    requires Shaped(s) && WireInv(s)
    ensures Shaped(Step(s, a)) && WireInv(Step(s, a))
    ensures Findable(s) && NoneStranded(s) && (a.Read? ==> !GrowsBySettings(a.events)) ==>
              Findable(Step(s, a)) && NoneStranded(Step(s, a))
  {
    hide WireInv, Findable, NoneStranded;
    StepKeepsWireInv(s, a);
    StepKeepsShape(s, a);
    if Findable(s) { StepStrandsNobody(s, a); }
  }

  /** The connection's windows, its senders and their window waiters. */
  class Connection {
    var connection: int
    var initialWindow: int
    var adjust: map<nat, int>
    var frameSize: nat
    var senders: seq<Sender>
    var windowWaiters: map<nat, seq<nat>>
    var resolved: map<nat, bool>
    var nextWaiter: nat
    var wire: seq<Frame>

    function Abstract(): State
      reads this
    {
      State(connection, initialWindow, adjust, frameSize, senders, windowWaiters, resolved, nextWaiter, wire)
    }

    /** The frames carry the senders' data, in order and within every limit. */
    ghost predicate Valid()
      reads this
    {
      Shaped(Abstract()) && WireInv(Abstract())
    }

    /** No sender sleeps while its window is open. */
    ghost predicate Awake()
      reads this
    {
      Findable(Abstract()) && NoneStranded(Abstract())
    }

    constructor (connection: int, initialWindow: int, frameSize: nat)
      ensures Abstract() == Opened(connection, initialWindow, frameSize) && Valid() && Awake()
    {
      this.connection, this.initialWindow, this.frameSize := connection, initialWindow, frameSize;
      adjust, senders, windowWaiters, resolved, nextWaiter, wire := map[], [], map[], map[], 0, [];
    }

    /** Cuts the next `size` bytes of sender `i` into a frame. */
    method EmitFrame(i: nat, size: nat)
      requires i < |senders| && senders[i].offset + size <= |senders[i].data|
      modifies this
      ensures Abstract() == Emit(old(Abstract()), i, size)
    {
      var p := senders[i];
      var own := if p.stream in adjust then adjust[p.stream] else 0;
      var last := p.offset + size == |p.data|;
      wire := wire + [Frame(i, p.data[p.offset..p.offset + size], p.endStream && last,
                            Min(connection, initialWindow + own), if frameSize == 0 then DEFAULT_FRAME_SIZE else frameSize)];
      connection := connection - size;
      adjust := adjust[p.stream := own - size];
      senders := senders[i := p.(offset := p.offset + size, phase := if last then Finished else Ready)];
    }

    /** One locked pass of the send loop of sender `i`. */
    method SendRegion(i: nat)
      requires i < |senders| && senders[i].phase.Ready? && senders[i].offset <= |senders[i].data|
      requires Valid()
      modifies this
      ensures Abstract() == Send(old(Abstract()), i)
      ensures Valid() && (old(Awake()) ==> Awake())
    {
      hide Shaped, WireInv, Findable, NoneStranded;
      StepKeepsBoth(Abstract(), Region(i));
      var p := senders[i];
      if p.data == [] {
        EmitFrame(i, 0);
        return;
      }
      var own := if p.stream in adjust then adjust[p.stream] else 0;
      var window := Min(connection, initialWindow + own);
      if window > 0 {
        var limit := if frameSize == 0 then DEFAULT_FRAME_SIZE else frameSize;
        EmitFrame(i, Min(Min(window, limit), |p.data| - p.offset));
        return;
      }
      var group := if p.stream in windowWaiters then windowWaiters[p.stream] else [];
      windowWaiters := windowWaiters[p.stream := group + [nextWaiter]];
      senders := senders[i := p.(phase := Asleep(nextWaiter))];
      nextWaiter := nextWaiter + 1;
    }

    /** Settles every future of a group that is still open. */
    method SettleGroup(group: seq<nat>, ok: bool)
      modifies this`resolved
      ensures resolved == Resolve(old(resolved), Members(group), ok)
    {
      ghost var settled: set<nat> := {};
      for k := 0 to |group|
        invariant forall w :: w in settled <==> w in group[..k]
        invariant resolved == Resolve(old(resolved), settled, ok)
      {
        assert group[..k + 1] == group[..k] + [group[k]];
        SettleOne(resolved, group[k], ok);
        if group[k] !in resolved {
          resolved := resolved[group[k] := ok];
        }
        ResolveMore(old(resolved), settled, {group[k]}, ok);
        settled := settled + {group[k]};
      }
      assert settled == Members(group);
    }

    /** Pops the waiters of one stream, or of all streams for stream 0, and settles them. */
    method NotifyWaiters(stream: nat, ok: bool)
      modifies this
      ensures Abstract() == Settle(old(Abstract()), stream, ok)
    {
      if stream == 0 {
        SettleEveryone(ok);
        windowWaiters := map[];
      } else {
        var group := if stream in windowWaiters then windowWaiters[stream] else [];
        windowWaiters := windowWaiters - {stream};
        SettleGroup(group, ok);
      }
    }

    method SettleEveryone(ok: bool)
      modifies this`resolved
      ensures resolved == Resolve(old(resolved), Everyone(windowWaiters), ok)
    {
      var todo := windowWaiters.Keys;
      ghost var settled: set<nat> := {};
      while todo != {}
        invariant todo <= windowWaiters.Keys
        invariant forall w :: w in settled <==> exists s :: s in windowWaiters && s !in todo && w in windowWaiters[s]
        invariant resolved == Resolve(old(resolved), settled, ok)
        decreases todo
      {
        var s :| s in todo;
        SettleGroup(windowWaiters[s], ok);
        ghost var group := Members(windowWaiters[s]);
        ResolveMore(old(resolved), settled, group, ok);
        settled := settled + group;
        todo := todo - {s};
      }
      assert settled == Everyone(windowWaiters);
    }

    method ApplyEvents(events: seq<Event>)
      modifies this
      ensures Abstract() == ApplyAll(old(Abstract()), events)
    {
      for k := 0 to |events|
        invariant Abstract() == ApplyAll(old(Abstract()), events[..k])
      {
        assert events[..k + 1][..k] == events[..k];
        match events[k]
        case WindowUpdate(stream, increment) =>
          if stream == 0 {
            connection := connection + increment;
          } else {
            adjust := adjust[stream := (if stream in adjust then adjust[stream] else 0) + increment];
          }
        case Gone(_) =>
        case SettingsWindow(delta) => initialWindow := initialWindow + delta;
      }
      assert events[..|events|] == events;
    }

    method NotifyEvents(events: seq<Event>)
      modifies this
      ensures Abstract() == ReactAll(old(Abstract()), events)
    {
      for k := 0 to |events|
        invariant Abstract() == ReactAll(old(Abstract()), events[..k])
      {
        assert events[..k + 1][..k] == events[..k];
        match events[k]
        case WindowUpdate(stream, _) => NotifyWaiters(stream, true);
        case Gone(stream) => if stream != 0 { NotifyWaiters(stream, false); }
        case SettingsWindow(_) =>
      }
      assert events[..|events|] == events;
    }

    /** The locked region of the read loop: all state changes, then all notifications. */
    method ReceiveData(events: seq<Event>)
      requires Valid()
      modifies this
      ensures Abstract() == ReadBatch(old(Abstract()), events)
      ensures Valid() && (old(Awake()) && !GrowsBySettings(events) ==> Awake())
    {
      hide Shaped, WireInv, Findable, NoneStranded;
      StepKeepsBoth(Abstract(), Read(events));
      ApplyEvents(events);
      NotifyEvents(events);
    }

    /** What the Broker's `finally` does for a sender cancelled while asleep; the Guest has no such clean-up. */
    method CancelSender(i: nat, tidy: bool)
      requires i < |senders| && senders[i].phase.Asleep?
      requires Valid()
      modifies this
      ensures Abstract() == Cancel(old(Abstract()), i, tidy)
      ensures Valid() && (old(Awake()) ==> Awake())
    {
      hide Shaped, WireInv, Findable, NoneStranded;
      StepKeepsBoth(Abstract(), Abandon(i, tidy));
      var p := senders[i];
      var waiter := p.phase.waiter;
      SettleOne(resolved, waiter, false);
      if waiter !in resolved {
        resolved := resolved[waiter := false];
      }
      senders := senders[i := p.(phase := Failed)];
      if tidy {
        var group := if p.stream in windowWaiters then windowWaiters[p.stream] else [];
        var rest: seq<nat> := [];
        for k := 0 to |group|
          invariant rest == Without(group[..k], waiter)
        {
          assert group[..k + 1][..k] == group[..k];
          if group[k] != waiter {
            rest := rest + [group[k]];
          }
        }
        assert group[..|group|] == group;
        windowWaiters := if rest == [] then windowWaiters - {p.stream} else windowWaiters[p.stream := rest];
      }
    }
  }
}
