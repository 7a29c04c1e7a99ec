// Internal redirects of a Broker's request, and the replay of its body.

module Redirects {
  import opened Prelude
  import opened Bytes

  // ---------------------------------------------------------------- the replayable body

  type Chunk = seq<byte>

  /** What happens at a body that is read from a stream. */
  datatype Event = Data(chunk: Chunk) | Ended | Failed | TeeClosed | GivenUp

  /** The promise that tells what can be replayed. */
  datatype Decision = Pending | Replay(chunks: seq<Chunk>) | NoReplay

  /** `tee` is what was forwarded; `listening` ends with the source. */
  datatype State = State(
    total: nat,
    replayable: bool,
    kept: seq<Chunk>,
    tee: seq<Chunk>,
    listening: bool,
    decision: Decision)

  const Initial: State := State(0, true, [], [], true, Pending)

  function Settle(s: State, d: Decision): State {
    if s.decision.Pending? then s.(decision := d) else s
  }

  function Step(s: State, e: Event, limit: nat): State {
    if !s.listening then s
    else
      match e
      case Data(chunk) =>
        var total := s.total + |chunk|;
        var over := total > limit;
        State(total, s.replayable && !over,
              if over then [] else if s.replayable then s.kept + [chunk] else s.kept,
              s.tee + [chunk], true, s.decision)
      case Ended => Settle(s.(listening := false), if s.replayable then Replay(s.kept) else NoReplay)
      case _ => Settle(s.(listening := false), NoReplay)
  }

  function Run(events: seq<Event>, limit: nat): State {
    if events == [] then Initial else Step(Run(events[..|events| - 1], limit), events[|events| - 1], limit)
  }

  /** The bytes of the source up to its end, and the event that ended it. */
  function Source(events: seq<Event>): (seq<byte>, Option<Event>) {
    if events == [] then ([], None)
    else
      var (bytes, stop) := Source(events[..|events| - 1]);
      var e := events[|events| - 1];
      if stop.Some? then (bytes, stop)
      else if e.Data? then (bytes + e.chunk, None)
      else (bytes, Some(e))
  }

  /**
   * What is forwarded is the source up to its end, and the replay is exactly the whole body
   * when the source ended by itself within the limit; in every other case there is none.
   */
  lemma {:induction false} ReplayExactly(events: seq<Event>, limit: nat)
    ensures var s := Run(events, limit);
            var (bytes, stop) := Source(events);
            && Flat(s.tee) == bytes && s.total == |bytes|
            && (s.listening <==> stop.None?) && (s.decision.Pending? <==> stop.None?)
            && (s.decision.Replay? <==> stop == Some(Ended) && |bytes| <= limit)
            && (s.decision.Replay? ==> Flat(s.decision.chunks) == bytes)
            && (s.listening ==> s.replayable == (|bytes| <= limit) && (s.replayable ==> Flat(s.kept) == bytes))
  {
    if events != [] {
      var init, e := events[..|events| - 1], events[|events| - 1];
      ReplayExactly(init, limit);
      var s := Run(init, limit);
      if s.listening && e.Data? {
        FlatAppend(s.tee, e.chunk);
        FlatAppend(s.kept, e.chunk);
      }
    }
  }

  /** Once settled, the decision stays, whoever asks and however often. */
  lemma {:induction false} DecisionStays(events: seq<Event>, more: seq<Event>, limit: nat)
    requires !Run(events, limit).decision.Pending?
    ensures Run(events + more, limit) == Run(events, limit)
  {
    ReplayExactly(events, limit);
    if more == [] {
      assert events + more == events;
    } else {
      var init := more[..|more| - 1];
      assert (events + more)[..|events + more| - 1] == events + init;
      DecisionStays(events, init, limit);
    }
  }

  class ReplayableBody {
    const limit: nat
    var total: nat
    var replayable: bool
    var kept: seq<Chunk>
    var tee: seq<Chunk>
    var listening: bool
    var decision: Decision

    ghost function Now(): State
      reads this
    {
      State(total, replayable, kept, tee, listening, decision)
    }

    constructor (limit: nat)
      ensures Now() == Initial && this.limit == limit
    {
      this.limit := limit;
      total, replayable, kept, tee, listening, decision := 0, true, [], [], true, Pending;
    }

    method OnData(chunk: Chunk)
      modifies this
      ensures Now() == Step(old(Now()), Data(chunk), limit)
    {
      if !listening { return; }
      total := total + |chunk|;
      if total > limit {
        replayable, kept := false, [];
      } else if replayable {
        kept := kept + [chunk];
      }
      tee := tee + [chunk];
    }

    method OnEnd()
      modifies this
      ensures Now() == Step(old(Now()), Ended, limit)
    {
      if !listening { return; }
      listening := false;
      SettleDecision(if replayable then Replay(kept) else NoReplay);
    }

    /** The source failed, the tee closed, or the request was given up. */
    method OnStop(e: Event)
      requires e.Failed? || e.TeeClosed? || e.GivenUp?
      modifies this
      ensures Now() == Step(old(Now()), e, limit)
    {
      if !listening { return; }
      listening := false;
      SettleDecision(NoReplay);
    }

    method SettleDecision(d: Decision)
      modifies this`decision
      ensures Now() == Settle(old(Now()), d)
    {
      if decision.Pending? { decision := d; }
    }
  }

  /** A body given as chunks: it is kept as far as it fits. */
  method KeepChunks(body: seq<Chunk>, limit: nat) returns (d: Decision)
    ensures d == if |Flat(body)| <= limit then Replay(body) else NoReplay
  {
    var kept: seq<Chunk> := [];
    var total := 0;
    for n := 0 to |body|
      invariant kept == body[..n] && total == |Flat(body[..n])| && total <= limit
    {
      assert body[..n + 1] == body[..n] + [body[n]];
      FlatAppend(body[..n], body[n]);
      total := total + |body[n]|;
      if total > limit {
        FlatGrows(body, n + 1);
        return NoReplay;
      }
      kept := kept + [body[n]];
    }
    assert body[..|body|] == body;
    return Replay(kept);
  }

  lemma FlatGrows(body: seq<Chunk>, n: nat)
    requires n <= |body|
    ensures |Flat(body[..n])| <= |Flat(body)|
  {
    FlatConcat(body[..n], body[n..]);
    assert body[..n] + body[n..] == body;
  }

  // ---------------------------------------------------------------- following redirects

  /** What one hop meets; the flags say when the caller's signal is found aborted. */
  datatype Hop = Hop(
    abortedBefore: bool,
    response: Option<bool>,     // whether the response is a redirect that can be followed, or None if the request fails
    abortedAfter: bool,
    abortedWaiting: bool,       // while it is not known yet what can be replayed
    abortedReplay: bool)

  datatype Result = Response(hop: nat) | LimitExceeded | Aborted | RequestFailed

  /** The bodies that went to the wire, the responses that were destroyed, and the result. */
  datatype Trace = Trace(bodies: seq<seq<byte>>, destroyed: seq<nat>, result: Result)

  function Sent(body: seq<byte>, t: Trace): Trace {
    t.(bodies := [body] + t.bodies)
  }

  function Destroyed(hop: nat, t: Trace): Trace {
    t.(destroyed := [hop] + t.destroyed)
  }

  /** `requestWithInternalRedirects`; `replay` is what can be sent again, if anything. */
  function Follow(hops: seq<Hop>, hop: nat, max: nat, body: seq<byte>, replay: Option<seq<byte>>): Trace
    requires hop <= max < |hops|
    decreases max - hop
  {
    var h := hops[hop];
    if h.abortedBefore then Trace([], [], Aborted)
    else if h.response.None? then Trace([body], [], RequestFailed)
    else if h.abortedAfter then Trace([body], [hop], Aborted)
    else if !h.response.value then Trace([body], [], Response(hop))
    else if hop >= max then Trace([body], [hop], LimitExceeded)
    else if h.abortedWaiting then Trace([body], [], Aborted)
    else if h.abortedReplay then Trace([body], [hop], Aborted)
    else if replay.None? then Trace([body], [], Response(hop))
    else Sent(body, Destroyed(hop, Follow(hops, hop + 1, max, replay.value, replay)))
  }

  predicate AllAre(bodies: seq<seq<byte>>, body: seq<byte>) {
    forall i :: 0 <= i < |bodies| ==> bodies[i] == body
  }

  /** One more request than redirects at most, and each carries the same bytes as the first. */
  lemma {:induction false} EveryHopCarriesTheBody(hops: seq<Hop>, hop: nat, max: nat, body: seq<byte>, replay: Option<seq<byte>>)
    requires hop <= max < |hops| && (replay.Some? ==> replay.value == body)
    ensures var t := Follow(hops, hop, max, body, replay);
            && |t.bodies| <= max + 1 - hop && AllAre(t.bodies, body)
            && (replay.None? ==> |t.bodies| <= 1)
    decreases max - hop
  {
    var t := Follow(hops, hop, max, body, replay);
    if t != Trace(t.bodies, [], t.result) && replay.Some? && hop < max {
      EveryHopCarriesTheBody(hops, hop + 1, max, body, replay);
    }
  }

  /** The caller aborted while it was not known yet what can be replayed. */
  predicate AbortedWaitingAt(hops: seq<Hop>, k: nat)
    requires k < |hops|
  {
    var h := hops[k];
    !h.abortedBefore && h.response == Some(true) && !h.abortedAfter && h.abortedWaiting
  }

  /** The response of hop k, the last one, is neither returned nor destroyed. */
  predicate Leaks(hops: seq<Hop>, t: Trace, k: nat)
    requires k < |hops|
  {
    hops[k].response.Some? && k !in t.destroyed && t.result != Response(k)
  }

  /**
   * Every response but the returned one is destroyed, with one exception: the last one of a
   * request that is aborted while the replay is awaited.
   */
  lemma {:induction false} ResponsesAreReturnedOrDestroyed(hops: seq<Hop>, hop: nat, max: nat, body: seq<byte>, replay: Option<seq<byte>>)
    requires hop <= max < |hops|
    ensures var t := Follow(hops, hop, max, body, replay); hop + |t.bodies| <= max + 1
    ensures var t := Follow(hops, hop, max, body, replay); forall i :: hop <= i < hop + |t.bodies| - 1 ==> i in t.destroyed
    ensures var t := Follow(hops, hop, max, body, replay); forall i :: i in t.destroyed ==> hop <= i < hop + |t.bodies| && t.result != Response(i)
    ensures var t := Follow(hops, hop, max, body, replay);
            t.bodies != [] ==>
              var k := hop + |t.bodies| - 1;
              Leaks(hops, t, k) <==> k < max && AbortedWaitingAt(hops, k)
    decreases max - hop
  {
    var t := Follow(hops, hop, max, body, replay);
    var h := hops[hop];
    if !h.abortedBefore && h.response == Some(true) && !h.abortedAfter && hop < max && !h.abortedWaiting && !h.abortedReplay && replay.Some? {
      ResponsesAreReturnedOrDestroyed(hops, hop + 1, max, replay.value, replay);
      var rest := Follow(hops, hop + 1, max, replay.value, replay);
      assert t == Trace([body] + rest.bodies, [hop] + rest.destroyed, rest.result);
      assert rest.result.Response? ==> rest.result.hop != hop by { ReturnedLater(hops, hop + 1, max, replay.value, replay); }
    }
  }

  lemma {:induction false} ReturnedLater(hops: seq<Hop>, hop: nat, max: nat, body: seq<byte>, replay: Option<seq<byte>>)
    requires hop <= max < |hops|
    ensures var t := Follow(hops, hop, max, body, replay); t.result.Response? ==> t.result.hop >= hop
    decreases max - hop
  {
    if hop < max && replay.Some? { ReturnedLater(hops, hop + 1, max, replay.value, replay); }
  }

  /** A streamed body within the limit is replayed as it was forwarded: every request carries the same bytes. */
  lemma {:induction false} StreamedBodyIsReplayed(events: seq<Event>, limit: nat, hops: seq<Hop>, max: nat)
    requires max < |hops| && Source(events).1.Some?
    ensures var s := Run(events, limit);
            var replay := if s.decision.Replay? then Some(Flat(s.decision.chunks)) else None;
            var t := Follow(hops, 0, max, Flat(s.tee), replay);
            && |t.bodies| <= max + 1 && AllAre(t.bodies, Source(events).0)
            && (Source(events).1 != Some(Ended) || |Source(events).0| > limit ==> |t.bodies| <= 1)
  {
    ReplayExactly(events, limit);
    var s := Run(events, limit);
    var replay := if s.decision.Replay? then Some(Flat(s.decision.chunks)) else None;
    EveryHopCarriesTheBody(hops, 0, max, Flat(s.tee), replay);
  }

  // ---------------------------------------------------------------- where it ends

  /** Hop k gets a redirect, nobody aborts, redirects are left, and there is a body to send again. */
  predicate GoesOn(hops: seq<Hop>, k: nat, max: nat, replayable: bool)
    requires k < |hops|
  {
    var h := hops[k];
    && !h.abortedBefore && h.response == Some(true) && !h.abortedAfter && k < max
    && !h.abortedWaiting && !h.abortedReplay && replayable
  }

  /** The result at the first hop that does not go on. */
  predicate EndsWith(hops: seq<Hop>, k: nat, max: nat, replayable: bool, r: Result)
    requires k < |hops|
  {
    var h := hops[k];
    var alive := !h.abortedBefore && !h.abortedAfter;
    match r
    case Response(i) =>
      i == k && alive && h.response.Some?
      && (h.response.value ==> k < max && !h.abortedWaiting && !h.abortedReplay && !replayable)
    case LimitExceeded => alive && h.response == Some(true) && k >= max
    case RequestFailed => !h.abortedBefore && h.response.None?
    case Aborted =>
      || h.abortedBefore || (h.response.Some? && h.abortedAfter)
      || (h.response == Some(true) && k < max && (h.abortedWaiting || h.abortedReplay))
  }

  /** Redirects are followed as long as they can be: the request ends at the first hop that does not go on, as that hop says. */
  lemma {:induction false} FollowsExactly(hops: seq<Hop>, hop: nat, max: nat, body: seq<byte>, replay: Option<seq<byte>>) returns (k: nat)
    requires hop <= max < |hops|
    ensures hop <= k <= max && (forall i :: hop <= i < k ==> GoesOn(hops, i, max, replay.Some?)) && !GoesOn(hops, k, max, replay.Some?)
    ensures var t := Follow(hops, hop, max, body, replay);
            && EndsWith(hops, k, max, replay.Some?, t.result)
            && |t.bodies| == k - hop + (if hops[k].abortedBefore then 0 else 1)
            && (t.bodies != [] ==> t.bodies[0] == body) && (replay.Some? ==> AllAre(t.bodies[if t.bodies == [] then 0 else 1..], replay.value))
    decreases max - hop
  {
    k := hop;
    if GoesOn(hops, hop, max, replay.Some?) {
      k := FollowsExactly(hops, hop + 1, max, replay.value, replay);
      var rest := Follow(hops, hop + 1, max, replay.value, replay);
      assert Follow(hops, hop, max, body, replay) == Trace([body] + rest.bodies, [hop] + rest.destroyed, rest.result);
    }
  }

  /** There is one such result. */
  lemma EndIsUnique(hops: seq<Hop>, k: nat, max: nat, replayable: bool, r: Result, q: Result)
    requires k < |hops| && !GoesOn(hops, k, max, replayable) && EndsWith(hops, k, max, replayable, r) && EndsWith(hops, k, max, replayable, q)
    ensures r == q
  {}
}
