// The Host's hop-local route authorizer: two TTL caches, single-flight pending
// decisions, a generation token and per-pair revocation.

module Authorizer {
  import opened Prelude

  type Key = string

  datatype Decision = Allow | Deny

  datatype Expiry = At(time: int) | Never

  /** True when a cache entry with this expiry still answers at `now`. */
  predicate Live(expiry: Expiry, now: int) {
    expiry.Never? || now < expiry.time
  }

  // ---------------------------------------------------------------- callback results

  datatype Ttl = Absent | Infinite | Number(millis: int) | NotASafeInteger

  /** What the callback may hand back: a legacy string, a record, or garbage. */
  datatype Outcome = Legacy(verdict: Decision) | Record(decision: Option<Decision>, ttl: Ttl) | Malformed

  datatype Options = Options(allowTtl: nat, denyTtl: nat)

  datatype Normalized = Normalized(decision: Decision, expiry: Option<Expiry>)

  const MAX_SAFE_INTEGER := 0x1F_FFFF_FFFF_FFFF

  function ClassExpiry(decision: Decision, options: Options, now: int): Option<Expiry> {
    var ttl := if decision.Allow? then options.allowTtl else options.denyTtl;
    if ttl == 0 then None else Some(At(now + ttl))
  }

  /** Normalizes a callback result once; `None` is the thrown protocol error. */
  function Normalize(outcome: Outcome, options: Options, now: int): Option<Normalized> {
    match outcome
    case Malformed => None
    case Legacy(d) => Some(Normalized(d, ClassExpiry(d, options, now)))
    case Record(None, _) => None
    case Record(Some(d), Absent) => Some(Normalized(d, ClassExpiry(d, options, now)))
    case Record(Some(d), Infinite) => Some(Normalized(d, Some(Never)))
    case Record(Some(_), NotASafeInteger) => None
    case Record(Some(d), Number(ms)) =>
      if ms < 0 || ms > MAX_SAFE_INTEGER then None
      else if ms == 0 then Some(Normalized(d, None))
      else if !(-MAX_SAFE_INTEGER <= now + ms <= MAX_SAFE_INTEGER) then None
      else Some(Normalized(d, Some(At(now + ms))))
  }

  /**
   * A result that may be cached is live at the moment it is inserted, whatever asked for it;
   * only an explicit infinite override never expires, and a finite override stays a safe integer.
   */
  lemma CacheableResultIsLive(outcome: Outcome, options: Options, now: int)
    requires Normalize(outcome, options, now).Some? && Normalize(outcome, options, now).value.expiry.Some?
    ensures var expiry := Normalize(outcome, options, now).value.expiry.value;
            && (expiry.Never? || now < expiry.time)
            && (expiry.Never? <==> outcome.Record? && outcome.ttl.Infinite?)
            && (outcome.Record? && outcome.ttl.Number? ==> expiry == At(now + outcome.ttl.millis)
                                                           && expiry.time <= MAX_SAFE_INTEGER)
  {
  }

  /** The decision the callback itself gave. */
  predicate Says(outcome: Outcome, d: Decision) {
    outcome == Legacy(d) || (outcome.Record? && outcome.decision == Some(d))
  }

  /** No override, an infinite one, or a safe integer from 0 on that gives a safe expiry. */
  predicate ValidTtl(ttl: Ttl, now: int) {
    match ttl
    case Absent => true
    case Infinite => true
    case NotASafeInteger => false
    case Number(ms) => ms == 0 || (0 < ms <= 9007199254740991 && -9007199254740991 <= now + ms <= 9007199254740991)
  }

  predicate Accepted(outcome: Outcome, now: int) {
    || outcome.Legacy?
    || (outcome.Record? && outcome.decision.Some? && ValidTtl(outcome.ttl, now))
  }

  /** An outcome that says d may be cached until e: by its override, or else by the class of d. */
  predicate Expires(outcome: Outcome, d: Decision, options: Options, now: int, e: Expiry) {
    if outcome.Record? && !outcome.ttl.Absent? then
      || (outcome.ttl.Infinite? && e == Never)
      || (outcome.ttl.Number? && outcome.ttl.millis > 0 && e == At(now + outcome.ttl.millis))
    else
      || (d == Allow && options.allowTtl > 0 && e == At(now + options.allowTtl))
      || (d == Deny && options.denyTtl > 0 && e == At(now + options.denyTtl))
  }

  /** What normalizing keeps: it refuses just what is not accepted, gives the callback's own decision, and its expiry. */
  lemma NormalizesExactly(outcome: Outcome, options: Options, now: int)
    ensures Normalize(outcome, options, now).Some? <==> Accepted(outcome, now)
    ensures Accepted(outcome, now) ==>
              var n := Normalize(outcome, options, now).value;
              && Says(outcome, n.decision) && (forall d :: Says(outcome, d) ==> d == n.decision)
              && (forall e :: n.expiry == Some(e) <==> Expires(outcome, n.decision, options, now, e))
  {}

  // ---------------------------------------------------------------- abstract state

  /** One callback that has begun and not yet returned. */
  datatype Pending = Pending(key: Key, generation: nat, revoked: bool)

  /**
   * The authorizer's fields. `inFlight` holds the bodies still awaiting their
   * callback, named by the order in which they began; `shared` is the map of
   * single-flight decisions, whose values name such bodies.
   */
  datatype State = State(
    allowed: map<Key, Expiry>,
    denied: map<Key, Expiry>,
    shared: map<Key, nat>,
    generation: nat,
    inFlight: map<nat, Pending>,
    nextId: nat)

  const Initial := State(map[], map[], map[], 0, map[], 0)

  /** What one call of authorizeHop does for its caller. */
  datatype Reply = Answer(allow: bool) | Join(id: nat) | Start(id: nat)

  /** What a returning callback does to the callers sharing it. */
  datatype Settled = Resolve(allow: bool) | Reject

  function DropExpired(cache: map<Key, Expiry>, key: Key, now: int): map<Key, Expiry> {
    if key in cache && !Live(cache[key], now) then cache - {key} else cache
  }

  function Authorize(s: State, key: Key, now: int): (State, Reply) {
    var s1 := s.(allowed := DropExpired(s.allowed, key, now));
    if key in s1.allowed then (s1, Answer(true))
    else
      var s2 := s1.(denied := DropExpired(s1.denied, key, now));
      if key in s2.denied then (s2, Answer(false))
      else if key in s2.shared then (s2, Join(s2.shared[key]))
      else
        (s2.(shared := s2.shared[key := s2.nextId],
             inFlight := s2.inFlight[s2.nextId := Pending(key, s2.generation, false)],
             nextId := s2.nextId + 1),
         Start(s2.nextId))
  }

  function Insert(cache: map<Key, Expiry>, key: Key, expiry: Option<Expiry>): map<Key, Expiry> {
    if expiry.None? then cache else cache[key := expiry.value]
  }

  predicate Stale(s: State, id: nat)
    requires id in s.inFlight
  {
    s.inFlight[id].revoked || s.inFlight[id].generation != s.generation
  }

  /** The callback of body `id` returned; `None` stands for a throw. */
  function Return(s: State, id: nat, result: Option<Normalized>): (State, Settled)
    requires id in s.inFlight
  {
    var key := s.inFlight[id].key;
    var s1 := s.(inFlight := s.inFlight - {id},
                 shared := if key in s.shared && s.shared[key] == id then s.shared - {key} else s.shared);
    if result.None? then (s1, Reject)
    else if Stale(s, id) then (s1, Resolve(false))
    else if result.value.decision.Allow? then
      (s1.(allowed := Insert(s.allowed, key, result.value.expiry)), Resolve(true))
    else
      (s1.(denied := Insert(s.denied, key, result.value.expiry)), Resolve(false))
  }

  function RevokePair(s: State, key: Key): (State, bool) {
    var pending := key in s.shared;
    var s1 := if pending && s.shared[key] in s.inFlight
              then s.(inFlight := s.inFlight[s.shared[key] := s.inFlight[s.shared[key]].(revoked := true)])
              else s;
    (s1.(shared := s.shared - {key}, allowed := s.allowed - {key}, denied := s.denied - {key}),
     key in s.allowed || key in s.denied || pending)
  }

  function InvalidateAll(s: State): State {
    s.(generation := s.generation + 1, allowed := map[], denied := map[])
  }

  // ---------------------------------------------------------------- runs and their history

  datatype Action =
    | Call(key: Key, now: int)
    | Returned(id: nat, outcome: Outcome, now: int)
    | Threw(id: nat)
    | Revoke(key: Key)
    | Invalidate

  /** What a callback handed back, and when. */
  datatype Raw = Raw(outcome: Outcome, at: int)

  /** The observable history of a run. */
  datatype Event =
    | Looked(key: Key, now: int)
    | Began(id: nat, key: Key)
    | Finished(id: nat, key: Key, raw: Option<Raw>, result: Option<Normalized>)
    | Revoked(key: Key)
    | Invalidated

  datatype World = World(state: State, log: seq<Event>)

  /** One step of a run; an action that is not enabled changes nothing. */
  function Step(options: Options, w: World, a: Action): World {
    match a
    case Call(key, now) =>
      var (s, reply) := Authorize(w.state, key, now);
      World(s, w.log + [Looked(key, now)] + (if reply.Start? then [Began(reply.id, key)] else []))
    case Returned(id, outcome, now) =>
      if id !in w.state.inFlight then w else Finish(w, id, Some(Raw(outcome, now)), options)
    case Threw(id) =>
      if id !in w.state.inFlight then w else Finish(w, id, None, options)
    case Revoke(key) =>
      World(RevokePair(w.state, key).0, w.log + [Revoked(key)])
    case Invalidate =>
      World(InvalidateAll(w.state), w.log + [Invalidated])
  }

  function Normal(raw: Option<Raw>, options: Options): Option<Normalized> {
    if raw.None? then None else Normalize(raw.value.outcome, options, raw.value.at)
  }

  function Finish(w: World, id: nat, raw: Option<Raw>, options: Options): World
    requires id in w.state.inFlight
  {
    var result := Normal(raw, options);
    World(Return(w.state, id, result).0, w.log + [Finished(id, w.state.inFlight[id].key, raw, result)])
  }

  function Run(options: Options, actions: seq<Action>): World {
    if actions == [] then World(Initial, [])
    else Step(options, Run(options, actions[..|actions| - 1]), actions[|actions| - 1])
  }

  // ---------------------------------------------------------------- the meaning of a history

  /** Body `id` began for `key` and nothing has made its outcome irrelevant since. */
  predicate Fresh(log: seq<Event>, id: nat, key: Key) {
    if log == [] then false
    else
      match log[|log| - 1]
      case Began(i, k) => (i == id && k == key) || Fresh(log[..|log| - 1], id, key)
      case Revoked(k) => k != key && Fresh(log[..|log| - 1], id, key)
      case Invalidated => false
      case _ => Fresh(log[..|log| - 1], id, key)
  }

  /** The decision on `key` a caller may still rely on after `log`, with its expiry. */
  function Remembered(log: seq<Event>, key: Key): Option<(Decision, Expiry)> {
    if log == [] then None
    else
      var before := log[..|log| - 1];
      match log[|log| - 1]
      case Invalidated => None
      case Revoked(k) => if k == key then None else Remembered(before, key)
      case Looked(k, now) =>
        var r := Remembered(before, key);
        if k == key && r.Some? && !Live(r.value.1, now) then None else r
      case Finished(id, k, _, Some(n)) =>
        if k == key && n.expiry.Some? && Fresh(before, id, key) then Some((n.decision, n.expiry.value))
        else Remembered(before, key)
      case _ => Remembered(before, key)
  }

  /** The body that callers of `key` would share after `log`. */
  function Sharing(log: seq<Event>, key: Key): Option<nat> {
    if log == [] then None
    else
      var before := log[..|log| - 1];
      match log[|log| - 1]
      case Began(id, k) => if k == key then Some(id) else Sharing(before, key)
      case Revoked(k) => if k == key then None else Sharing(before, key)
      case Finished(id, _, _, _) => if Sharing(before, key) == Some(id) then None else Sharing(before, key)
      case _ => Sharing(before, key)
  }

  function Cached(s: State, key: Key): Option<(Decision, Expiry)> {
    if key in s.allowed then Some((Allow, s.allowed[key]))
    else if key in s.denied then Some((Deny, s.denied[key]))
    else None
  }

  /** The invariant tying the fields to the history. */
  ghost predicate Faithful(s: State, log: seq<Event>) {
    && SingleFlight(s)
    && (forall key :: Cached(s, key) == Remembered(log, key))
    && (forall key :: Sharing(log, key) == if key in s.shared then Some(s.shared[key]) else None)
    && (forall id :: id in s.inFlight ==> (!Stale(s, id) <==> Fresh(log, id, s.inFlight[id].key)))
    && (forall id: nat, key :: Fresh(log, id, key) ==> id < s.nextId)
    && (forall id: nat, key :: Fresh(log, id, key) && id in s.inFlight ==> key == s.inFlight[id].key)
  }

  /** The three key sets are disjoint and at most one body per key can still take effect. */
  ghost predicate SingleFlight(s: State) {
    && s.allowed.Keys !! s.denied.Keys
    && s.shared.Keys !! s.allowed.Keys
    && s.shared.Keys !! s.denied.Keys
    && (forall key :: key in s.shared ==> s.shared[key] in s.inFlight && s.inFlight[s.shared[key]].key == key)
    && (forall id :: id in s.inFlight ==> id < s.nextId && s.inFlight[id].generation <= s.generation)
    && (forall id :: id in s.inFlight && !s.inFlight[id].revoked ==>
          s.inFlight[id].key in s.shared && s.shared[s.inFlight[id].key] == id)
  }

  // ---------------------------------------------------------------- every step keeps the invariant

  lemma AppendOne(log: seq<Event>, e: Event)
    ensures (log + [e])[|log + [e]| - 1] == e && (log + [e])[..|log + [e]| - 1] == log
  {
  }

  lemma LookKeepsFaithful(s: State, log: seq<Event>, key: Key, now: int)
    requires Faithful(s, log)
    ensures Faithful(s.(allowed := DropExpired(s.allowed, key, now), denied := DropExpired(s.denied, key, now)),
                     log + [Looked(key, now)])
  {
    AppendOne(log, Looked(key, now));
  }

  lemma BeginKeepsFaithful(s: State, log: seq<Event>, key: Key)
    requires Faithful(s, log) && key !in s.allowed && key !in s.denied && key !in s.shared
    ensures Faithful(s.(shared := s.shared[key := s.nextId],
                        inFlight := s.inFlight[s.nextId := Pending(key, s.generation, false)],
                        nextId := s.nextId + 1),
                     log + [Began(s.nextId, key)])
  {
    var log' := log + [Began(s.nextId, key)];
    AppendOne(log, Began(s.nextId, key));
    forall k ensures Remembered(log', k) == Remembered(log, k) {}
    forall id: nat, k ensures Fresh(log', id, k) == ((id == s.nextId && k == key) || Fresh(log, id, k)) {}
  }

  lemma CallKeepsFaithful(options: Options, w: World, key: Key, now: int)
    requires Faithful(w.state, w.log)
    ensures var w' := Step(options, w, Call(key, now)); Faithful(w'.state, w'.log)
  {
    var s, log, w' := w.state, w.log, Step(options, w, Call(key, now));
    var s1 := s.(allowed := DropExpired(s.allowed, key, now), denied := DropExpired(s.denied, key, now));
    LookKeepsFaithful(s, log, key, now);
    if Authorize(s, key, now).1.Start? {
      BeginKeepsFaithful(s1, log + [Looked(key, now)], key);
    } else {
      assert w'.log == log + [Looked(key, now)];
      assert key in DropExpired(s.allowed, key, now) ==> key !in s.denied;
    }
  }

  lemma FinishKeepsSingleFlight(s: State, id: nat, result: Option<Normalized>)
    requires SingleFlight(s) && id in s.inFlight
    ensures SingleFlight(Return(s, id, result).0)
  {
  }

  lemma FinishKeepsCache(s: State, log: seq<Event>, id: nat, raw: Option<Raw>, result: Option<Normalized>, key: Key)
    requires Faithful(s, log) && id in s.inFlight
    ensures Cached(Return(s, id, result).0, key)
            == Remembered(log + [Finished(id, s.inFlight[id].key, raw, result)], key)
  {
    AppendOne(log, Finished(id, s.inFlight[id].key, raw, result));
    assert Cached(s, key) == Remembered(log, key);
    assert !Stale(s, id) <==> Fresh(log, id, s.inFlight[id].key);
  }

  lemma FinishKeepsFaithful(w: World, id: nat, raw: Option<Raw>, options: Options)
    requires Faithful(w.state, w.log) && id in w.state.inFlight
    ensures Faithful(Finish(w, id, raw, options).state, Finish(w, id, raw, options).log)
  {
    hide Normalize;
    var s, w' := w.state, Finish(w, id, raw, options);
    var result := Normal(raw, options);
    AppendOne(w.log, Finished(id, s.inFlight[id].key, raw, result));
    FinishKeepsSingleFlight(s, id, result);
    forall key ensures Cached(w'.state, key) == Remembered(w'.log, key) {
      FinishKeepsCache(s, w.log, id, raw, result, key);
    }
    forall i: nat, k ensures Fresh(w'.log, i, k) == Fresh(w.log, i, k) {}
    forall k ensures Sharing(w'.log, k) == if k in w'.state.shared then Some(w'.state.shared[k]) else None {
      assert Sharing(w.log, k) == if k in s.shared then Some(s.shared[k]) else None;
    }
  }

  lemma RevokeKeepsFaithful(options: Options, w: World, key: Key)
    requires Faithful(w.state, w.log)
    ensures var w' := Step(options, w, Revoke(key)); Faithful(w'.state, w'.log)
  {
    AppendOne(w.log, Revoked(key));
  }

  lemma InvalidateKeepsFaithful(options: Options, w: World)
    requires Faithful(w.state, w.log)
    ensures var w' := Step(options, w, Invalidate); Faithful(w'.state, w'.log)
  {
    AppendOne(w.log, Invalidated);
  }

  /** In every run the caches, the shared decisions and the stale marks are exactly what the history says. */
  lemma {:induction false} RunIsFaithful(options: Options, actions: seq<Action>)
    ensures Faithful(Run(options, actions).state, Run(options, actions).log)
  {
    if actions == [] {
    } else {
      var w := Run(options, actions[..|actions| - 1]);
      RunIsFaithful(options, actions[..|actions| - 1]);
      match actions[|actions| - 1]
      case Call(key, now) => CallKeepsFaithful(options, w, key, now);
      case Returned(id, outcome, now) =>
        if id in w.state.inFlight { FinishKeepsFaithful(w, id, Some(Raw(outcome, now)), options); }
      case Threw(id) =>
        if id in w.state.inFlight { FinishKeepsFaithful(w, id, None, options); }
      case Revoke(key) => RevokeKeepsFaithful(options, w, key);
      case Invalidate => InvalidateKeepsFaithful(options, w);
    }
  }

  // ---------------------------------------------------------------- what answers mean

  /** The answer that the history calls for: an unexpired decision, else the shared callback, else a new one. */
  ghost predicate Meant(log: seq<Event>, key: Key, now: int, reply: Reply) {
    var r := Remembered(log, key);
    if r.Some? && (r.value.1.Never? || now < r.value.1.time) then reply == Answer(r.value.0.Allow?)
    else if Sharing(log, key).Some? then reply == Join(Sharing(log, key).value)
    else reply.Start? && forall k :: !Fresh(log, reply.id, k)
  }

  /** What a caller is told, from a faithful state alone. */
  lemma ReplyIsMeant(s: State, log: seq<Event>, key: Key, now: int)
    requires Faithful(s, log)
    ensures Meant(log, key, now, Authorize(s, key, now).1)
  {
    assert Cached(s, key) == Remembered(log, key);
  }

  /** A reply is decided by the history alone: both directions, for every run. */
  lemma ReplyMeaning(options: Options, actions: seq<Action>, key: Key, now: int)
    ensures var w := Run(options, actions); Meant(w.log, key, now, Authorize(w.state, key, now).1)
  {
    hide Faithful, Meant, Step;
    RunIsFaithful(options, actions);
    ReplyIsMeant(Run(options, actions).state, Run(options, actions).log, key, now);
  }

  /**
   * What the callers of a returning callback get: an error for an outcome that is not
   * accepted, and otherwise true exactly if it says allow and its body is still fresh.
   */
  lemma ReturnMeaning(options: Options, actions: seq<Action>, id: nat, outcome: Outcome, now: int)
    requires id in Run(options, actions).state.inFlight
    ensures var w := Run(options, actions);
            Return(w.state, id, Normalize(outcome, options, now)).1
            == if Accepted(outcome, now) then Resolve(Says(outcome, Allow) && Fresh(w.log, id, w.state.inFlight[id].key)) else Reject
  {
    NormalizesExactly(outcome, options, now);
    hide Normalize, Says, Accepted;
    RunIsFaithful(options, actions);
  }

  /** In every run the three key sets are disjoint, and two bodies for one key never both still count. */
  lemma SingleFlightAlways(options: Options, actions: seq<Action>, a: nat, b: nat)
    ensures var s := Run(options, actions).state;
            && SingleFlight(s)
            && ((a in s.inFlight && b in s.inFlight && !Stale(s, a) && !Stale(s, b)
                 && s.inFlight[a].key == s.inFlight[b].key)
                ==> a == b)
  {
    RunIsFaithful(options, actions);
  }

  /** Body `id` began for `key` at `j` and `log` holds no invalidation and no revocation of `key` after it. */
  ghost predicate BeganAfterRevocations(log: seq<Event>, id: nat, key: Key, j: nat) {
    && j < |log| && log[j] == Began(id, key)
    && forall i :: j < i < |log| ==> log[i] != Invalidated && log[i] != Revoked(key)
  }

  lemma {:induction false} FreshBegan(log: seq<Event>, id: nat, key: Key) returns (j: nat)
    requires Fresh(log, id, key)
    ensures BeganAfterRevocations(log, id, key, j)
  {
    if log[|log| - 1] == Began(id, key) {
      j := |log| - 1;
    } else {
      j := FreshBegan(log[..|log| - 1], id, key);
    }
  }

  /** A body is fresh exactly if it began behind the last invalidation and the last revocation of its pair. */
  lemma FreshExactly(log: seq<Event>, id: nat, key: Key)
    ensures Fresh(log, id, key) <==> exists j: nat :: BeganAfterRevocations(log, id, key, j)
  {
    if Fresh(log, id, key) { var j := FreshBegan(log, id, key); }
    if j: nat :| BeganAfterRevocations(log, id, key, j) { BeganIsFresh(log, id, key, j); }
  }

  lemma {:induction false} BeganIsFresh(log: seq<Event>, id: nat, key: Key, j: nat)
    requires BeganAfterRevocations(log, id, key, j)
    ensures Fresh(log, id, key)
  {
    if j < |log| - 1 {
      assert log[|log| - 1] != Invalidated && log[|log| - 1] != Revoked(key);
      BeganIsFresh(log[..|log| - 1], id, key, j);
    }
  }

  /** The decision recorded at `k` rests on a callback that began at `j`. */
  ghost predicate Grounded(log: seq<Event>, key: Key, n: Normalized, id: nat, j: nat, k: nat) {
    && j < k < |log|
    && BeganAfterRevocations(log, id, key, j)
    && log[k].Finished? && log[k].id == id && log[k].key == key && log[k].result == Some(n)
  }

  lemma {:induction false} RememberedIsGrounded(log: seq<Event>, key: Key) returns (id: nat, j: nat, k: nat)
    requires Remembered(log, key).Some?
    ensures var r := Remembered(log, key).value;
            Grounded(log, key, Normalized(r.0, Some(r.1)), id, j, k)
  {
    var before, last := log[..|log| - 1], log[|log| - 1];
    if last.Finished? && last.key == key && last.result.Some? && last.result.value.expiry.Some?
       && Fresh(before, last.id, key)
    {
      id, k := last.id, |log| - 1;
      j := FreshBegan(before, id, key);
    } else {
      id, j, k := RememberedIsGrounded(before, key);
      assert Grounded(before, key, Normalized(Remembered(log, key).value.0, Some(Remembered(log, key).value.1)), id, j, k);
    }
  }

  /** The results in a history are those of the raw outcomes. */
  ghost predicate Normalizes(log: seq<Event>, options: Options) {
    forall k :: 0 <= k < |log| && log[k].Finished? ==> log[k].result == Normal(log[k].raw, options)
  }

  lemma {:induction false} RunNormalizes(options: Options, actions: seq<Action>)
    ensures Normalizes(Run(options, actions).log, options)
  {
    hide Normal, Authorize, Return, RevokePair, InvalidateAll;
    if actions != [] { RunNormalizes(options, actions[..|actions| - 1]); }
  }

  /** What was remembered is what the callback itself said, with the expiry that follows from it. */
  ghost predicate SaidAt(log: seq<Event>, k: nat, d: Decision, options: Options, expiry: Expiry) {
    && k < |log| && log[k].Finished? && log[k].raw.Some?
    && var raw := log[k].raw.value;
       Accepted(raw.outcome, raw.at) && Says(raw.outcome, d) && Expires(raw.outcome, d, options, raw.at, expiry)
  }

  lemma GroundedIsSaid(log: seq<Event>, options: Options, key: Key, n: Normalized, id: nat, j: nat, k: nat)
    requires Normalizes(log, options) && Grounded(log, key, n, id, j, k) && n.expiry.Some?
    ensures SaidAt(log, k, n.decision, options, n.expiry.value)
  {
    var raw := log[k].raw.value;
    NormalizesExactly(raw.outcome, options, raw.at);
    hide Normalize, Accepted, Says, Expires;
  }

  /**
   * No stale allow: a `true` given from the cache rests on an outcome that says allow, for
   * the same pair and not expired, whose callback began after every earlier invalidation
   * and every earlier revocation of that pair.
   */
  lemma NoStaleCachedAllow(options: Options, actions: seq<Action>, key: Key, now: int)
    returns (expiry: Expiry, id: nat, j: nat, k: nat)
    requires Authorize(Run(options, actions).state, key, now).1 == Answer(true)
    ensures expiry.Never? || now < expiry.time
    ensures var log := Run(options, actions).log;
            && j < k < |log| && BeganAfterRevocations(log, id, key, j)
            && log[k].Finished? && log[k].id == id && log[k].key == key && SaidAt(log, k, Allow, options, expiry)
  {
    var log := Run(options, actions).log;
    ReplyMeaning(options, actions, key, now);
    expiry := Remembered(log, key).value.1;
    id, j, k := RememberedIsGrounded(log, key);
    RunNormalizes(options, actions);
    hide Run, Normalizes, SaidAt;
    GroundedIsSaid(log, options, key, Normalized(Allow, Some(expiry)), id, j, k);
  }

  /** The same for a `false`: it was said, too. */
  lemma CachedDenyWasSaid(options: Options, actions: seq<Action>, key: Key, now: int)
    returns (expiry: Expiry, id: nat, j: nat, k: nat)
    requires Authorize(Run(options, actions).state, key, now).1 == Answer(false)
    ensures expiry.Never? || now < expiry.time
    ensures var log := Run(options, actions).log;
            && j < k < |log| && BeganAfterRevocations(log, id, key, j)
            && log[k].Finished? && log[k].id == id && log[k].key == key && SaidAt(log, k, Deny, options, expiry)
  {
    var log := Run(options, actions).log;
    ReplyMeaning(options, actions, key, now);
    expiry := Remembered(log, key).value.1;
    id, j, k := RememberedIsGrounded(log, key);
    RunNormalizes(options, actions);
    hide Run, Normalizes, SaidAt;
    GroundedIsSaid(log, options, key, Normalized(Deny, Some(expiry)), id, j, k);
  }

  /** From `k` on nothing revokes the decision, replaces it, or finds it expired. */
  ghost predicate Undisturbed(log: seq<Event>, key: Key, k: nat, expiry: Expiry) {
    forall i :: k < i < |log| ==>
      && log[i] != Invalidated && log[i] != Revoked(key)
      && (log[i].Finished? ==> log[i].key != key)
      && (log[i].Looked? && log[i].key == key ==> expiry.Never? || log[i].now < expiry.time)
  }

  lemma {:induction false} StaysRemembered(log: seq<Event>, key: Key, n: Normalized, id: nat, j: nat, k: nat)
    requires Grounded(log, key, n, id, j, k) && n.expiry.Some? && Undisturbed(log, key, k, n.expiry.value)
    ensures Remembered(log, key) == Some((n.decision, n.expiry.value))
  {
    var before := log[..|log| - 1];
    if k == |log| - 1 { BeganIsFresh(before, id, key, j); }
    else {
      assert log[|log| - 1] != Invalidated && log[|log| - 1] != Revoked(key);
      StaysRemembered(before, key, n, id, j, k);
    }
  }

  /**
   * The other direction: an accepted outcome whose body was fresh, and that may be cached,
   * answers every call until it expires, is revoked or invalidated, or another one comes.
   */
  lemma SaidIsAnswered(options: Options, actions: seq<Action>, key: Key, now: int, d: Decision, expiry: Expiry, j: nat, k: nat)
    requires var log := Run(options, actions).log;
             && j < k < |log| && log[k].Finished? && log[k].key == key && SaidAt(log, k, d, options, expiry)
             && BeganAfterRevocations(log, log[k].id, key, j) && Undisturbed(log, key, k, expiry)
    requires expiry.Never? || now < expiry.time
    ensures Authorize(Run(options, actions).state, key, now).1 == Answer(d == Allow)
  {
    var log := Run(options, actions).log;
    var raw := log[k].raw.value;
    RunNormalizes(options, actions);
    NormalizesExactly(raw.outcome, options, raw.at);
    hide Run, Normalize, Says, Expires, Authorize, Remembered;
    assert log[k].result == Some(Normalized(d, Some(expiry)));
    StaysRemembered(log, key, Normalized(d, Some(expiry)), log[k].id, j, k);
    ReplyMeaning(options, actions, key, now);
  }

  /** A revocation tells whether there was a decision, remembered or pending. */
  lemma RevokeMeaning(options: Options, actions: seq<Action>, key: Key)
    ensures var w := Run(options, actions);
            RevokePair(w.state, key).1 <==> Remembered(w.log, key).Some? || Sharing(w.log, key).Some?
  {
    RunIsFaithful(options, actions);
    var w := Run(options, actions);
    assert Cached(w.state, key) == Remembered(w.log, key);
  }

  /** The same for the callers that shared a pending decision. */
  lemma NoStaleSharedAllow(options: Options, actions: seq<Action>, id: nat, outcome: Outcome, now: int)
    returns (j: nat)
    requires id in Run(options, actions).state.inFlight
    requires Return(Run(options, actions).state, id, Normalize(outcome, options, now)).1 == Resolve(true)
    ensures Accepted(outcome, now) && Says(outcome, Allow)
    ensures BeganAfterRevocations(Run(options, actions).log, id, Run(options, actions).state.inFlight[id].key, j)
  {
    hide Normalize, Accepted, Says;
    ReturnMeaning(options, actions, id, outcome, now);
    j := FreshBegan(Run(options, actions).log, id, Run(options, actions).state.inFlight[id].key);
  }

  // ---------------------------------------------------------------- agreement with a policy

  /** `policy(t)` is what the callback would say just before the `t`-th event. */
  type Policy = nat -> Key -> Decision

  /** The policy for a pair changes only together with an invalidation or a revocation of it. */
  ghost predicate ChangesAreAnnounced(log: seq<Event>, policy: Policy) {
    forall t: nat, key :: t < |log| ==> AnnouncedAt(log, policy, key, t)
  }

  ghost predicate AnnouncedAt(log: seq<Event>, policy: Policy, key: Key, t: nat)
    requires t < |log|
  {
    policy(t)(key) != policy(t + 1)(key) ==> log[t] == Invalidated || log[t] == Revoked(key)
  }

  /** Whatever a callback said was the policy's answer at some moment while it ran. */
  ghost predicate AnswersFollow(log: seq<Event>, policy: Policy) {
    forall j: nat, k: nat, d |
      && j < k < |log| && log[j].Began? && log[k].Finished? && log[k].raw.Some? && Says(log[k].raw.value.outcome, d)
      && log[j].id == log[k].id && log[j].key == log[k].key ::
      Sampled(policy, log[k].key, d, j, k)
  }

  ghost predicate Sampled(policy: Policy, key: Key, decision: Decision, j: nat, k: nat) {
    exists t: nat :: j < t <= k && policy(t)(key) == decision
  }

  lemma {:induction false} PolicyStays(log: seq<Event>, policy: Policy, id: nat, key: Key, j: nat, t: nat, u: nat)
    requires ChangesAreAnnounced(log, policy) && BeganAfterRevocations(log, id, key, j)
    requires j < t <= u <= |log|
    ensures policy(t)(key) == policy(u)(key)
    decreases u - t
  {
    if t < u {
      assert AnnouncedAt(log, policy, key, t);
      PolicyStays(log, policy, id, key, j, t + 1, u);
    }
  }

  /** Every cached decision is the policy's current answer, if policy changes are announced. */
  lemma CacheRefinesPolicy(options: Options, actions: seq<Action>, policy: Policy, key: Key)
    requires ChangesAreAnnounced(Run(options, actions).log, policy)
    requires AnswersFollow(Run(options, actions).log, policy)
    ensures var w := Run(options, actions);
            && (key in w.state.allowed ==> policy(|w.log|)(key) == Allow)
            && (key in w.state.denied ==> policy(|w.log|)(key) == Deny)
  {
    RunIsFaithful(options, actions);
    var w := Run(options, actions);
    assert Cached(w.state, key) == Remembered(w.log, key);
    if Remembered(w.log, key).Some? {
      var r := Remembered(w.log, key).value;
      var id, j, k := RememberedIsGrounded(w.log, key);
      RunNormalizes(options, actions);
      hide Run, Normalizes;
      GroundedIsSaid(w.log, options, key, Normalized(r.0, Some(r.1)), id, j, k);
      assert Sampled(policy, w.log[k].key, r.0, j, k);
      var t: nat :| j < t <= k && policy(t)(key) == r.0;
      PolicyStays(w.log, policy, id, key, j, t, |w.log|);
    }
  }

  // ---------------------------------------------------------------- pair keys

  /** The canonical cache key of a hop-local pair under the domain normalization. */
  function PairKey(normalize: string -> string, previous: string, next: string): Key {
    normalize(previous) + [Nul] + normalize(next)
  }

  /** Two pairs share a key exactly when both domains normalize alike, as long as no normal form holds a NUL. */
  lemma PairKeyInjective(normalize: string -> string, p1: string, n1: string, p2: string, n2: string)
    requires NulFree(normalize(p1)) && NulFree(normalize(p2))
    ensures PairKey(normalize, p1, n1) == PairKey(normalize, p2, n2)
            <==> normalize(p1) == normalize(p2) && normalize(n1) == normalize(n2)
  {
    var a, b := normalize(p1), normalize(p2);
    var x, y := PairKey(normalize, p1, n1), PairKey(normalize, p2, n2);
    if x == y {
      assert x[|a|] == Nul && y[|b|] == Nul;
      assert forall i :: 0 <= i < |a| ==> x[i] == a[i];
      assert forall i :: 0 <= i < |b| ==> y[i] == b[i];
      assert a == x[..|a|] && b == y[..|b|];
      assert normalize(n1) == x[|a| + 1..] && normalize(n2) == y[|b| + 1..];
    }
  }

  // ---------------------------------------------------------------- the object

  function Called(key: Key, now: int, reply: Reply): seq<Event> {
    [Looked(key, now)] + (if reply.Start? then [Began(reply.id, key)] else [])
  }

  lemma CalledIsStep(options: Options, w: World, key: Key, now: int)
    ensures var (s, reply) := Authorize(w.state, key, now);
            Step(options, w, Call(key, now)) == World(s, w.log + Called(key, now, reply))
  {}

  lemma StaleIsForgotten(s: State, log: seq<Event>, id: nat)
    requires Faithful(s, log) && id in s.inFlight
    ensures !Stale(s, id) <==> Fresh(log, id, s.inFlight[id].key)
  {}

  class FederatedRouteAuthorizer {
    var allowedPairs: map<Key, Expiry>
    var deniedPairs: map<Key, Expiry>
    var pendingDecisions: map<Key, nat>
    var generation: nat
    var bodies: map<nat, Pending>
    var nextBody: nat
    ghost var log: seq<Event>
    const options: Options
    const normalizeDomain: string -> string

    function Abstract(): State
      reads this
    {
      State(allowedPairs, deniedPairs, pendingDecisions, generation, bodies, nextBody)
    }

    /** The fields say what the history says. */
    ghost predicate Valid()
      reads this
    {
      Faithful(Abstract(), log)
    }

    constructor (options: Options, normalizeDomain: string -> string)
      ensures Abstract() == Initial && log == [] && Valid() && this.options == options && this.normalizeDomain == normalizeDomain
    {
      this.options, this.normalizeDomain := options, normalizeDomain;
      allowedPairs, deniedPairs, pendingDecisions := map[], map[], map[];
      generation, bodies, nextBody := 0, map[], 0;
      log := [];
    }

    /** Reads a cache entry, dropping it once it has expired. */
    static method IsLive(cache: map<Key, Expiry>, key: Key, now: int) returns (rest: map<Key, Expiry>, live: bool)
      ensures live <==> key in cache && Live(cache[key], now)
      ensures rest == DropExpired(cache, key, now)
    {
      if key !in cache {
        return cache, false;
      }
      if !Live(cache[key], now) {
        return cache - {key}, false;
      }
      return cache, true;
    }

    method AuthorizeHop(previous: string, next: string, now: int) returns (reply: Reply)
      requires Valid()
      modifies this
      ensures (Abstract(), reply) == Authorize(old(Abstract()), PairKey(normalizeDomain, previous, next), now)
      ensures log == old(log) + Called(PairKey(normalizeDomain, previous, next), now, reply)
      ensures Valid() && Meant(old(log), PairKey(normalizeDomain, previous, next), now, reply)
    {
      hide Faithful, Meant;
      var key := PairKey(normalizeDomain, previous, next);
      ReplyIsMeant(Abstract(), log, key, now);
      CallKeepsFaithful(options, World(Abstract(), log), key, now);
      reply := Decide(key, now);
      log := log + Called(key, now, reply);
      CalledIsStep(options, World(old(Abstract()), old(log)), key, now);
    }

    method Decide(key: Key, now: int) returns (reply: Reply)
      modifies this
      ensures (Abstract(), reply) == Authorize(old(Abstract()), key, now) && log == old(log)
    {
      var live;
      allowedPairs, live := IsLive(allowedPairs, key, now);
      if live {
        return Answer(true);
      }
      deniedPairs, live := IsLive(deniedPairs, key, now);
      if live {
        return Answer(false);
      }
      if key in pendingDecisions {
        return Join(pendingDecisions[key]);
      }
      reply := Start(nextBody);
      bodies := bodies[nextBody := Pending(key, generation, false)];
      pendingDecisions := pendingDecisions[key := nextBody];
      nextBody := nextBody + 1;
    }

    /** The part of the decision body that runs after its callback settled; `None` stands for a throw. */
    method CallbackSettled(id: nat, outcome: Option<Outcome>, now: int) returns (settled: Settled)
      requires Valid() && id in bodies
      modifies this
      ensures var raw := if outcome.None? then None else Some(Raw(outcome.value, now));
              && (Abstract(), settled) == Return(old(Abstract()), id, Normal(raw, options))
              && log == old(log) + [Finished(id, old(bodies[id].key), raw, Normal(raw, options))]
      ensures settled == if outcome.Some? && Accepted(outcome.value, now)
                         then Resolve(Says(outcome.value, Allow) && Fresh(old(log), id, old(bodies[id].key)))
                         else Reject
      ensures Valid()
    {
      hide Accepted, Says;
      var entry := bodies[id];
      var result := if outcome.None? then None else Normalize(outcome.value, options, now);
      ghost var raw := if outcome.None? then None else Some(Raw(outcome.value, now));
      if outcome.Some? { NormalizesExactly(outcome.value, options, now); }
      hide Normalize;
      FinishKeepsFaithful(World(Abstract(), log), id, raw, options);
      StaleIsForgotten(Abstract(), log, id);
      hide Faithful, Fresh;
      log := log + [Finished(id, entry.key, raw, result)];
      if result.None? {
        settled := Reject;
      } else if entry.revoked || entry.generation != generation {
        settled := Resolve(false);
      } else if result.value.decision.Allow? {
        if result.value.expiry.Some? {
          allowedPairs := allowedPairs[entry.key := result.value.expiry.value];
        }
        settled := Resolve(true);
      } else {
        if result.value.expiry.Some? {
          deniedPairs := deniedPairs[entry.key := result.value.expiry.value];
        }
        settled := Resolve(false);
      }
      if entry.key in pendingDecisions && pendingDecisions[entry.key] == id {
        pendingDecisions := pendingDecisions - {entry.key};
      }
      bodies := bodies - {id};
    }

    method Revoke(previous: string, next: string) returns (revoked: bool)
      requires Valid()
      modifies this
      ensures (Abstract(), revoked) == RevokePair(old(Abstract()), PairKey(normalizeDomain, previous, next))
      ensures Valid() && log == old(log) + [Revoked(PairKey(normalizeDomain, previous, next))]
    {
      var key := PairKey(normalizeDomain, previous, next);
      RevokeKeepsFaithful(options, World(Abstract(), log), key);
      hide Faithful;
      log := log + [Revoked(key)];
      var pending := key in pendingDecisions;
      if pending {
        var id := pendingDecisions[key];
        if id in bodies {
          bodies := bodies[id := bodies[id].(revoked := true)];
        }
        pendingDecisions := pendingDecisions - {key};
      }
      revoked := key in allowedPairs || key in deniedPairs || pending;
      allowedPairs, deniedPairs := allowedPairs - {key}, deniedPairs - {key};
      assert !pending ==> pendingDecisions - {key} == pendingDecisions;
    }

    method Invalidate()
      requires Valid()
      modifies this
      ensures Abstract() == InvalidateAll(old(Abstract()))
      ensures Valid() && log == old(log) + [Invalidated]
    {
      InvalidateKeepsFaithful(options, World(Abstract(), log));
      hide Faithful;
      log := log + [Invalidated];
      generation := generation + 1;
      allowedPairs, deniedPairs := map[], map[];
    }
  }

  /** Counts the entries of a cache that have not expired. */
  method LiveCount(cache: map<Key, Expiry>, now: int) returns (count: nat)
    ensures count == |set key | key in cache && Live(cache[key], now)|
  {
    var todo := cache.Keys;
    count := 0;
    ghost var counted: set<Key> := {};
    while todo != {}
      invariant todo <= cache.Keys
      invariant counted == set key | key in cache && key !in todo && Live(cache[key], now)
      invariant count == |counted|
      decreases todo
    {
      var key :| key in todo;
      todo := todo - {key};
      if Live(cache[key], now) {
        count := count + 1;
        counted := counted + {key};
      }
    }
    assert counted == set key | key in cache && Live(cache[key], now);
  }
}
