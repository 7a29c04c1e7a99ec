// A Broker's route table beside the change events it emits. Control frames replace the whole
// table or change one route at a time; the TypeScript and the Python Broker handle them, and
// whoever waits for a domain, in slightly different ways.

module RouteSnapshot {
  import opened Prelude

  datatype Route = Route(target: string, domain: string)

  datatype Kind = Added | Removed | Changed | Degraded | Unknown

  datatype Change = Change(kind: Kind, route: Route)

  datatype Frame = Snapshot(routes: seq<Route>) | Lifecycle(events: seq<Change>) | OtherFrame

  /** The table, the domains somebody waits for, and the events emitted so far. */
  datatype Table = Table(routes: seq<Route>, waiters: seq<string>, log: seq<Change>)

  const Initial: Table := Table([], [], [])

  // ---------------------------------------------------------------- keys

  type Key = (string, string)

  /** The TypeScript Broker joins target and domain into one text. */
  function TextKey(r: Route): Key {
    (r.target + [Nul] + r.domain, "")
  }

  function PairKey(r: Route): Key {
    (r.target, r.domain)
  }

  predicate HasKey(routes: seq<Route>, k: Key, key: Route -> Key) {
    exists i :: 0 <= i < |routes| && key(routes[i]) == k
  }

  function Position(routes: seq<Route>, k: Key, key: Route -> Key): (i: nat)
    ensures i <= |routes| && (i < |routes| ==> key(routes[i]) == k)
    ensures i == |routes| <==> !HasKey(routes, k, key)
  {
    if routes == [] then 0
    else if key(routes[0]) == k then 0
    else
      var i := Position(routes[1..], k, key);
      assert HasKey(routes, k, key) ==> HasKey(routes[1..], k, key) by {
        if HasKey(routes, k, key) { var j :| 0 <= j < |routes| && key(routes[j]) == k; assert routes[1..][j - 1] == routes[j]; }
      }
      assert HasKey(routes[1..], k, key) ==> HasKey(routes, k, key) by {
        if HasKey(routes[1..], k, key) { var j :| 0 <= j < |routes| - 1 && key(routes[1..][j]) == k; assert routes[j + 1] == routes[1..][j]; }
      }
      i + 1
  }

  /** A map built from the routes: a key stays where it first came, with the last route that has it. */
  function Keyed(routes: seq<Route>, key: Route -> Key): seq<Route> {
    if routes == [] then []
    else
      var before, last := Keyed(routes[..|routes| - 1], key), routes[|routes| - 1];
      var i := Position(before, key(last), key);
      if i < |before| then before[i := last] else before + [last]
  }

  /** The routes of a whose keys are not in b. */
  function Missing(a: seq<Route>, b: seq<Route>, key: Route -> Key): seq<Route> {
    if a == [] then []
    else Missing(a[..|a| - 1], b, key) + (if HasKey(b, key(a[|a| - 1]), key) then [] else [a[|a| - 1]])
  }

  function AsChanges(kind: Kind, routes: seq<Route>): seq<Change> {
    if routes == [] then [] else AsChanges(kind, routes[..|routes| - 1]) + [Change(kind, routes[|routes| - 1])]
  }

  // ---------------------------------------------------------------- frames

  predicate HasDomain(routes: seq<Route>, domain: string) {
    exists i :: 0 <= i < |routes| && routes[i].domain == domain
  }

  function Without(routes: seq<Route>, r: Route): seq<Route> {
    if routes == [] then []
    else Without(routes[..|routes| - 1], r) + (if routes[|routes| - 1] == r then [] else [routes[|routes| - 1]])
  }

  /** The waiters that are not resolved; the Python Broker resolves none for the empty domain. */
  function StillWaiting(waiters: seq<string>, routes: seq<Route>, python: bool): seq<string> {
    if waiters == [] then []
    else
      var last := waiters[|waiters| - 1];
      StillWaiting(waiters[..|waiters| - 1], routes, python)
      + (if HasDomain(routes, last) && !(python && last == "") then [] else [last])
  }

  /** The events a new snapshot is announced with: what is gone, then what is new. */
  function Announced(before: seq<Route>, after: seq<Route>, python: bool): seq<Change> {
    if python then
      AsChanges(Removed, Missing(Keyed(before, PairKey), after, PairKey)) + AsChanges(Added, Missing(after, before, PairKey))
    else
      AsChanges(Removed, Missing(Keyed(before, TextKey), after, TextKey)) + AsChanges(Added, Missing(Keyed(after, TextKey), before, TextKey))
  }

  function OneEvent(t: Table, e: Change, python: bool): Table {
    var present := e.route in t.routes;
    var routes :=
      match e.kind
      case Added => if present then t.routes else t.routes + [e.route]
      case Changed => if present then t.routes else t.routes + [e.route]
      case Removed => Without(t.routes, e.route)
      case Degraded => if present then t.routes else t.routes + [e.route]
      case Unknown => t.routes;
    var waiters := if e.kind.Added? || e.kind.Changed? then StillWaiting(t.waiters, [e.route], python) else t.waiters;
    Table(routes, waiters, t.log + [e])
  }

  function Events(t: Table, events: seq<Change>, python: bool): Table {
    if events == [] then t else OneEvent(Events(t, events[..|events| - 1], python), events[|events| - 1], python)
  }

  function Handle(t: Table, f: Frame, python: bool): Table {
    match f
    case Snapshot(routes) =>
      Table(routes, StillWaiting(t.waiters, routes, python), t.log + Announced(t.routes, routes, python))
    case Lifecycle(events) => Events(t, events, python)
    case OtherFrame => t
  }

  function WaitFor(t: Table, domain: string): Table {
    if HasDomain(t.routes, domain) then t else t.(waiters := t.waiters + [domain])
  }

  datatype Action = Receive(frame: Frame) | Wait(domain: string)

  function Run(actions: seq<Action>, python: bool): Table {
    if actions == [] then Initial
    else
      var t, a := Run(actions[..|actions| - 1], python), actions[|actions| - 1];
      match a
      case Receive(frame) => Handle(t, frame, python)
      case Wait(domain) => WaitFor(t, domain)
  }

  // ---------------------------------------------------------------- replaying the events

  function Replay(log: seq<Change>): set<Route> {
    if log == [] then {}
    else
      var before, e := Replay(log[..|log| - 1]), log[|log| - 1];
      match e.kind
      case Removed => before - {e.route}
      case Unknown => before
      case _ => before + {e.route}
  }

  ghost function Present(t: Table): set<Route> {
    set r | r in t.routes
  }

  lemma {:induction false} ReplayRemoved(log: seq<Change>, routes: seq<Route>)
    ensures forall r :: r in Replay(log + AsChanges(Removed, routes)) <==> r in Replay(log) && r !in routes
  {
    if routes == [] {
      assert log + AsChanges(Removed, routes) == log;
    } else {
      var init, last := routes[..|routes| - 1], Change(Removed, routes[|routes| - 1]);
      ReplayRemoved(log, init);
      var more := log + AsChanges(Removed, init);
      assert log + AsChanges(Removed, routes) == more + [last];
      assert (more + [last])[..|more|] == more;
      assert routes == init + [routes[|routes| - 1]];
    }
  }

  lemma {:induction false} ReplayAdded(log: seq<Change>, routes: seq<Route>)
    ensures forall r :: r in Replay(log + AsChanges(Added, routes)) <==> r in Replay(log) || r in routes
  {
    if routes == [] {
      assert log + AsChanges(Added, routes) == log;
    } else {
      var init, last := routes[..|routes| - 1], Change(Added, routes[|routes| - 1]);
      ReplayAdded(log, init);
      var more := log + AsChanges(Added, init);
      assert log + AsChanges(Added, routes) == more + [last];
      assert (more + [last])[..|more|] == more;
      assert routes == init + [routes[|routes| - 1]];
    }
  }

  lemma {:induction false} MissingMembers(a: seq<Route>, b: seq<Route>, key: Route -> Key)
    ensures forall r :: r in Missing(a, b, key) <==> r in a && !HasKey(b, key(r), key)
  {
    if a != [] {
      MissingMembers(a[..|a| - 1], b, key);
      assert a == a[..|a| - 1] + [a[|a| - 1]];
    }
  }

  lemma {:induction false} WithoutMembers(routes: seq<Route>, gone: Route)
    ensures forall r :: r in Without(routes, gone) <==> r in routes && r != gone
  {
    if routes != [] {
      WithoutMembers(routes[..|routes| - 1], gone);
      assert routes == routes[..|routes| - 1] + [routes[|routes| - 1]];
    }
  }

  /** Different routes among these have different keys. */
  predicate Distinct(routes: seq<Route>, key: Route -> Key) {
    forall i, j :: 0 <= i < |routes| && 0 <= j < |routes| && key(routes[i]) == key(routes[j]) ==> routes[i] == routes[j]
  }

  /** With distinct keys, the map of the routes has exactly the routes. */
  lemma {:induction false} KeyedMembers(routes: seq<Route>, key: Route -> Key)
    requires Distinct(routes, key)
    ensures forall r :: r in Keyed(routes, key) <==> r in routes
  {
    if routes != [] {
      var init, last := routes[..|routes| - 1], routes[|routes| - 1];
      assert forall i :: 0 <= i < |init| ==> init[i] == routes[i];
      KeyedMembers(init, key);
      var before := Keyed(init, key);
      var i := Position(before, key(last), key);
      assert routes == init + [last];
      if i < |before| {
        assert before[i] in init;
        assert before[i] == last;
        assert before[i := last] == before;
      }
    }
  }

  /** A set of keys is the set of routes, when the routes of both lists have distinct keys. */
  lemma HasKeyIsMember(routes: seq<Route>, r: Route, key: Route -> Key)
    requires forall x :: x in routes && key(x) == key(r) ==> x == r
    ensures HasKey(routes, key(r), key) <==> r in routes
  {}

  /** With distinct keys, what is missing is the difference of the routes. */
  lemma MissingIsDifference(a: seq<Route>, b: seq<Route>, key: Route -> Key)
    requires Distinct(a + b, key)
    ensures forall r :: r in Missing(Keyed(a, key), b, key) <==> r in a && r !in b
    ensures forall r :: r in Missing(a, b, key) <==> r in a && r !in b
  {
    var both := a + b;
    assert forall i :: 0 <= i < |a| ==> both[i] == a[i];
    assert Distinct(a, key);
    KeyedMembers(a, key);
    MissingMembers(Keyed(a, key), b, key);
    MissingMembers(a, b, key);
    forall r | r in a ensures HasKey(b, key(r), key) <==> r in b {
      var i :| 0 <= i < |a| && a[i] == r;
      forall x | x in b && key(x) == key(r) ensures x == r {
        var j :| 0 <= j < |b| && b[j] == x;
        assert both[i] == r && both[|a| + j] == x;
      }
      HasKeyIsMember(b, r, key);
    }
  }

  lemma DistinctSwap(a: seq<Route>, b: seq<Route>, key: Route -> Key)
    requires Distinct(a + b, key)
    ensures Distinct(b + a, key)
  {
    var ab, ba := a + b, b + a;
    forall i, j | 0 <= i < |ba| && 0 <= j < |ba| && key(ba[i]) == key(ba[j]) ensures ba[i] == ba[j] {
      var k := if i < |b| then |a| + i else i - |b|;
      var l := if j < |b| then |a| + j else j - |b|;
      assert ab[k] == ba[i] && ab[l] == ba[j];
    }
  }

  /** Announcing a snapshot turns the replayed set into the snapshot's. */
  lemma AnnouncedReplays(log: seq<Change>, before: seq<Route>, after: seq<Route>, python: bool)
    requires forall r :: r in Replay(log) <==> r in before
    requires !python ==> Distinct(before + after, TextKey)
    ensures forall r :: r in Replay(log + Announced(before, after, python)) <==> r in after
  {
    var key := if python then PairKey else TextKey;
    var gone := Missing(Keyed(before, key), after, key);
    var arrived := Missing(if python then after else Keyed(after, key), before, key);
    assert Distinct(before + after, key);
    hide Distinct, Replay, Missing, Keyed, AsChanges;
    DistinctSwap(before, after, key);
    MissingIsDifference(before, after, key);
    MissingIsDifference(after, before, key);
    ReplayRemoved(log, gone);
    ReplayAdded(log + AsChanges(Removed, gone), arrived);
    assert log + Announced(before, after, python) == log + AsChanges(Removed, gone) + AsChanges(Added, arrived);
  }

  // ---------------------------------------------------------------- the Broker's table

  lemma MissingNone(kind: Kind, others: seq<Route>, key: Route -> Key)
    ensures AsChanges(kind, Missing([], others, key)) == []
  {}

  lemma MissingNext(kind: Kind, candidates: seq<Route>, others: seq<Route>, key: Route -> Key, n: nat)
    requires n < |candidates|
    ensures AsChanges(kind, Missing(candidates[..n + 1], others, key))
         == AsChanges(kind, Missing(candidates[..n], others, key))
            + (if HasKey(others, key(candidates[n]), key) then [] else [Change(kind, candidates[n])])
  {
    var more := candidates[..n + 1];
    assert more[..n] == candidates[..n] && more[n] == candidates[n];
    var missing := Missing(candidates[..n], others, key);
    if HasKey(others, key(candidates[n]), key) {
      assert Missing(more, others, key) == missing;
    } else {
      assert Missing(more, others, key) == missing + [candidates[n]];
      assert (missing + [candidates[n]])[..|missing|] == missing;
    }
  }

  class RouteTable {
    const python: bool
    var routes: seq<Route>
    var waiters: seq<string>
    var log: seq<Change>

    ghost function Now(): Table
      reads this
    {
      Table(routes, waiters, log)
    }

    constructor (python: bool)
      ensures Now() == Initial && this.python == python
    {
      this.python := python;
      routes, waiters, log := [], [], [];
    }

    method WaitForRoute(domain: string) returns (present: bool)
      modifies this`waiters
      ensures Now() == WaitFor(old(Now()), domain)
      ensures present == HasDomain(routes, domain)
    {
      present := HasDomain(routes, domain);
      if !present { waiters := waiters + [domain]; }
    }

    method HandleControlFrame(frame: Frame)
      modifies this
      ensures Now() == Handle(old(Now()), frame, python)
    {
      match frame {
        case Snapshot(newRoutes) => HandleSnapshot(newRoutes);
        case Lifecycle(events) => HandleEvents(events);
        case OtherFrame =>
      }
    }

    method HandleSnapshot(newRoutes: seq<Route>)
      modifies this
      ensures Now() == Handle(old(Now()), Snapshot(newRoutes), python)
    {
      hide Missing, Keyed, AsChanges, StillWaiting;
      var oldRoutes := routes;
      routes := newRoutes;
      ResolveWaiters(newRoutes);
      ghost var start := log;
      if python {
        Announce(Removed, Keyed(oldRoutes, PairKey), newRoutes, PairKey);
        Announce(Added, newRoutes, oldRoutes, PairKey);
      } else {
        Announce(Removed, Keyed(oldRoutes, TextKey), newRoutes, TextKey);
        Announce(Added, Keyed(newRoutes, TextKey), oldRoutes, TextKey);
      }
      assert log == start + Announced(oldRoutes, newRoutes, python);
    }

    /** Emits an event for every candidate whose key the others lack. */
    method Announce(kind: Kind, candidates: seq<Route>, others: seq<Route>, key: Route -> Key)
      modifies this`log
      ensures log == old(log) + AsChanges(kind, Missing(candidates, others, key))
    {
      hide Missing, AsChanges;
      MissingNone(kind, others, key);
      assert candidates[..0] == [];
      for n := 0 to |candidates|
        invariant log == old(log) + AsChanges(kind, Missing(candidates[..n], others, key))
      {
        MissingNext(kind, candidates, others, key, n);
        if !HasKey(others, key(candidates[n]), key) { log := log + [Change(kind, candidates[n])]; }
      }
      assert candidates[..|candidates|] == candidates;
    }

    method ResolveWaiters(present: seq<Route>)
      modifies this`waiters
      ensures waiters == StillWaiting(old(waiters), present, python)
    {
      var kept: seq<string> := [];
      for n := 0 to |waiters|
        invariant kept == StillWaiting(waiters[..n], present, python)
        invariant waiters == old(waiters)
      {
        assert waiters[..n + 1][..n] == waiters[..n];
        if !HasDomain(present, waiters[n]) || (python && waiters[n] == "") { kept := kept + [waiters[n]]; }
      }
      assert waiters[..|waiters|] == waiters;
      waiters := kept;
    }

    method HandleEvents(events: seq<Change>)
      modifies this
      ensures Now() == Events(old(Now()), events, python)
    {
      for n := 0 to |events|
        invariant Now() == Events(old(Now()), events[..n], python)
      {
        assert events[..n + 1][..n] == events[..n];
        HandleEvent(events[n]);
      }
      assert events[..|events|] == events;
    }

    method HandleEvent(e: Change)
      modifies this
      ensures Now() == OneEvent(old(Now()), e, python)
    {
      match e.kind {
        case Added => AddRoute(e.route); ResolveWaiters([e.route]);
        case Changed => AddRoute(e.route); ResolveWaiters([e.route]);
        case Removed => RemoveRoute(e.route);
        case Degraded => AddRoute(e.route);
        case Unknown =>
      }
      log := log + [e];
    }

    method AddRoute(r: Route)
      modifies this`routes
      ensures routes == if r in old(routes) then old(routes) else old(routes) + [r]
    {
      if r !in routes { routes := routes + [r]; }
    }

    method RemoveRoute(r: Route)
      modifies this`routes
      ensures routes == Without(old(routes), r)
    {
      var left: seq<Route> := [];
      for n := 0 to |routes|
        invariant left == Without(routes[..n], r)
        invariant routes == old(routes)
      {
        assert routes[..n + 1][..n] == routes[..n];
        if routes[n] != r { left := left + [routes[n]]; }
      }
      assert routes[..|routes|] == routes;
      routes := left;
    }
  }
}
