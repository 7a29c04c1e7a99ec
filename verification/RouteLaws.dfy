// What each control frame does to a Broker's table, its waiters and its events.

module RouteLaws {
  import opened RouteSnapshot
  import opened RouteRuns

  /** A snapshot replaces the table by its routes. */
  lemma SnapshotExactly(t: Table, routes: seq<Route>, python: bool)
    ensures Handle(t, Snapshot(routes), python).routes == routes
  {
    hide Announced, StillWaiting;
  }

  /** One lifecycle event adds its route unless it is there, or takes it out, and is emitted as it came. */
  lemma EventExactly(t: Table, e: Change, python: bool, r: Route)
    ensures var u := Handle(t, Lifecycle([e]), python);
            && u.log == t.log + [e]
            && (r in u.routes <==>
                  if e.kind.Removed? then r in t.routes && r != e.route
                  else if e.kind.Unknown? then r in t.routes
                  else r in t.routes || r == e.route)
            && (e.kind.Added? && e.route !in t.routes ==> u.routes == t.routes + [e.route])
            && (e.route in t.routes && !e.kind.Removed? ==> u.routes == t.routes)
  {
    assert [e][..0] == [] && Events(t, [], python) == t;
    WithoutMembers(t.routes, e.route);
    hide Without, StillWaiting;
  }

  predicate HasRouteFor(routes: seq<Route>, domain: string) {
    exists i :: 0 <= i < |routes| && routes[i].domain == domain
  }

  /** A snapshot answers exactly those who wait for a domain in it; the Python Broker leaves the empty domain waiting. */
  lemma SnapshotAnswersExactly(t: Table, routes: seq<Route>, python: bool, domain: string)
    ensures domain in Handle(t, Snapshot(routes), python).waiters
       <==> domain in t.waiters && (!HasRouteFor(routes, domain) || (python && domain == ""))
  {
    StillWaitingMembers(t.waiters, routes, python);
    hide StillWaiting, Announced;
  }

  /** An added or changed route answers exactly those who wait for its domain, and no other event answers anybody. */
  lemma EventAnswersExactly(t: Table, e: Change, python: bool, domain: string)
    ensures domain in Handle(t, Lifecycle([e]), python).waiters
       <==> domain in t.waiters && !((e.kind.Added? || e.kind.Changed?) && domain == e.route.domain && !(python && domain == ""))
  {
    assert [e][..0] == [] && Events(t, [], python) == t;
    StillWaitingMembers(t.waiters, [e.route], python);
    assert HasDomain([e.route], domain) <==> domain == e.route.domain by { assert [e.route][0] == e.route; }
    hide Without, StillWaiting, HasDomain;
  }

  /** Whoever asks for a domain waits exactly if the table has no route for it. */
  lemma AskingWaitsExactly(t: Table, domain: string)
    ensures WaitFor(t, domain) == if HasRouteFor(t.routes, domain) then t else Table(t.routes, t.waiters + [domain], t.log)
  {}

  /** A frame of another kind does nothing. */
  lemma OtherFramesDoNothing(t: Table, python: bool)
    ensures Handle(t, OtherFrame, python) == t
  {}

  // ---------------------------------------------------------------- how a snapshot is announced

  /** The Brokers tell routes apart so: TypeScript by target and domain joined with a NUL, Python by both. */
  predicate SameKey(a: Route, b: Route, python: bool) {
    if python then a == b else a.target + ['\U{0000}'] + a.domain == b.target + ['\U{0000}'] + b.domain
  }

  /** The last route of its key. */
  predicate IsLast(routes: seq<Route>, r: Route, python: bool) {
    exists i :: 0 <= i < |routes| && routes[i] == r && forall j :: i < j < |routes| ==> !SameKey(routes[j], r, python)
  }

  predicate Absent(routes: seq<Route>, r: Route, python: bool) {
    forall i :: 0 <= i < |routes| ==> !SameKey(routes[i], r, python)
  }

  function KeyOf(python: bool): Route -> Key {
    if python then PairKey else TextKey
  }

  lemma SameKeyIs(a: Route, b: Route, python: bool)
    ensures SameKey(a, b, python) <==> KeyOf(python)(a) == KeyOf(python)(b)
  {}

  lemma AbsentIs(routes: seq<Route>, r: Route, python: bool)
    ensures Absent(routes, r, python) <==> !HasKey(routes, KeyOf(python)(r), KeyOf(python))
  {
    forall i | 0 <= i < |routes| ensures SameKey(routes[i], r, python) <==> KeyOf(python)(routes[i]) == KeyOf(python)(r) {
      SameKeyIs(routes[i], r, python);
    }
    hide SameKey, KeyOf;
  }

  lemma KeyedOfMore(routes: seq<Route>, key: Route -> Key, r: Route)
    requires routes != []
    ensures var init, last := routes[..|routes| - 1], routes[|routes| - 1];
            r in Keyed(routes, key) <==> r == last || (r in Keyed(init, key) && key(r) != key(last))
  {
    var init, last := routes[..|routes| - 1], routes[|routes| - 1];
    var before, now := Keyed(init, key), Keyed(routes, key);
    KeyedIsPart(init, key);
    var at := Position(before, key(last), key);
    hide Keyed, HasKey;
    if at < |before| {
      assert now == before[at := last] by { KeyedNext(routes, key); }
      assert now[at] == last;
      forall i | 0 <= i < |before| && i != at ensures key(before[i]) != key(last) && now[i] == before[i] {}
      assert key(before[at]) == key(last);
    } else {
      assert now == before + [last] by { KeyedNext(routes, key); }
      forall i | 0 <= i < |before| ensures key(before[i]) != key(last) { assert !HasKey(before, key(last), key); NoKeyThere(before, key(last), key, i); }
    }
  }

  lemma KeyedNext(routes: seq<Route>, key: Route -> Key)
    requires routes != []
    ensures var before, last := Keyed(routes[..|routes| - 1], key), routes[|routes| - 1];
            var i := Position(before, key(last), key);
            Keyed(routes, key) == if i < |before| then before[i := last] else before + [last]
  {}

  lemma NoKeyThere(routes: seq<Route>, k: Key, key: Route -> Key, i: nat)
    requires !HasKey(routes, k, key) && i < |routes|
    ensures key(routes[i]) != k
  {}

  /** The map of the routes has of each key the last. */
  lemma {:induction false} KeyedIsLast(routes: seq<Route>, r: Route, python: bool)
    ensures r in Keyed(routes, KeyOf(python)) <==> IsLast(routes, r, python)
  {
    if routes != [] {
      var init, last := routes[..|routes| - 1], routes[|routes| - 1];
      KeyedIsLast(init, r, python);
      KeyedOfMore(routes, KeyOf(python), r);
      SameKeyIs(last, r, python);
      LastOfMore(init, last, r, python);
      assert routes == init + [last];
    }
  }

  lemma LastOfMore(init: seq<Route>, last: Route, r: Route, python: bool)
    ensures IsLast(init + [last], r, python) <==> r == last || (IsLast(init, r, python) && !SameKey(last, r, python))
  {
    var routes := init + [last];
    hide SameKey;
    if r == last { assert routes[|init|] == r; }
    if IsLast(init, r, python) && !SameKey(last, r, python) {
      var i :| 0 <= i < |init| && init[i] == r && forall j :: i < j < |init| ==> !SameKey(init[j], r, python);
      assert routes[i] == r;
    }
    if IsLast(routes, r, python) && r != last {
      var i :| 0 <= i < |routes| && routes[i] == r && forall j :: i < j < |routes| ==> !SameKey(routes[j], r, python);
      assert init[i] == r && routes[|init|] == last;
      forall j | i < j < |init| ensures !SameKey(init[j], r, python) { assert routes[j] == init[j]; }
    }
  }

  lemma {:induction false} ChangesAre(kind: Kind, routes: seq<Route>)
    ensures |AsChanges(kind, routes)| == |routes| && forall i :: 0 <= i < |routes| ==> AsChanges(kind, routes)[i] == Change(kind, routes[i])
  {
    if routes != [] { ChangesAre(kind, routes[..|routes| - 1]); }
  }

  lemma ChangesOf(kind: Kind, routes: seq<Route>, c: Change)
    ensures c in AsChanges(kind, routes) <==> c.kind == kind && c.route in routes
  {
    ChangesAre(kind, routes);
    hide AsChanges;
    if c.kind == kind && c.route in routes {
      var i :| 0 <= i < |routes| && routes[i] == c.route;
      assert AsChanges(kind, routes)[i] == c;
    }
  }

  /**
   * A snapshot is announced by what is gone and then by what is new: a route is told as
   * removed exactly if it was the last of its key and the snapshot has none of that key, and
   * as added exactly if the table had none of its key; TypeScript tells only the last of a key.
   */
  lemma AnnouncesExactly(before: seq<Route>, after: seq<Route>, python: bool, c: Change)
    ensures c in Announced(before, after, python) <==>
              || (c.kind.Removed? && IsLast(before, c.route, python) && Absent(after, c.route, python))
              || (c.kind.Added? && (if python then c.route in after else IsLast(after, c.route, python)) && Absent(before, c.route, python))
    ensures var said := Announced(before, after, python);
            forall i, j :: 0 <= i < j < |said| ==> !(said[i].kind.Added? && said[j].kind.Removed?)
  {
    var gone, arrived := Gone(before, after, python), Arrived(before, after, python);
    assert Announced(before, after, python) == AsChanges(Removed, gone) + AsChanges(Added, arrived);
    GoneExactly(before, after, python, c.route);
    ArrivedExactly(before, after, python, c.route);
    ChangesOf(Removed, gone, c);
    ChangesOf(Added, arrived, c);
    ChangesAre(Removed, gone);
    ChangesAre(Added, arrived);
    hide Announced, Gone, Arrived, AsChanges, IsLast, Absent;
  }

  function Gone(before: seq<Route>, after: seq<Route>, python: bool): seq<Route> {
    Missing(Keyed(before, KeyOf(python)), after, KeyOf(python))
  }

  function Arrived(before: seq<Route>, after: seq<Route>, python: bool): seq<Route> {
    if python then Missing(after, before, KeyOf(python)) else Missing(Keyed(after, KeyOf(python)), before, KeyOf(python))
  }

  lemma GoneExactly(before: seq<Route>, after: seq<Route>, python: bool, r: Route)
    ensures r in Gone(before, after, python) <==> IsLast(before, r, python) && Absent(after, r, python)
  {
    MissingMembers(Keyed(before, KeyOf(python)), after, KeyOf(python));
    KeyedIsLast(before, r, python);
    AbsentIs(after, r, python);
    hide Missing, Keyed, HasKey, IsLast, Absent, KeyOf;
  }

  lemma ArrivedExactly(before: seq<Route>, after: seq<Route>, python: bool, r: Route)
    ensures r in Arrived(before, after, python) <==>
              (if python then r in after else IsLast(after, r, python)) && Absent(before, r, python)
  {
    MissingMembers(if python then after else Keyed(after, KeyOf(python)), before, KeyOf(python));
    KeyedIsLast(after, r, python);
    AbsentIs(before, r, python);
    hide Missing, Keyed, HasKey, IsLast, Absent, KeyOf;
  }
}
