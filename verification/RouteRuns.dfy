// What the route tables promise over whole runs.

module RouteRuns {
  import opened Prelude
  import opened RouteSnapshot

  // ---------------------------------------------------------------- text keys

  predicate AllNulFree(routes: seq<Route>) {
    forall i :: 0 <= i < |routes| ==> NulFree(routes[i].target)
  }

  lemma TextKeyInjective(r: Route, s: Route)
    requires NulFree(r.target) && NulFree(s.target) && TextKey(r) == TextKey(s)
    ensures r == s
  {
    var a, b := r.target + [Nul] + r.domain, s.target + [Nul] + s.domain;
    assert a == b;
    assert a[|r.target|] == Nul && b[|s.target|] == Nul;
    assert forall i :: 0 <= i < |r.target| ==> a[i] == r.target[i];
    assert forall i :: 0 <= i < |s.target| ==> b[i] == s.target[i];
    assert |r.target| == |s.target|;
    assert a[..|r.target|] == r.target && b[..|s.target|] == s.target;
    assert a[|r.target| + 1..] == r.domain && b[|s.target| + 1..] == s.domain;
  }

  // ---------------------------------------------------------------- whole runs

  /** Every target the frame names is free of the separator. */
  predicate Clean(a: Action) {
    a.Receive? ==>
      match a.frame
      case Snapshot(routes) => AllNulFree(routes)
      case Lifecycle(events) => forall i :: 0 <= i < |events| ==> NulFree(events[i].route.target)
      case OtherFrame => true
  }

  /** The events emitted so far replay to the table. */
  ghost predicate Replays(t: Table) {
    forall r :: r in Replay(t.log) <==> r in t.routes
  }

  lemma OneEventReplays(t: Table, e: Change, python: bool)
    requires Replays(t)
    ensures Replays(OneEvent(t, e, python))
  {
    assert (t.log + [e])[..|t.log|] == t.log;
    WithoutMembers(t.routes, e.route);
  }

  lemma {:induction false} EventsReplay(t: Table, events: seq<Change>, python: bool)
    requires Replays(t)
    ensures Replays(Events(t, events, python))
  {
    if events != [] {
      EventsReplay(t, events[..|events| - 1], python);
      hide OneEvent, Replays;
      OneEventReplays(Events(t, events[..|events| - 1], python), events[|events| - 1], python);
    }
  }

  // ---------------------------------------------------------------- which snapshots are announced completely

  predicate Unique(routes: seq<Route>, key: Route -> Key) {
    forall i, j :: 0 <= i < j < |routes| ==> key(routes[i]) != key(routes[j])
  }

  lemma OnlyOneOf(routes: seq<Route>, key: Route -> Key, x: Route, y: Route)
    requires Unique(routes, key) && key(x) == key(y) && x != y
    ensures x !in routes || y !in routes
  {
    assert forall i, j :: 0 <= i < |routes| && 0 <= j < |routes| && i != j ==> key(routes[i]) != key(routes[j]);
  }

  /** A map of the routes has one of them for each key. */
  lemma {:induction false} KeyedIsPart(routes: seq<Route>, key: Route -> Key)
    ensures forall r :: r in Keyed(routes, key) ==> r in routes
    ensures Unique(Keyed(routes, key), key)
  {
    if routes != [] {
      var init, last := routes[..|routes| - 1], routes[|routes| - 1];
      KeyedIsPart(init, key);
      assert routes == init + [last];
      var before := Keyed(init, key);
      var at := Position(before, key(last), key);
      if at == |before| {
        forall i | 0 <= i < |before| ensures key(before[i]) != key(last) {}
      } else {
        var k := before[at := last];
        assert forall i :: 0 <= i < |k| ==> key(k[i]) == key(before[i]);
      }
    }
  }

  lemma {:induction false} KeyedHasKey(routes: seq<Route>, key: Route -> Key, r: Route) returns (kept: Route)
    requires r in routes
    ensures kept in Keyed(routes, key) && key(kept) == key(r)
  {
    var init, last := routes[..|routes| - 1], routes[|routes| - 1];
    assert routes == init + [last];
    var before := Keyed(init, key);
    var at := Position(before, key(last), key);
    var now := Keyed(routes, key);
    if key(r) == key(last) {
      kept := last;
      assert now[if at < |before| then at else |before|] == last;
    } else {
      kept := KeyedHasKey(init, key, r);
      var i :| 0 <= i < |before| && before[i] == kept;
      assert now[i] == kept;
    }
  }

  /** What a table replays to after a snapshot: what it had less what is gone, and what is new. */
  ghost predicate Kept(before: seq<Route>, after: seq<Route>, r: Route) {
    || (r in before && !(r in Keyed(before, TextKey) && !HasKey(after, TextKey(r), TextKey)))
    || (r in Keyed(after, TextKey) && !HasKey(before, TextKey(r), TextKey))
  }

  lemma AnnouncedKeeps(log: seq<Change>, before: seq<Route>, after: seq<Route>)
    requires forall r :: r in Replay(log) <==> r in before
    ensures forall r :: r in Replay(log + Announced(before, after, false)) <==> Kept(before, after, r)
  {
    var gone := Missing(Keyed(before, TextKey), after, TextKey);
    var arrived := Missing(Keyed(after, TextKey), before, TextKey);
    hide Replay, Missing, Keyed, AsChanges, HasKey;
    MissingMembers(Keyed(before, TextKey), after, TextKey);
    MissingMembers(Keyed(after, TextKey), before, TextKey);
    ReplayRemoved(log, gone);
    ReplayAdded(log + AsChanges(Removed, gone), arrived);
    assert log + Announced(before, after, false) == log + AsChanges(Removed, gone) + AsChanges(Added, arrived);
  }

  predicate Either(before: seq<Route>, after: seq<Route>, r: Route) {
    r in before || r in after
  }

  /** Routes of a table and of the snapshot that replaces it share a joined key only if both have them all. */
  ghost predicate Fits(before: seq<Route>, after: seq<Route>) {
    forall r, s :: Either(before, after, r) && Either(before, after, s) && r != s && TextKey(r) == TextKey(s) ==>
      r in before && r in after
  }

  lemma SharesKey(routes: seq<Route>, r: Route) returns (s: Route)
    requires HasKey(routes, TextKey(r), TextKey)
    ensures s in routes && TextKey(s) == TextKey(r)
  {
    var i :| 0 <= i < |routes| && TextKey(routes[i]) == TextKey(r);
    s := routes[i];
  }

  lemma HasOwnKey(routes: seq<Route>, r: Route, s: Route)
    requires s in routes && TextKey(s) == TextKey(r)
    ensures HasKey(routes, TextKey(r), TextKey)
  {
    var i :| 0 <= i < |routes| && routes[i] == s;
  }

  lemma FitsMeans(before: seq<Route>, after: seq<Route>, r: Route, s: Route)
    requires Fits(before, after) && Either(before, after, r) && Either(before, after, s) && TextKey(r) == TextKey(s)
    ensures r == s || (r in before && r in after)
  {}

  lemma FittingIsKept(before: seq<Route>, after: seq<Route>, r: Route)
    requires Fits(before, after)
    ensures Kept(before, after, r) <==> r in after
  {
    hide Keyed, TextKey, HasKey, Fits;
    KeyedIsPart(before, TextKey);
    KeyedIsPart(after, TextKey);
    if r in after {
      HasOwnKey(after, r, r);
      if HasKey(before, TextKey(r), TextKey) {
        var s := SharesKey(before, r);
        FitsMeans(before, after, r, s);
      } else {
        var s := KeyedHasKey(after, TextKey, r);
        FitsMeans(before, after, r, s);
        if s != r { HasOwnKey(before, r, r); }
      }
    } else if r in before {
      if HasKey(after, TextKey(r), TextKey) {
        var s := SharesKey(after, r);
        FitsMeans(before, after, r, s);
      } else {
        var s := KeyedHasKey(before, TextKey, r);
        FitsMeans(before, after, r, s);
      }
    }
  }

  lemma KeptFits(before: seq<Route>, after: seq<Route>)
    requires forall r :: Kept(before, after, r) <==> r in after
    ensures Fits(before, after)
  {
    hide Keyed, TextKey, HasKey;
    KeyedIsPart(before, TextKey);
    KeyedIsPart(after, TextKey);
    forall r, s | Either(before, after, r) && Either(before, after, s) && r != s && TextKey(r) == TextKey(s)
      ensures r in before && r in after
    {
      OnlyOneOf(Keyed(before, TextKey), TextKey, r, s);
      OnlyOneOf(Keyed(after, TextKey), TextKey, r, s);
      if s in before { HasOwnKey(before, r, s); HasOwnKey(before, s, s); }
      if s in after { HasOwnKey(after, r, s); HasOwnKey(after, s, s); }
      if r in before { HasOwnKey(before, s, r); }
      if r in after { HasOwnKey(after, s, r); }
      assert Kept(before, after, r) <==> r in after;
      assert Kept(before, after, s) <==> s in after;
    }
  }

  /** A TypeScript Broker announces a snapshot completely exactly if it fits the table before it. */
  lemma SnapshotReplaysExactly(t: Table, routes: seq<Route>)
    requires Replays(t)
    ensures Replays(Handle(t, Snapshot(routes), false)) <==> Fits(t.routes, routes)
  {
    AnnouncedKeeps(t.log, t.routes, routes);
    hide Announced, Replay, Kept, Fits;
    if Fits(t.routes, routes) { forall r ensures Kept(t.routes, routes, r) <==> r in routes { FittingIsKept(t.routes, routes, r); } }
    else if Replays(Handle(t, Snapshot(routes), false)) {
      KeptFits(t.routes, routes);
    }
  }

  /** Action i is no snapshot, or one that fits the table it replaces. */
  ghost predicate FitsAt(actions: seq<Action>, i: nat)
    requires i < |actions|
  {
    actions[i].Receive? && actions[i].frame.Snapshot? ==> Fits(Run(actions[..i], false).routes, actions[i].frame.routes)
  }

  ghost predicate ReplaysAt(actions: seq<Action>, k: nat, python: bool)
    requires k <= |actions|
  {
    Replays(Run(actions[..k], python))
  }

  lemma OneAction(actions: seq<Action>, k: nat, python: bool)
    requires k < |actions|
    ensures var t, u := Run(actions[..k], python), Run(actions[..k + 1], python);
            match actions[k]
            case Receive(frame) => u == Handle(t, frame, python)
            case Wait(domain) => u == WaitFor(t, domain)
  {
    hide Handle, WaitFor;
    assert actions[..k + 1][..k] == actions[..k];
  }

  lemma StepReplays(actions: seq<Action>, k: nat, python: bool)
    requires k < |actions| && ReplaysAt(actions, k, python)
    ensures ReplaysAt(actions, k + 1, python) <==> python || FitsAt(actions, k)
  {
    var t := Run(actions[..k], python);
    OneAction(actions, k, python);
    hide Run, Fits, Replay;
    match actions[k]
    case Receive(Snapshot(routes)) =>
      if python { AnnouncedReplays(t.log, t.routes, routes, true); } else { SnapshotReplaysExactly(t, routes); }
    case Receive(Lifecycle(events)) => EventsReplay(t, events, python);
    case Receive(OtherFrame) =>
    case Wait(_) =>
  }

  lemma {:induction false} ReplaysUpTo(actions: seq<Action>, k: nat, python: bool)
    requires k <= |actions| && (!python ==> forall i :: 0 <= i < k ==> FitsAt(actions, i))
    ensures ReplaysAt(actions, k, python)
  {
    hide FitsAt;
    if k > 0 {
      ReplaysUpTo(actions, k - 1, python);
      hide ReplaysAt;
      StepReplays(actions, k - 1, python);
    }
  }

  /**
   * Over any frames and waits: the events a TypeScript Broker emits replay to its table at
   * every point exactly if each snapshot fits the table it replaces. Those of a Python
   * Broker always do.
   */
  lemma ReplaysExactly(actions: seq<Action>, python: bool)
    ensures (forall k :: 0 <= k <= |actions| ==> ReplaysAt(actions, k, python))
       <==> python || forall i :: 0 <= i < |actions| ==> FitsAt(actions, i)
  {
    hide FitsAt, ReplaysAt;
    if python || forall i :: 0 <= i < |actions| ==> FitsAt(actions, i) {
      forall k | 0 <= k <= |actions| ensures ReplaysAt(actions, k, python) { ReplaysUpTo(actions, k, python); }
    } else if forall k :: 0 <= k <= |actions| ==> ReplaysAt(actions, k, python) {
      forall i | 0 <= i < |actions| ensures FitsAt(actions, i) { StepReplays(actions, i, python); assert ReplaysAt(actions, i + 1, python); }
    }
  }

  /** The events emitted are those that make the table, whenever each snapshot fits or the Broker is the Python one. */
  lemma EventsReproduceTable(actions: seq<Action>, python: bool)
    requires !python ==> forall i :: 0 <= i < |actions| ==> FitsAt(actions, i)
    ensures Replay(Run(actions, python).log) == Present(Run(actions, python))
  {
    ReplaysUpTo(actions, |actions|, python);
    assert actions[..|actions|] == actions;
    hide Run, FitsAt, Replay;
  }

  // ---------------------------------------------------------------- targets without the separator

  lemma {:induction false} EventsStayNulFree(t: Table, events: seq<Change>, python: bool)
    requires AllNulFree(t.routes) && forall i :: 0 <= i < |events| ==> NulFree(events[i].route.target)
    ensures AllNulFree(Events(t, events, python).routes)
  {
    if events != [] {
      var init, e := events[..|events| - 1], events[|events| - 1];
      EventsStayNulFree(t, init, python);
      var u, v := Events(t, init, python), Events(t, events, python);
      WithoutMembers(u.routes, e.route);
      forall i | 0 <= i < |v.routes| ensures NulFree(v.routes[i].target) {
        assert v.routes[i] in v.routes;
        assert v.routes[i] in u.routes || v.routes[i] == e.route;
      }
    }
  }

  lemma {:induction false} CleanStaysNulFree(actions: seq<Action>, k: nat)
    requires k <= |actions| && forall i :: 0 <= i < |actions| ==> Clean(actions[i])
    ensures AllNulFree(Run(actions[..k], false).routes)
  {
    if k > 0 {
      CleanStaysNulFree(actions, k - 1);
      OneAction(actions, k - 1, false);
      assert Clean(actions[k - 1]);
      hide Run, AllNulFree, Announced;
      match actions[k - 1]
      case Receive(Lifecycle(events)) => EventsStayNulFree(Run(actions[..k - 1], false), events, false);
      case _ =>
    }
  }

  /** Targets without the separator always fit. */
  lemma NulFreeFits(before: seq<Route>, after: seq<Route>)
    requires AllNulFree(before) && AllNulFree(after)
    ensures Fits(before, after)
  {
    hide TextKey;
    forall r, s | Either(before, after, r) && Either(before, after, s) && r != s && TextKey(r) == TextKey(s) ensures false {
      assert NulFree(r.target) && NulFree(s.target);
      TextKeyInjective(r, s);
    }
  }

  /** With no separator in any target, each snapshot of a run fits, so all events replay. */
  lemma CleanRunsFit(actions: seq<Action>)
    requires forall i :: 0 <= i < |actions| ==> Clean(actions[i])
    ensures forall i :: 0 <= i < |actions| ==> FitsAt(actions, i)
    ensures Replay(Run(actions, false).log) == Present(Run(actions, false))
  {
    forall i | 0 <= i < |actions| ensures FitsAt(actions, i) {
      CleanStaysNulFree(actions, i);
      assert Clean(actions[i]);
      hide Run, Fits;
      if actions[i].Receive? && actions[i].frame.Snapshot? { NulFreeFits(Run(actions[..i], false).routes, actions[i].frame.routes); }
    }
    EventsReproduceTable(actions, false);
  }

  // ---------------------------------------------------------------- both Brokers

  /** The two Brokers hold the same routes after the same frames. */
  lemma {:induction false} TablesAgree(actions: seq<Action>)
    ensures Run(actions, false).routes == Run(actions, true).routes
  {
    if actions != [] {
      var init, a := actions[..|actions| - 1], actions[|actions| - 1];
      TablesAgree(init);
      if a.Receive? && a.frame.Lifecycle? { EventsAgree(Run(init, false), Run(init, true), a.frame.events); }
    }
  }

  lemma {:induction false} EventsAgree(t: Table, u: Table, events: seq<Change>)
    requires t.routes == u.routes
    ensures Events(t, events, false).routes == Events(u, events, true).routes
  {
    if events != [] { EventsAgree(t, u, events[..|events| - 1]); }
  }

  // ---------------------------------------------------------------- colliding keys

  lemma FitsNothing(routes: seq<Route>)
    ensures Fits([], routes) <==> Distinct(routes, TextKey)
  {
    hide TextKey;
    var none: seq<Route> := [];
    if Fits(none, routes) {
      forall i, j | 0 <= i < |routes| && 0 <= j < |routes| && TextKey(routes[i]) == TextKey(routes[j]) ensures routes[i] == routes[j] {
        hide Fits;
        FitsMeans(none, routes, routes[i], routes[j]);
      }
    }
    if Distinct(routes, TextKey) {
      assert forall r :: Either(none, routes, r) ==> r in routes;
    }
  }

  /** The first snapshot a TypeScript Broker receives is announced completely exactly when its keys are distinct. */
  lemma FirstSnapshotExactly(routes: seq<Route>)
    ensures Replays(Handle(Initial, Snapshot(routes), false)) <==> Distinct(routes, TextKey)
  {
    assert Replays(Initial);
    SnapshotReplaysExactly(Initial, routes);
    hide Handle, Replay, TextKey, Fits, Distinct;
    FitsNothing(routes);
  }

  const OneWay: Route := Route("g" + [Nul] + "x", "y")
  const OtherWay: Route := Route("g", "x" + [Nul] + "y")

  /** Two routes whose keys read the same. */
  lemma KeysCollide()
    ensures TextKey(OneWay) == TextKey(OtherWay) && OneWay != OtherWay
  {
    assert OneWay.target + [Nul] + OneWay.domain == ['g', Nul, 'x', Nul, 'y'];
    assert OtherWay.target + [Nul] + OtherWay.domain == ['g', Nul, 'x', Nul, 'y'];
  }

  /** A snapshot that replaces one of them by the other is not announced: the replay keeps the first one. */
  lemma ReplacementIsLost()
    ensures var run := [Receive(Snapshot([OneWay])), Receive(Snapshot([OtherWay]))];
            && Present(Run(run, false)) == {OtherWay} && Replay(Run(run, false).log) != {OtherWay}
            && Replay(Run(run, true).log) == {OtherWay}
  {
    var first, run := [Receive(Snapshot([OneWay]))], [Receive(Snapshot([OneWay])), Receive(Snapshot([OtherWay]))];
    SeparatorAloneReplays();
    hide TextKey, Replay, Announced;
    KeysCollide();
    assert run[..1] == first;
    OneAction(run, 1, false);
    OneAction(run, 1, true);
    assert run[..2] == run;
    var t := Run(first, false);
    SnapshotReplaysExactly(t, [OtherWay]);
    assert Either([OneWay], [OtherWay], OneWay) && Either([OneWay], [OtherWay], OtherWay);
    assert Present(Run(run, false)) == {OtherWay};
    assert !Replays(Run(run, false));
    EventsReproduceTable(run, true);
  }

  /** A separator in a target does no harm by itself. */
  lemma SeparatorAloneReplays()
    ensures var t := Run([Receive(Snapshot([OneWay]))], false);
            t.routes == [OneWay] && Replays(t) && !NulFree(OneWay.target)
  {
    hide TextKey, Replay, Run, Handle, Distinct, Replays, NulFree;
    HasSeparator();
    var run := [Receive(Snapshot([OneWay]))];
    OneAction(run, 0, false);
    assert run[..1] == run && run[..0] == [];
    NothingYet(false);
    FirstSnapshotExactly([OneWay]);
    OneIsDistinct(OneWay);
    AfterSnapshot([OneWay]);
  }

  lemma HasSeparator()
    ensures !NulFree(OneWay.target)
  {
    assert OneWay.target[1] == Nul;
  }

  lemma NothingYet(python: bool)
    ensures Run([], python) == Initial
  {}

  lemma OneIsDistinct(r: Route)
    ensures Distinct([r], TextKey)
  {
    hide TextKey;
  }

  lemma AfterSnapshot(routes: seq<Route>)
    ensures Handle(Initial, Snapshot(routes), false).routes == routes
  {
    hide Announced, StillWaiting;
  }

  // ---------------------------------------------------------------- waiters

  lemma {:induction false} StillWaitingMembers(waiters: seq<string>, routes: seq<Route>, python: bool)
    ensures forall d :: d in StillWaiting(waiters, routes, python) <==>
                          d in waiters && !(HasDomain(routes, d) && !(python && d == ""))
  {
    if waiters != [] {
      var init, last := waiters[..|waiters| - 1], waiters[|waiters| - 1];
      StillWaitingMembers(init, routes, python);
      assert waiters == init + [last];
    }
  }

  /** Nobody waits for a domain the table has, leaving the Python Broker's empty domain aside. */
  ghost predicate NobodyStranded(t: Table, python: bool) {
    forall d :: d in t.waiters && HasDomain(t.routes, d) ==> python && d == ""
  }

  lemma HasDomainAppend(routes: seq<Route>, r: Route)
    ensures forall d :: HasDomain(routes + [r], d) <==> HasDomain(routes, d) || r.domain == d
  {
    forall d ensures HasDomain(routes + [r], d) <==> HasDomain(routes, d) || r.domain == d {
      if HasDomain(routes, d) { var i :| 0 <= i < |routes| && routes[i].domain == d; assert (routes + [r])[i].domain == d; }
      if r.domain == d { assert (routes + [r])[|routes|].domain == d; }
    }
  }

  lemma HasDomainOfPart(part: seq<Route>, routes: seq<Route>)
    requires forall r :: r in part ==> r in routes
    ensures forall d :: HasDomain(part, d) ==> HasDomain(routes, d)
  {
    forall d | HasDomain(part, d) ensures HasDomain(routes, d) {
      var i :| 0 <= i < |part| && part[i].domain == d;
      assert part[i] in routes;
    }
  }

  /** One event strands a waiter exactly when it is a degraded route for a domain somebody waits for. */
  lemma EventStrandsExactly(t: Table, e: Change, python: bool)
    requires NobodyStranded(t, python)
    ensures NobodyStranded(OneEvent(t, e, python), python)
       <==> !(e.kind.Degraded? && e.route.domain in t.waiters && !(python && e.route.domain == ""))
  {
    var u := OneEvent(t, e, python);
    StillWaitingMembers(t.waiters, [e.route], python);
    HasDomainAppend(t.routes, e.route);
    HasDomainAppend([], e.route);
    assert [] + [e.route] == [e.route];
    WithoutMembers(t.routes, e.route);
    HasDomainOfPart(Without(t.routes, e.route), t.routes);
    assert e.route in t.routes ==> HasDomain(t.routes, e.route.domain);
  }

  predicate HasNoDegraded(a: Action) {
    a.Receive? && a.frame.Lifecycle? ==> forall i :: 0 <= i < |a.frame.events| ==> !a.frame.events[i].kind.Degraded?
  }

  lemma {:induction false} EventsStrandNobody(t: Table, events: seq<Change>, python: bool)
    requires NobodyStranded(t, python) && forall i :: 0 <= i < |events| ==> !events[i].kind.Degraded?
    ensures NobodyStranded(Events(t, events, python), python)
  {
    if events != [] {
      EventsStrandNobody(t, events[..|events| - 1], python);
      hide NobodyStranded, OneEvent;
      EventStrandsExactly(Events(t, events[..|events| - 1], python), events[|events| - 1], python);
    }
  }

  lemma SnapshotStrandsNobody(t: Table, routes: seq<Route>, python: bool)
    ensures NobodyStranded(Handle(t, Snapshot(routes), python), python)
  {
    StillWaitingMembers(t.waiters, routes, python);
  }

  /** Without degraded events no waiter outlives the arrival of its domain. */
  lemma {:induction false} ArrivalsAreAnswered(actions: seq<Action>, python: bool)
    requires forall i :: 0 <= i < |actions| ==> HasNoDegraded(actions[i])
    ensures NobodyStranded(Run(actions, python), python)
  {
    if actions != [] {
      var init, a := actions[..|actions| - 1], actions[|actions| - 1];
      assert forall i :: 0 <= i < |init| ==> init[i] == actions[i];
      ArrivalsAreAnswered(init, python);
      var t := Run(init, python);
      match a
      case Receive(Snapshot(routes)) => SnapshotStrandsNobody(t, routes, python);
      case Receive(Lifecycle(events)) => EventsStrandNobody(t, events, python);
      case Receive(OtherFrame) =>
      case Wait(domain) =>
    }
  }
}
