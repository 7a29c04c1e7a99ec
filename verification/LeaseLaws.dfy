// What becomes of the leases a pool is offered, over whole runs.

module LeaseLaws {
  import opened LeasePool
  import opened LeaseRuns

  // ---------------------------------------------------------------- the history of a run

  /** The leases offered, in order. */
  ghost function Offers(actions: seq<Action>): seq<Lease> {
    if actions == [] then []
    else
      var before, a := actions[..|actions| - 1], actions[|actions| - 1];
      Offers(before) + (if a.Offer? && NewLease(Run(before), a.lease) then [a.lease] else [])
  }

  /** The leases removed after they were offered. */
  ghost function Removed(actions: seq<Action>): set<Lease> {
    if actions == [] then {}
    else
      var before, a := actions[..|actions| - 1], actions[|actions| - 1];
      Removed(before) + (if a.Remove? && a.lease in Run(before).offered then {a.lease} else {})
  }

  /** A lease that can be handed out: offered, with its stream open, and neither handed out nor removed. */
  ghost predicate Usable(actions: seq<Action>, lease: Lease) {
    var s := Run(actions);
    lease in s.offered && lease !in s.closed && !HandedOut(s, lease) && lease !in Removed(actions)
  }

  /** Where a lease stands among those offered. */
  function Place(log: seq<Lease>, lease: Lease): nat {
    if log == [] || log[0] == lease then 0 else 1 + Place(log[1..], lease)
  }

  lemma {:induction false} PlaceOfMore(log: seq<Lease>, more: Lease, lease: Lease)
    ensures lease in log ==> Place(log, lease) < |log| && log[Place(log, lease)] == lease
    ensures lease in log ==> Place(log + [more], lease) == Place(log, lease)
    ensures more !in log ==> Place(log + [more], more) == |log|
  {
    if log != [] {
      assert (log + [more])[1..] == log[1..] + [more];
      PlaceOfMore(log[1..], more, lease);
    }
  }

  /** The leases stand in the order of their offers. */
  predicate InOrder(leases: seq<Lease>, log: seq<Lease>) {
    forall i, j :: 0 <= i < j < |leases| ==> Place(log, leases[i]) < Place(log, leases[j])
  }

  lemma {:induction false} FilteredInOrder(leases: seq<Lease>, lease: Lease, log: seq<Lease>)
    requires InOrder(leases, log)
    ensures InOrder(Filtered(leases, lease), log)
    ensures forall l :: l in Filtered(leases, lease) <==> l in leases && l != lease
  {
    if leases != [] {
      var front, last := leases[..|leases| - 1], leases[|leases| - 1];
      FilteredInOrder(front, lease, log);
      assert leases == front + [last];
      var f := Filtered(front, lease);
      forall i | 0 <= i < |f| ensures Place(log, f[i]) < Place(log, last) {
        assert f[i] in front;
        var k :| 0 <= k < |front| && front[k] == f[i];
        assert leases[k] == f[i];
      }
    }
  }

  // ---------------------------------------------------------------- no lease gets lost

  /** Whatever can be handed out is idle, nothing removed is, and idle leases stand in the order of their offers. */
  ghost predicate Kept(s: State, log: seq<Lease>, gone: set<Lease>) {
    && (forall l :: l in s.offered <==> l in log)
    && (forall l :: l in s.offered && l !in s.closed && !HandedOut(s, l) && l !in gone ==> l in Idle(s, l.guest))
    && (forall g, l :: l in Idle(s, g) ==> l !in gone)
    && (forall g :: InOrder(Idle(s, g), log))
  }

  /** Idle leases may go, once they are closed, handed out or removed. */
  lemma FewerKept(s: State, r: State, log: seq<Lease>, gone: set<Lease>, more: set<Lease>)
    requires Kept(s, log, gone) && r.offered == s.offered && s.closed <= r.closed
    requires forall l :: HandedOut(s, l) ==> HandedOut(r, l)
    requires forall g :: InOrder(Idle(r, g), log)
    requires forall g, l :: l in Idle(r, g) ==> l in Idle(s, g) && l !in more
    requires forall g, l :: l in Idle(s, g) && l !in Idle(r, g) ==> l in r.closed || HandedOut(r, l) || l in more
    ensures Kept(r, log, gone + more)
  {
    hide Idle, InOrder, HandedOut;
    forall g, l | l in Idle(r, g) ensures l !in gone + more { assert l in Idle(s, g) && l !in more; }
  }

  lemma SameIdle(s: State, r: State, new_: seq<Settlement>, log: seq<Lease>, gone: set<Lease>)
    requires Kept(s, log, gone) && r.offered == s.offered && r.closed == s.closed && r.idle == s.idle
    requires r.settled == s.settled + new_
    ensures Kept(r, log, gone)
  {
    forall l | HandedOut(s, l) ensures HandedOut(r, l) { HandedOutAfter(s, r, new_, l); }
    forall g ensures Idle(r, g) == Idle(s, g) {}
  }

  /** Leases in order stay so when another one is offered. */
  lemma InOrderStays(leases: seq<Lease>, log: seq<Lease>, lease: Lease)
    requires InOrder(leases, log) && forall l :: l in leases ==> l in log
    ensures InOrder(leases, log + [lease])
  {
    hide Place;
    forall i | 0 <= i < |leases| ensures Place(log + [lease], leases[i]) == Place(log, leases[i]) {
      assert leases[i] in leases;
      PlaceOfMore(log, lease, leases[i]);
    }
  }

  lemma IdleIsOffered(s: State, g: Guest, l: Lease)
    requires Inv(s) && l in Idle(s, g)
    ensures l in s.offered && l.guest == g
  {
    hide Accounted, FirstCome, WorkConserving, HandedOut;
  }

  /** A lease that is offered now is in no list, and stands last. */
  lemma OfferStandsLast(s: State, lease: Lease, log: seq<Lease>, gone: set<Lease>)
    requires Inv(s) && Kept(s, log, gone) && NewLease(s, lease) && gone <= s.offered
    ensures lease !in log && lease !in gone && Place(log + [lease], lease) == |log|
    ensures forall l :: l in log ==> Place(log + [lease], l) == Place(log, l) < |log|
    ensures forall g :: lease !in Idle(s, g) && InOrder(Idle(s, g), log + [lease])
    ensures forall g, l :: l in Idle(s, g) ==> l in log && l in s.offered && l.guest == g
  {
    hide Inv, Place, Idle, HandedOut, InOrder;
    FreshLease(s, lease);
    forall l | l in log ensures Place(log + [lease], l) == Place(log, l) < |log| { PlaceOfMore(log, lease, l); }
    PlaceOfMore(log, lease, lease);
    forall g, l | l in Idle(s, g) ensures l in log && l in s.offered && l.guest == g { IdleIsOffered(s, g, l); }
    forall g ensures InOrder(Idle(s, g), log + [lease]) { InOrderStays(Idle(s, g), log, lease); }
  }

  lemma AddedHandsOut(s: State, lease: Lease)
    ensures forall l :: HandedOut(s, l) ==> HandedOut(AddIdle(s, lease), l)
    ensures lease !in s.closed && Queue(s, lease.guest) != [] ==> HandedOut(AddIdle(s, lease), lease)
    ensures var r := AddIdle(s, lease); r.offered == s.offered && r.closed == s.closed
    ensures var r := AddIdle(s, lease);
            if lease in s.closed || Queue(s, lease.guest) != [] then r.idle == s.idle
            else r.settled == s.settled && Idle(r, lease.guest) == Idle(s, lease.guest) + [lease] && forall g :: g != lease.guest ==> Idle(r, g) == Idle(s, g)
  {
    var r := AddIdle(s, lease);
    forall l | HandedOut(s, l) ensures HandedOut(r, l) {
      var i :| 0 <= i < |s.settled| && s.settled[i].outcome == Served(l);
      assert r.settled[i] == s.settled[i];
    }
    if lease !in s.closed && Queue(s, lease.guest) != [] { assert r.settled[|s.settled|].outcome == Served(lease); }
  }

  lemma OfferKeeps(s: State, lease: Lease, log: seq<Lease>, gone: set<Lease>)
    requires Inv(s) && Kept(s, log, gone) && NewLease(s, lease) && gone <= s.offered
    ensures Kept(Step(s, Offer(lease)), log + [lease], gone)
  {
    hide Inv, NewLease, AddIdle, Place;
    var s1 := s.(offered := s.offered + {lease});
    var r := AddIdle(s1, lease);
    OfferStandsLast(s, lease, log, gone);
    AddedHandsOut(s1, lease);
    assert forall l :: HandedOut(s1, l) == HandedOut(s, l);
    assert forall g :: Idle(s1, g) == Idle(s, g);
    hide HandedOut;
    if r.idle == s1.idle { assert forall g :: Idle(r, g) == Idle(s, g); }
    assert Step(s, Offer(lease)) == r;
    hide Idle, Step;
  }

  /** What an acquisition does to the leases: closed ones at the front go, and the first open one is handed out. */
  lemma AcquireTakes(s: State, guest: Guest)
    ensures var r, live := Acquire(s, guest), DropClosed(Idle(s, guest), s.closed);
            && r.offered == s.offered && r.closed == s.closed
            && Idle(r, guest) == (if live == [] then [] else live[1..]) && (forall g :: g != guest ==> Idle(r, g) == Idle(s, g))
            && (forall l :: HandedOut(s, l) ==> HandedOut(r, l)) && (live != [] ==> HandedOut(r, live[0]))
  {
    hide DropClosed;
    var r, live := Acquire(s, guest), DropClosed(Idle(s, guest), s.closed);
    forall l | HandedOut(s, l) ensures HandedOut(r, l) {
      var i :| 0 <= i < |s.settled| && s.settled[i].outcome == Served(l);
      assert r.settled[i] == s.settled[i];
    }
    if live != [] { assert r.settled[|s.settled|].outcome == Served(live[0]); }
  }

  /** A list without its front: order stays, and what went was in the front. */
  lemma WithoutFront(leases: seq<Lease>, n: nat, log: seq<Lease>)
    requires n <= |leases| && InOrder(leases, log)
    ensures InOrder(leases[n..], log) && (forall l :: l in leases[n..] ==> l in leases)
    ensures forall l :: l in leases && l !in leases[n..] ==> exists i :: 0 <= i < n && leases[i] == l
  {
    hide Place;
    forall i | n <= i < |leases| ensures leases[i] in leases[n..] { assert leases[n..][i - n] == leases[i]; }
    forall l | l in leases && l !in leases[n..] ensures exists i :: 0 <= i < n && leases[i] == l {
      var i :| 0 <= i < |leases| && leases[i] == l;
      assert i < n;
    }
  }

  lemma AcquireKeeps(s: State, guest: Guest, log: seq<Lease>, gone: set<Lease>)
    requires Kept(s, log, gone)
    ensures Kept(Acquire(s, guest), log, gone)
  {
    var idle, live := Idle(s, guest), DropClosed(Idle(s, guest), s.closed);
    DropClosedIs(idle, s.closed);
    AcquireTakes(s, guest);
    hide DropClosed, HandedOut, Acquire, Idle, InOrder;
    assert InOrder(idle, log);
    var at := |idle| - |live|;
    assert live == idle[at..];
    WithoutFront(idle, if live == [] then at else at + 1, log);
    if live != [] { assert idle[at + 1..] == live[1..] && idle[at] == live[0]; }
    FewerKept(s, Acquire(s, guest), log, gone, {});
    assert gone + {} == gone;
  }

  lemma ShiftTakes(s: State, guest: Guest, leases: seq<Lease>)
    ensures var r := WithIdle(s, guest, leases);
            && Idle(r, guest) == leases && (forall g :: g != guest ==> Idle(r, g) == Idle(s, g))
            && r.offered == s.offered && r.closed == s.closed && r.settled == s.settled
            && forall l :: HandedOut(r, l) == HandedOut(s, l)
  {}

  lemma ShiftKeeps(s: State, guest: Guest, log: seq<Lease>, gone: set<Lease>)
    requires Kept(s, log, gone)
    ensures Kept(WithIdle(s, guest, DropClosed(Idle(s, guest), s.closed)), log, gone)
  {
    var idle, live := Idle(s, guest), DropClosed(Idle(s, guest), s.closed);
    DropClosedIs(idle, s.closed);
    ShiftTakes(s, guest, live);
    hide DropClosed, HandedOut, WithIdle, Idle, InOrder;
    assert InOrder(idle, log);
    WithoutFront(idle, |idle| - |live|, log);
    FewerKept(s, WithIdle(s, guest, live), log, gone, {});
    assert gone + {} == gone;
  }

  lemma RemoveKeeps(s: State, lease: Lease, log: seq<Lease>, gone: set<Lease>)
    requires Inv(s) && Kept(s, log, gone)
    ensures Kept(RemoveLease(s, lease), log, gone + {lease})
  {
    hide Accounted, FirstCome, WorkConserving, Key;
    var r, idle := RemoveLease(s, lease), Idle(s, lease.guest);
    assert InOrder(idle, log);
    FilteredInOrder(idle, lease, log);
    hide Filtered;
    assert forall l :: HandedOut(s, l) ==> HandedOut(r, l);
    hide HandedOut;
    assert Idle(r, lease.guest) == Filtered(idle, lease);
    forall g | g != lease.guest ensures Idle(r, g) == Idle(s, g) {}
    forall g, l | l in Idle(r, g) ensures l != lease { assert l.guest == g; }
    FewerKept(s, r, log, gone, {lease});
  }

  lemma CloseKeeps(s: State, r: State, log: seq<Lease>, gone: set<Lease>)
    requires Kept(s, log, gone) && r.offered == s.offered && s.closed <= r.closed && r.settled == s.settled
    requires forall g :: Idle(r, g) == Idle(s, g) || (Idle(r, g) == [] && forall l :: l in Idle(s, g) ==> l in r.closed)
    ensures Kept(r, log, gone)
  {
    assert forall l :: HandedOut(s, l) ==> HandedOut(r, l);
    hide HandedOut;
    FewerKept(s, r, log, gone, {});
    assert gone + {} == gone;
  }

  lemma {:induction false} FailEachSettles(s: State, guests: seq<Guest>) returns (new_: seq<Settlement>)
    ensures var r := FailEach(s, guests);
            r.settled == s.settled + new_ && r.offered == s.offered && r.closed == s.closed && r.idle == s.idle
  {
    if guests == [] { new_ := []; assert s.settled + [] == s.settled; }
    else {
      var before := FailEachSettles(s, guests[..|guests| - 1]);
      var more := SettleEach(Queue(FailEach(s, guests[..|guests| - 1]), guests[|guests| - 1]), Rejected);
      new_ := before + more;
      assert s.settled + before + more == s.settled + (before + more);
    }
  }

  lemma StepKeeps(s: State, a: Action, log: seq<Lease>, gone: set<Lease>)
    requires Inv(s) && Kept(s, log, gone) && gone <= s.offered
    ensures Kept(Step(s, a), log + (if a.Offer? && NewLease(s, a.lease) then [a.lease] else []),
                 gone + (if a.Remove? && a.lease in s.offered then {a.lease} else {}))
  {
    hide Inv, Kept, NewLease, Key, AddIdle, Acquire, RemoveLease;
    assert log + [] == log && gone + {} == gone;
    var r := Step(s, a);
    match a
    case Offer(lease) => if NewLease(s, lease) { OfferKeeps(s, lease, log, gone); }
    case Take(guest) => AcquireKeeps(s, guest, log, gone);
    case TryTake(guest) =>
      ShiftKeeps(s, guest, log, gone);
      AcquireKeeps(WithIdle(s, guest, DropClosed(Idle(s, guest), s.closed)), guest, log, gone);
    case Remove(lease) => if lease in s.offered { RemoveKeeps(s, lease, log, gone); }
    case StreamCloses(lease) => CloseKeeps(s, r, log, gone);
    case CloseOne(guest) => CloseKeeps(s, r, log, gone);
    case CloseEvery => CloseKeeps(s, r, log, gone);
    case FailOne(guest) => SameIdle(s, r, SettleEach(Queue(s, guest), Rejected), log, gone);
    case FailEvery(guests) => var new_ := FailEachSettles(s, guests); if AllQueues(s, guests) { SameIdle(s, r, new_, log, gone); }
    case TimerFires(who) => if who in s.armed && who < |s.requests| { SameIdle(s, r, [Settlement(who, TimedOut)], log, gone); }
  }

  lemma StepOffersMore(s: State, a: Action)
    requires Inv(s)
    ensures s.offered <= Step(s, a).offered
  {
    hide Inv;
    match a
    case FailEvery(guests) => var new_ := FailEachSettles(s, guests);
    case _ =>
  }

  /** Over any run no usable lease gets lost, and each guest's idle leases stand in the order of their offers. */
  lemma {:induction false} LeasesAreKept(actions: seq<Action>)
    ensures Kept(Run(actions), Offers(actions), Removed(actions)) && Removed(actions) <= Run(actions).offered
  {
    if actions == [] { assert forall g :: Idle(Empty, g) == []; }
    else {
      var before, a := actions[..|actions| - 1], actions[|actions| - 1];
      LeasesAreKept(before);
      RunKeepsInv(before);
      hide Step, Kept, Inv, NewLease;
      StepKeeps(Run(before), a, Offers(before), Removed(before));
      StepOffersMore(Run(before), a);
    }
  }

  /** An open lease is idle exactly if it can be handed out. */
  lemma UsableIsIdle(actions: seq<Action>, lease: Lease)
    requires lease !in Run(actions).closed
    ensures Usable(actions, lease) <==> lease in Idle(Run(actions), lease.guest)
  {
    LeasesAreKept(actions);
    RunKeepsInv(actions);
    hide Run, Accounted, FirstCome, WorkConserving, HandedOut, Removed, Offers, InOrder;
  }

  // ---------------------------------------------------------------- who is served

  /** The earliest offer among the usable leases of a guest. */
  ghost predicate Earliest(actions: seq<Action>, lease: Lease) {
    && Usable(actions, lease)
    && forall l :: Usable(actions, l) && l.guest == lease.guest && l != lease ==> Place(Offers(actions), lease) < Place(Offers(actions), l)
  }

  lemma UsableIsLive(actions: seq<Action>, guest: Guest, lease: Lease)
    requires Usable(actions, lease) && lease.guest == guest
    ensures var s := Run(actions); lease in DropClosed(Idle(s, guest), s.closed)
  {
    var s := Run(actions);
    var idle, live := Idle(s, guest), DropClosed(Idle(s, guest), s.closed);
    LeasesAreKept(actions);
    DropClosedIs(idle, s.closed);
    hide DropClosed, HandedOut, Run, Offers, Removed, Idle, InOrder;
    var i :| 0 <= i < |idle| && idle[i] == lease;
    assert i >= |idle| - |live|;
    assert live[i - (|idle| - |live|)] == lease;
  }

  lemma FirstIsUsable(actions: seq<Action>, guest: Guest)
    requires var s := Run(actions); DropClosed(Idle(s, guest), s.closed) != []
    ensures var s := Run(actions);
            var live := DropClosed(Idle(s, guest), s.closed);
            live[0].guest == guest && Usable(actions, live[0]) && InOrder(live, Offers(actions))
  {
    var s := Run(actions);
    var idle, live := Idle(s, guest), DropClosed(Idle(s, guest), s.closed);
    LeasesAreKept(actions);
    RunKeepsInv(actions);
    DropClosedIs(idle, s.closed);
    hide DropClosed, Run, Offers, Removed, InOrder, Accounted, FirstCome, WorkConserving, HandedOut;
    assert live[0] == idle[|idle| - |live|];
    assert live[0] in Idle(s, guest);
    assert InOrder(idle, Offers(actions));
    WithoutFront(idle, |idle| - |live|, Offers(actions));
  }

  /** The first open lease of a guest's list is its earliest usable one; there is none exactly if the guest has no usable lease. */
  lemma LiveIsEarliest(actions: seq<Action>, guest: Guest)
    ensures var s := Run(actions);
            var live := DropClosed(Idle(s, guest), s.closed);
            && (live != [] ==> live[0].guest == guest && Earliest(actions, live[0]))
            && (live == [] ==> forall l :: Usable(actions, l) ==> l.guest != guest)
  {
    var s := Run(actions);
    var live := DropClosed(Idle(s, guest), s.closed);
    hide DropClosed, Run, Offers, Usable, Idle;
    forall l | Usable(actions, l) && l.guest == guest ensures l in live { UsableIsLive(actions, guest, l); }
    if live != [] {
      FirstIsUsable(actions, guest);
      forall l | Usable(actions, l) && l.guest == guest && l != live[0] ensures Place(Offers(actions), live[0]) < Place(Offers(actions), l) {
        var i :| 0 <= i < |live| && live[i] == l;
      }
    }
  }

  /** The guest has a lease that can be handed out. */
  ghost predicate HasUsable(actions: seq<Action>, guest: Guest) {
    exists l :: Usable(actions, l) && l.guest == guest
  }

  /** The last promise settled is this one, with the guest's earliest usable lease. */
  ghost predicate ServesEarliest(actions: seq<Action>, guest: Guest, s: State, t: State) {
    && |t.settled| == |s.settled| + 1 && t.settled[..|s.settled|] == s.settled && t.requests == s.requests + [guest]
    && var last := t.settled[|s.settled|];
       last.who == |s.requests| && last.outcome.Served? && last.outcome.lease.guest == guest && Earliest(actions, last.outcome.lease)
  }

  /** An acquisition is served at once exactly if the guest has a usable lease, and by the earliest offered; otherwise it waits last. */
  lemma AcquisitionServedExactly(actions: seq<Action>, guest: Guest)
    ensures var s := Run(actions);
            var t := Step(s, Take(guest));
            if HasUsable(actions, guest) then ServesEarliest(actions, guest, s, t)
            else t.settled == s.settled && t.requests == s.requests + [guest] && Queue(t, guest) == Queue(s, guest) + [|s.requests|]
                 && |s.requests| in t.armed
  {
    var s := Run(actions);
    LiveIsEarliest(actions, guest);
    var live := DropClosed(Idle(s, guest), s.closed);
    hide DropClosed, Run, Usable, Earliest;
    if live != [] { assert Usable(actions, live[0]) by { EarliestIsUsable(actions, live[0]); } }
  }

  lemma EarliestIsUsable(actions: seq<Action>, lease: Lease)
    requires Earliest(actions, lease)
    ensures Usable(actions, lease)
  {}

  /** Trying to acquire succeeds exactly then, and changes no promise otherwise. */
  lemma TryingSucceedsExactly(actions: seq<Action>, guest: Guest)
    ensures var s := Run(actions);
            var (t, ok) := TryAcquire(s, guest);
            && (ok <==> HasUsable(actions, guest))
            && (ok ==> ServesEarliest(actions, guest, s, t))
            && (!ok ==> t.settled == s.settled && t.requests == s.requests && t.queues == s.queues)
  {
    var s := Run(actions);
    LiveIsEarliest(actions, guest);
    var idle := Idle(s, guest);
    var live := DropClosed(idle, s.closed);
    DropClosedIs(idle, s.closed);
    hide DropClosed, Run, Usable, Earliest;
    if live != [] {
      assert Usable(actions, live[0]) by { EarliestIsUsable(actions, live[0]); }
      var s1 := WithIdle(s, guest, live);
      assert Idle(s1, guest) == live;
      OpenStays(live, s.closed);
    }
  }

  lemma OpenStays(leases: seq<Lease>, closed: set<Lease>)
    requires leases != [] && leases[0] !in closed
    ensures DropClosed(leases, closed) == leases
  {}

  /** A new open lease goes to the first waiter of its guest, or becomes usable if nobody waits. */
  lemma OfferedLeaseServes(actions: seq<Action>, lease: Lease)
    requires var s := Run(actions); NewLease(s, lease) && lease !in s.closed
    ensures var s := Run(actions);
            var t := Step(s, Offer(lease));
            if Queue(s, lease.guest) != [] then t.settled == s.settled + [Settlement(Queue(s, lease.guest)[0], Served(lease))]
            else t.settled == s.settled && Usable(actions + [Offer(lease)], lease)
  {
    hide Key, Inv;
    var more := actions + [Offer(lease)];
    assert more[..|more| - 1] == actions;
    RunKeepsInv(actions);
    LeasesAreKept(actions);
    FreshLease(Run(actions), lease);
  }

  lemma FreshLease(s: State, lease: Lease)
    requires Inv(s) && NewLease(s, lease)
    ensures lease !in s.offered && !HandedOut(s, lease)
  {
    hide Accounted, FirstCome, WorkConserving;
  }

  // ---------------------------------------------------------------- closing and failing

  /** Closing a guest's leases closes the streams of all it had idle or active, and nobody else's. */
  lemma ClosingClosesExactly(s: State, guest: Guest, lease: Lease)
    ensures var t := Step(s, CloseOne(guest));
            && (lease in t.closed <==>
                  lease in s.closed || lease in Idle(s, guest) || exists k :: k in s.active && s.active[k] == lease && lease.guest == guest)
            && Idle(t, guest) == [] && (forall g :: g != guest ==> Idle(t, g) == Idle(s, g))
            && (forall k :: k in t.active <==> k in s.active && s.active[k].guest != guest)
  {}

  /** Failing a guest's waiters rejects them in their order, and touches no other guest. */
  lemma FailingRejectsExactly(s: State, guest: Guest)
    ensures var t := Step(s, FailOne(guest));
            && |t.settled| == |s.settled| + |Queue(s, guest)| && t.settled[..|s.settled|] == s.settled
            && (forall i :: 0 <= i < |Queue(s, guest)| ==> t.settled[|s.settled| + i] == Settlement(Queue(s, guest)[i], Rejected))
            && Queue(t, guest) == [] && (forall g :: g != guest ==> Queue(t, g) == Queue(s, g))
  {
    SettleEachIs(Queue(s, guest), Rejected);
  }

  /** A timer that fires times out its own acquisition, and leaves the others in their order. */
  lemma TimeoutIsOwn(s: State, who: nat)
    requires who in s.armed && who < |s.requests|
    ensures var t := Step(s, TimerFires(who));
            && t.settled == s.settled + [Settlement(who, TimedOut)] && t.armed == s.armed - {who}
            && (forall w :: w in Queue(t, s.requests[who]) <==> w in Queue(s, s.requests[who]) && w != who)
            && (forall g :: g != s.requests[who] ==> Queue(t, g) == Queue(s, g))
  {
    forall w: nat ensures w in Dequeued(Queue(s, s.requests[who]), who) <==> w in Queue(s, s.requests[who]) && w != who {
      DequeuedIs(Queue(s, s.requests[who]), who, w);
    }
  }
}
