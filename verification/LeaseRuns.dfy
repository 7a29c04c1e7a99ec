// What the lease pool promises over whole runs.

module LeaseRuns {
  import opened LeasePool

  /** In every run all of the pool's promises hold. */
  lemma {:induction false} RunKeepsInv(actions: seq<Action>)
    ensures Inv(Run(actions))
  {
    if actions != [] {
      RunKeepsInv(actions[..|actions| - 1]);
      StepKeepsInv(Run(actions[..|actions| - 1]), actions[|actions| - 1]);
    }
  }

  predicate IsServed(outcome: Outcome) { outcome.Served? }
  predicate IsTimedOut(outcome: Outcome) { outcome.TimedOut? }
  predicate IsRejected(outcome: Outcome) { outcome.Rejected? }

  function Count(settled: seq<Settlement>, kind: Outcome -> bool): nat {
    if settled == [] then 0
    else Count(settled[..|settled| - 1], kind) + (if kind(settled[|settled| - 1].outcome) then 1 else 0)
  }

  lemma {:induction false} KindsAddUp(settled: seq<Settlement>)
    ensures Count(settled, IsServed) + Count(settled, IsTimedOut) + Count(settled, IsRejected) == |settled|
  {
    if settled != [] { KindsAddUp(settled[..|settled| - 1]); }
  }

  function Waiting(s: State, n: nat): set<nat>
    requires n <= |s.requests|
  {
    set w: nat | 0 <= w < n && Waits(s, s.requests[w], w)
  }

  function SettledSet(settled: seq<Settlement>): set<nat> {
    if settled == [] then {} else SettledSet(settled[..|settled| - 1]) + {settled[|settled| - 1].who}
  }

  lemma {:induction false} SettledSetHas(settled: seq<Settlement>, w: nat)
    ensures w in SettledSet(settled) <==> exists i :: 0 <= i < |settled| && settled[i].who == w
  {
    if settled != [] {
      var front := settled[..|settled| - 1];
      SettledSetHas(front, w);
      if i :| 0 <= i < |settled| && settled[i].who == w {
        assert i == |settled| - 1 || front[i].who == w;
      }
    }
  }

  lemma {:induction false} SettledSetSize(settled: seq<Settlement>)
    requires forall i, j :: 0 <= i < j < |settled| ==> settled[i].who != settled[j].who
    ensures |SettledSet(settled)| == |settled|
  {
    if settled != [] {
      SettledSetSize(settled[..|settled| - 1]);
      SettledSetHas(settled[..|settled| - 1], settled[|settled| - 1].who);
    }
  }

  function Below(n: nat): set<nat> {
    if n == 0 then {} else Below(n - 1) + {n - 1}
  }

  lemma {:induction false} BelowIs(n: nat)
    ensures |Below(n)| == n && forall w: nat :: w in Below(n) <==> w < n
  {
    if n > 0 { BelowIs(n - 1); }
  }

  /** The acquisitions split into the settled and the waiting. */
  lemma SettledOrWaiting(s: State)
    requires Accounted(s)
    ensures |s.requests| == |s.settled| + |Waiting(s, |s.requests|)|
  {
    SettledSetSize(s.settled);
    BelowIs(|s.requests|);
    var all := Below(|s.requests|);
    var done, waiting := SettledSet(s.settled), Waiting(s, |s.requests|);
    forall w: nat ensures w in done <==> w < |s.requests| && IsSettled(s, w) {
      SettledSetHas(s.settled, w);
    }
    forall w: nat ensures w in waiting <==> w < |s.requests| && !IsSettled(s, w) {}
    hide IsSettled, Waits, Accounted, SettledSet, Waiting, Below;
    PartitionSize(all, done, waiting);
  }

  lemma PartitionSize(all: set<nat>, a: set<nat>, b: set<nat>)
    requires forall w :: w in all <==> w in a || w in b
    requires forall w :: w in a ==> w !in b
    ensures |all| == |a| + |b|
  {
    assert all == a + b && a !! b;
  }

  /** Conservation: issued = served + timed out + failed + waiting, in every run. */
  lemma AcquisitionsAreConserved(actions: seq<Action>)
    ensures var s := Run(actions);
            |s.requests| == Count(s.settled, IsServed) + Count(s.settled, IsTimedOut) + Count(s.settled, IsRejected)
                            + |Waiting(s, |s.requests|)|
  {
    RunKeepsInv(actions);
    KindsAddUp(Run(actions).settled);
    SettledOrWaiting(Run(actions));
  }

  /** Every acquisition settles at most once, and is queued with its timer armed exactly until then. */
  lemma SettlesOnce(actions: seq<Action>, who: nat)
    requires who < |Run(actions).requests|
    ensures var s := Run(actions);
            && (who in s.armed <==> Waits(s, s.requests[who], who))
            && (Waits(s, s.requests[who], who) <==> !IsSettled(s, who))
            && (forall i, j | 0 <= i < |s.settled| && 0 <= j < |s.settled| && s.settled[i].who == who == s.settled[j].who
                :: i == j)
            && (forall g | Waits(s, g, who) :: g == s.requests[who])
  {
    RunKeepsInv(actions);
  }

  /** Waiters of a guest are served in arrival order with leases of that guest, and no lease is handed out twice. */
  lemma ServedInOrder(actions: seq<Action>, i: nat, j: nat)
    requires var s := Run(actions);
             i < j < |s.settled| && s.settled[i].outcome.Served? && s.settled[j].outcome.Served?
    ensures var s := Run(actions);
            var first, second := s.settled[i], s.settled[j];
            && first.who < |s.requests| && second.who < |s.requests|
            && first.outcome.lease.guest == s.requests[first.who]
            && (s.requests[first.who] == s.requests[second.who] ==> first.who < second.who)
            && first.outcome.lease != second.outcome.lease
  {
    RunKeepsInv(actions);
  }

  /** A guest with waiters has no idle lease. */
  lemma WaitersMeanNoIdleLease(actions: seq<Action>, guest: Guest)
    ensures var s := Run(actions); Queue(s, guest) != [] ==> Idle(s, guest) == []
  {
    RunKeepsInv(actions);
  }

  /** No lease is ever idle and active, or idle after it was handed out. */
  lemma IdleIsNotActive(actions: seq<Action>, guest: Guest, lease: Lease)
    requires lease in Idle(Run(actions), guest)
    ensures var s := Run(actions);
            && lease !in s.flagged && !HandedOut(s, lease)
            && (forall k :: k in s.active ==> s.active[k] != lease)
            && Distinct(Idle(s, guest))
            && (forall g :: lease in Idle(s, g) ==> g == guest)
  {
    RunKeepsInv(actions);
  }

  lemma NobodyWaits(s: State)
    requires Inv(s) && s.queues == map[]
    ensures s.armed == {} && forall who: nat :: who < |s.requests| ==> IsSettled(s, who)
  {
    hide FirstCome, WorkConserving, Exclusive;
    forall w: nat ensures w !in s.armed {}
  }

  /** Failing all queues leaves nobody waiting, no timer armed, and no acquisition unsettled. */
  lemma FailingSettlesEveryone(actions: seq<Action>, guests: seq<Guest>)
    requires AllQueues(Run(actions), guests)
    ensures var r := Step(Run(actions), FailEvery(guests));
            && r.queues == map[] && r.armed == {}
            && (forall who: nat :: who < |r.requests| ==> IsSettled(r, who))
  {
    hide FailEach, Run, Inv;
    var s := Run(actions);
    RunKeepsInv(actions);
    FailEachKeepsInv(s, guests);
    FailEachEmpties(s, guests);
    var r := FailEach(s, guests);
    assert r.queues.Keys == {};
    NobodyWaits(r);
  }

  /** `r` extends the settlements of `s`; what it serves beyond them is one lease that was live. */
  predicate ServesLive(s: State, r: State) {
    && |s.settled| <= |r.settled| && r.settled[..|s.settled|] == s.settled
    && (forall i | |s.settled| <= i < |r.settled| && r.settled[i].outcome.Served? ::
          r.settled[i].outcome.lease !in s.closed && |r.settled| == |s.settled| + 1)
  }

  lemma AcquireServesLive(s: State, guest: Guest)
    ensures ServesLive(s, Acquire(s, guest))
  {
    DropClosedIs(Idle(s, guest), s.closed);
  }

  /** Whatever a step of a run hands out was live just before, and it hands out at most one lease. */
  lemma HandOutsAreLive(actions: seq<Action>, a: Action)
    ensures ServesLive(Run(actions), Step(Run(actions), a))
  {
    var s := Run(actions);
    match a
    case Take(guest) => AcquireServesLive(s, guest);
    case TryTake(guest) =>
      AcquireServesLive(WithIdle(s, guest, DropClosed(Idle(s, guest), s.closed)), guest);
    case FailOne(guest) => SettleEachIs(Queue(s, guest), Rejected);
    case FailEvery(guests) => FailEachOnlyRejects(s, guests);
    case _ =>
  }

  lemma {:induction false} FailEachOnlyRejects(s: State, guests: seq<Guest>)
    ensures var r := FailEach(s, guests);
            && |s.settled| <= |r.settled| && r.settled[..|s.settled|] == s.settled
            && (forall i :: |s.settled| <= i < |r.settled| ==> r.settled[i].outcome == Rejected)
  {
    if guests != [] {
      FailEachOnlyRejects(s, guests[..|guests| - 1]);
      SettleEachIs(Queue(FailEach(s, guests[..|guests| - 1]), guests[|guests| - 1]), Rejected);
    }
  }
}
