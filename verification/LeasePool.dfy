// The Host's pool of Guest lease streams: idle leases, active leases, and queued
// acquisitions with their timers.
//
// This file has the steps, the invariant that each of them keeps, and the pool object; what
// it means for whole runs is in LeaseRuns.dfy.

module LeasePool {
  type Guest = string

  /** A lease stream. Its text key tells it from every other lease that is ever offered. */
  datatype Lease = Lease(guest: Guest, id: string)

  function Key(lease: Lease): string {
    lease.guest + ":" + lease.id
  }

  datatype Outcome = Served(lease: Lease) | TimedOut | Rejected

  /** Acquisition `who` had its promise settled. */
  datatype Settlement = Settlement(who: nat, outcome: Outcome)

  /**
   * The pool, the state of the streams and timers around it, and the promises it has
   * issued and settled. Acquisitions are numbered in the order they were made.
   */
  datatype State = State(
    idle: map<Guest, seq<Lease>>,
    active: map<string, Lease>,
    queues: map<Guest, seq<nat>>,
    flagged: set<Lease>,             // leases whose `active` flag is set
    closed: set<Lease>,              // leases whose stream is closed or reset
    armed: set<nat>,                 // acquisitions whose timer is running
    offered: set<Lease>,
    requests: seq<Guest>,            // the guest of each acquisition
    settled: seq<Settlement>)

  const Empty := State(map[], map[], map[], {}, {}, {}, {}, [], [])

  function Idle(s: State, guest: Guest): seq<Lease> {
    if guest in s.idle then s.idle[guest] else []
  }

  function Queue(s: State, guest: Guest): seq<nat> {
    if guest in s.queues then s.queues[guest] else []
  }

  predicate Waits(s: State, guest: Guest, who: nat) {
    who in Queue(s, guest)
  }

  /** The leases left after closed ones are shifted off the front. */
  function DropClosed(leases: seq<Lease>, closed: set<Lease>): seq<Lease> {
    if leases == [] || leases[0] !in closed then leases else DropClosed(leases[1..], closed)
  }

  function WithIdle(s: State, guest: Guest, leases: seq<Lease>): State {
    s.(idle := if leases == [] then s.idle - {guest} else s.idle[guest := leases])
  }

  /** Marks a lease active and hands it to acquisition `who`. */
  function HandOut(s: State, who: nat, lease: Lease): State {
    s.(flagged := s.flagged + {lease},
       active := s.active[Key(lease) := lease],
       settled := s.settled + [Settlement(who, Served(lease))])
  }

  function AddIdle(s: State, lease: Lease): State {
    if lease in s.closed then s
    else
      var queue := Queue(s, lease.guest);
      if queue != [] then
        HandOut(s.(queues := s.queues[lease.guest := queue[1..]], armed := s.armed - {queue[0]}), queue[0], lease)
      else s.(idle := s.idle[lease.guest := Idle(s, lease.guest) + [lease]])
  }

  function Acquire(s: State, guest: Guest): State {
    var who := |s.requests|;
    var live := DropClosed(Idle(s, guest), s.closed);
    var s1 := s.(requests := s.requests + [guest]);
    if live != [] then HandOut(WithIdle(s1, guest, live[1..]), who, live[0])
    else
      WithIdle(s1, guest, []).(queues := s.queues[guest := Queue(s, guest) + [who]], armed := s.armed + {who})
  }

  /** Acquires only when a live idle lease is there; the flag says whether it did. */
  function TryAcquire(s: State, guest: Guest): (State, bool) {
    var live := DropClosed(Idle(s, guest), s.closed);
    var s1 := WithIdle(s, guest, live);
    if live == [] then (s1, false) else (Acquire(s1, guest), true)
  }

  function Filtered(leases: seq<Lease>, lease: Lease): seq<Lease> {
    if leases == [] then []
    else Filtered(leases[..|leases| - 1], lease) + (if leases[|leases| - 1] == lease then [] else [leases[|leases| - 1]])
  }

  function RemoveLease(s: State, lease: Lease): State {
    WithIdle(s, lease.guest, Filtered(Idle(s, lease.guest), lease))
    .(flagged := s.flagged - {lease}, active := s.active - {Key(lease)})
  }

  function CloseGuest(s: State, guest: Guest): State {
    s.(closed := s.closed + (set l | l in Idle(s, guest)) + (set k | k in s.active && s.active[k].guest == guest :: s.active[k]),
       idle := s.idle - {guest},
       active := map k | k in s.active && s.active[k].guest != guest :: s.active[k])
  }

  function CloseAll(s: State): State {
    s.(closed := s.closed + (set g, l | g in s.idle && l in s.idle[g] :: l) + (set k | k in s.active :: s.active[k]),
       idle := map[], active := map[])
  }

  /** Settles the acquisitions of a list, in order. */
  function SettleEach(queue: seq<nat>, outcome: Outcome): seq<Settlement> {
    if queue == [] then [] else SettleEach(queue[..|queue| - 1], outcome) + [Settlement(queue[|queue| - 1], outcome)]
  }

  function FailGuest(s: State, guest: Guest): State {
    s.(queues := s.queues - {guest},
       armed := s.armed - (set w | w in Queue(s, guest)),
       settled := s.settled + SettleEach(Queue(s, guest), Rejected))
  }

  function FailEach(s: State, guests: seq<Guest>): State {
    if guests == [] then s else FailGuest(FailEach(s, guests[..|guests| - 1]), guests[|guests| - 1])
  }

  function Dequeued(queue: seq<nat>, who: nat): seq<nat> {
    if queue == [] then []
    else Dequeued(queue[..|queue| - 1], who) + (if queue[|queue| - 1] == who then [] else [queue[|queue| - 1]])
  }

  function TimeOut(s: State, who: nat): State
    requires who < |s.requests|
  {
    var guest := s.requests[who];
    s.(queues := s.queues[guest := Dequeued(Queue(s, guest), who)],
       armed := s.armed - {who},
       settled := s.settled + [Settlement(who, TimedOut)])
  }

  // ---------------------------------------------------------------- runs

  datatype Action =
    | Offer(lease: Lease)
    | Take(guest: Guest)
    | TryTake(guest: Guest)
    | Remove(lease: Lease)
    | StreamCloses(lease: Lease)
    | CloseOne(guest: Guest)
    | CloseEvery
    | FailOne(guest: Guest)
    | FailEvery(guests: seq<Guest>)
    | TimerFires(who: nat)

  /** A lease is offered once, and its text key is its own. */
  predicate NewLease(s: State, lease: Lease) {
    forall l :: l in s.offered ==> Key(l) != Key(lease)
  }

  /** The guests that have a queue, each of them. */
  ghost predicate AllQueues(s: State, guests: seq<Guest>) {
    forall g :: g in guests <==> g in s.queues
  }

  ghost function Step(s: State, a: Action): State {
    match a
    case Offer(lease) => if NewLease(s, lease) then AddIdle(s.(offered := s.offered + {lease}), lease) else s
    case Take(guest) => Acquire(s, guest)
    case TryTake(guest) => TryAcquire(s, guest).0
    case Remove(lease) => if lease in s.offered then RemoveLease(s, lease) else s
    case StreamCloses(lease) => s.(closed := s.closed + {lease})
    case CloseOne(guest) => CloseGuest(s, guest)
    case CloseEvery => CloseAll(s)
    case FailOne(guest) => FailGuest(s, guest)
    case FailEvery(guests) => if AllQueues(s, guests) then FailEach(s, guests) else s
    case TimerFires(who) => if who in s.armed && who < |s.requests| then TimeOut(s, who) else s
  }

  ghost function Run(actions: seq<Action>): State {
    if actions == [] then Empty else Step(Run(actions[..|actions| - 1]), actions[|actions| - 1])
  }

  // ---------------------------------------------------------------- acquisitions

  predicate IsSettled(s: State, who: nat) {
    exists i :: 0 <= i < |s.settled| && s.settled[i].who == who
  }

  predicate Increasing(queue: seq<nat>) {
    forall i, j :: 0 <= i < j < |queue| ==> queue[i] < queue[j]
  }

  /** Queues hold acquisitions of their own guest, in the order they were made. */
  ghost predicate Queued(s: State) {
    && (forall g, w: nat :: Waits(s, g, w) ==> w < |s.requests| && s.requests[w] == g)
    && (forall g :: Increasing(Queue(s, g)))
  }

  /** An acquisition's timer is armed exactly while it waits. */
  ghost predicate Timed(s: State) {
    forall w: nat :: w in s.armed <==> w < |s.requests| && Waits(s, s.requests[w], w)
  }

  predicate InRange(s: State) {
    forall i :: 0 <= i < |s.settled| ==> s.settled[i].who < |s.requests|
  }

  /** An acquisition waits exactly until it is settled, which happens once. */
  ghost predicate Promised(s: State) {
    && (forall w: nat :: w < |s.requests| ==> (Waits(s, s.requests[w], w) <==> !IsSettled(s, w)))
    && (forall i, j :: 0 <= i < j < |s.settled| ==> s.settled[i].who != s.settled[j].who)
  }

  ghost predicate Accounted(s: State) {
    Queued(s) && Timed(s) && InRange(s) && Promised(s)
  }

  /** Whoever was served got a lease of its guest, before everybody served later and everybody still waiting. */
  ghost predicate FirstCome(s: State)
    requires InRange(s)
  {
    && (forall i | 0 <= i < |s.settled| && s.settled[i].outcome.Served? ::
          s.settled[i].outcome.lease.guest == s.requests[s.settled[i].who])
    && (forall i, j | 0 <= i < j < |s.settled| && s.settled[i].outcome.Served? && s.settled[j].outcome.Served?
          && s.requests[s.settled[i].who] == s.requests[s.settled[j].who] :: s.settled[i].who < s.settled[j].who)
    && (forall i, w: nat | 0 <= i < |s.settled| && s.settled[i].outcome.Served?
          && Waits(s, s.requests[s.settled[i].who], w) :: s.settled[i].who < w)
  }

  /** A guest with waiters has no idle lease. */
  ghost predicate WorkConserving(s: State) {
    forall g :: Idle(s, g) != [] ==> Queue(s, g) == []
  }

  // ---------------------------------------------------------------- leases

  predicate Distinct(leases: seq<Lease>) {
    forall i, j :: 0 <= i < j < |leases| ==> leases[i] != leases[j]
  }

  predicate HandedOut(s: State, lease: Lease) {
    exists i :: 0 <= i < |s.settled| && s.settled[i].outcome == Served(lease)
  }

  /** Offered leases have their own keys, and only they carry the `active` flag. */
  ghost predicate KeysDiffer(s: State) {
    && s.flagged <= s.offered
    && (forall a, b | a in s.offered && b in s.offered && Key(a) == Key(b) :: a == b)
  }

  /** An idle lease sits once in its guest's list, is not flagged and was never handed out. */
  ghost predicate IdleFree(s: State) {
    && (forall g, l :: l in Idle(s, g) ==> l.guest == g && l in s.offered && l !in s.flagged && !HandedOut(s, l))
    && (forall g :: Distinct(Idle(s, g)))
  }

  /** An active lease was handed out under its key, and no lease is handed out twice. */
  ghost predicate HeldOnce(s: State) {
    && (forall k :: k in s.active ==> Key(s.active[k]) == k && s.active[k] in s.offered && HandedOut(s, s.active[k]))
    && (forall i :: 0 <= i < |s.settled| && s.settled[i].outcome.Served? ==> s.settled[i].outcome.lease in s.offered)
    && (forall i, j | 0 <= i < j < |s.settled| && s.settled[i].outcome.Served? && s.settled[j].outcome.Served? ::
          s.settled[i].outcome.lease != s.settled[j].outcome.lease)
  }

  ghost predicate Exclusive(s: State) {
    KeysDiffer(s) && IdleFree(s) && HeldOnce(s)
  }

  ghost predicate Inv(s: State) {
    Accounted(s) && FirstCome(s) && WorkConserving(s) && Exclusive(s)
  }

  // ---------------------------------------------------------------- retiring waiters

  predicate Names(new_: seq<Settlement>, who: nat) {
    exists i :: 0 <= i < |new_| && new_[i].who == who
  }

  /** `r` follows `s` by settling some waiting acquisitions and taking exactly those out of their queues. */
  ghost predicate Retires(s: State, r: State, new_: seq<Settlement>) {
    && r.requests == s.requests && r.settled == s.settled + new_
    && (forall i :: 0 <= i < |new_| ==> new_[i].who < |s.requests| && Waits(s, s.requests[new_[i].who], new_[i].who))
    && (forall i, j :: 0 <= i < j < |new_| ==> new_[i].who != new_[j].who)
    && (forall g, w: nat :: Waits(r, g, w) <==> Waits(s, g, w) && !Names(new_, w))
    && (forall g :: Increasing(Queue(r, g)))
    && (forall w: nat :: w in r.armed <==> w in s.armed && !Names(new_, w))
  }

  lemma SettledAfter(s: State, r: State, new_: seq<Settlement>, who: nat)
    requires r.settled == s.settled + new_
    ensures IsSettled(r, who) <==> IsSettled(s, who) || Names(new_, who)
  {
    if IsSettled(s, who) {
      var i :| 0 <= i < |s.settled| && s.settled[i].who == who;
      assert r.settled[i].who == who;
    }
    if Names(new_, who) {
      var i :| 0 <= i < |new_| && new_[i].who == who;
      assert r.settled[|s.settled| + i].who == who;
    }
  }

  lemma RetireKeepsAccounted(s: State, r: State, new_: seq<Settlement>)
    requires Accounted(s) && Retires(s, r, new_)
    ensures Accounted(r)
  {
    forall w: nat | w < |s.requests|
      ensures Waits(r, s.requests[w], w) <==> !IsSettled(r, w)
    {
      SettledAfter(s, r, new_, w);
    }
    forall i, j | 0 <= i < j < |r.settled|
      ensures r.settled[i].who != r.settled[j].who
    {
      if i < |s.settled| <= j {
        var w := new_[j - |s.settled|].who;
        assert Waits(s, s.requests[w], w) && !IsSettled(s, w);
        assert s.settled[i].who == w ==> IsSettled(s, w);
      }
    }
  }

  /** Retiring without serving anyone keeps the order. */
  lemma DropKeepsFirstCome(s: State, r: State, new_: seq<Settlement>)
    requires InRange(s) && InRange(r) && FirstCome(s) && Retires(s, r, new_)
    requires forall i :: 0 <= i < |new_| ==> !new_[i].outcome.Served?
    ensures FirstCome(r)
  {
  }

  /** Serving the head of a queue keeps the order. */
  lemma ServeKeepsFirstCome(s: State, r: State, guest: Guest, lease: Lease)
    requires Queued(s) && InRange(s) && InRange(r) && FirstCome(s) && Queue(s, guest) != [] && lease.guest == guest
    requires Retires(s, r, [Settlement(Queue(s, guest)[0], Served(lease))])
    ensures FirstCome(r)
  {
    var queue, head := Queue(s, guest), Queue(s, guest)[0];
    assert Waits(s, guest, head) && Increasing(queue);
    forall w: nat | Waits(r, guest, w) ensures head < w {
      assert Waits(s, guest, w) && [Settlement(head, Served(lease))][0].who == head;
      var k :| 0 <= k < |queue| && queue[k] == w;
    }
    hide Waits, Increasing, Names;
    forall i, w: nat | 0 <= i < |r.settled| && r.settled[i].outcome.Served? && Waits(r, r.requests[r.settled[i].who], w)
      ensures r.settled[i].who < w
    {
      if i < |s.settled| {
        assert Waits(s, s.requests[s.settled[i].who], w);
      }
    }
  }

  // ---------------------------------------------------------------- sequences

  lemma {:induction false} DequeuedIs(queue: seq<nat>, who: nat, v: nat)
    ensures v in Dequeued(queue, who) <==> v in queue && v != who
  {
    if queue != [] {
      DequeuedIs(queue[..|queue| - 1], who, v);
      assert queue == queue[..|queue| - 1] + [queue[|queue| - 1]];
    }
  }

  lemma {:induction false} DequeuedIncreases(queue: seq<nat>, who: nat)
    requires Increasing(queue)
    ensures Increasing(Dequeued(queue, who))
  {
    if queue != [] {
      var front, last := queue[..|queue| - 1], queue[|queue| - 1];
      DequeuedIncreases(front, who);
      forall i | 0 <= i < |Dequeued(front, who)| ensures Dequeued(front, who)[i] < last {
        DequeuedIs(front, who, Dequeued(front, who)[i]);
      }
    }
  }

  lemma {:induction false} FilteredIs(leases: seq<Lease>, lease: Lease, l: Lease)
    requires Distinct(leases)
    ensures l in Filtered(leases, lease) <==> l in leases && l != lease
    ensures Distinct(Filtered(leases, lease))
  {
    if leases != [] {
      var front, f := leases[..|leases| - 1], Filtered(leases[..|leases| - 1], lease);
      FilteredIs(front, lease, l);
      assert leases == front + [leases[|leases| - 1]];
      forall i | 0 <= i < |f| ensures f[i] != leases[|leases| - 1] {
        FilteredIs(front, lease, f[i]);
      }
    }
  }

  lemma {:induction false} SettleEachIs(queue: seq<nat>, outcome: Outcome)
    ensures |SettleEach(queue, outcome)| == |queue|
    ensures forall i :: 0 <= i < |queue| ==> SettleEach(queue, outcome)[i] == Settlement(queue[i], outcome)
  {
    if queue != [] { SettleEachIs(queue[..|queue| - 1], outcome); }
  }

  // ---------------------------------------------------------------- leases move between the lists

  lemma HandedOutAfter(s: State, r: State, new_: seq<Settlement>, lease: Lease)
    requires r.settled == s.settled + new_
    ensures HandedOut(r, lease) <==>
            HandedOut(s, lease) || exists i :: 0 <= i < |new_| && new_[i].outcome == Served(lease)
  {
    if HandedOut(s, lease) {
      var i :| 0 <= i < |s.settled| && s.settled[i].outcome == Served(lease);
      assert r.settled[i].outcome == Served(lease);
    }
    if i :| 0 <= i < |new_| && new_[i].outcome == Served(lease) {
      assert r.settled[|s.settled| + i].outcome == Served(lease);
    }
  }

  /** Settling without serving, closing and removing keep leases exclusive: idle and active lists only shrink. */
  lemma ShrinkKeepsExclusive(s: State, r: State, new_: seq<Settlement>)
    requires Exclusive(s) && r.settled == s.settled + new_ && r.offered == s.offered && r.flagged <= s.flagged
    requires forall i :: 0 <= i < |new_| ==> !new_[i].outcome.Served?
    requires forall g, l :: l in Idle(r, g) ==> l in Idle(s, g)
    requires forall g :: Distinct(Idle(r, g))
    requires forall k :: k in r.active ==> k in s.active && r.active[k] == s.active[k]
    ensures Exclusive(r)
  {
    hide Key;
    forall l ensures HandedOut(r, l) == HandedOut(s, l) {
      HandedOutAfter(s, r, new_, l);
    }
  }

  /** Handing out a lease that nobody holds keeps leases exclusive. */
  lemma HandOutKeepsExclusive(s: State, who: nat, lease: Lease)
    requires Exclusive(s) && lease in s.offered && !HandedOut(s, lease)
    requires forall g :: lease !in Idle(s, g)
    ensures Exclusive(HandOut(s, who, lease))
  {
    var r := HandOut(s, who, lease);
    forall l ensures HandedOut(r, l) <==> HandedOut(s, l) || l == lease {
      HandedOutAfter(s, r, [Settlement(who, Served(lease))], l);
      assert [Settlement(who, Served(lease))][0].outcome == Served(lease);
    }
    forall i | 0 <= i < |s.settled| && s.settled[i].outcome.Served?
      ensures s.settled[i].outcome.lease != lease
    {
      assert HandedOut(s, s.settled[i].outcome.lease);
    }
    forall g ensures Idle(r, g) == Idle(s, g) {}
  }

  /** A lease never handed out and not idle anywhere may join an idle list that does not hold its key. */
  lemma OfferKeepsExclusive(s: State, lease: Lease)
    requires Exclusive(s) && NewLease(s, lease)
    ensures Exclusive(s.(offered := s.offered + {lease}))
    ensures var r := s.(offered := s.offered + {lease});
            && !HandedOut(r, lease) && lease !in s.offered && lease !in r.flagged
            && forall g :: lease !in Idle(r, g)
  {
    var r := s.(offered := s.offered + {lease});
    forall l ensures HandedOut(r, l) == HandedOut(s, l) {}
    forall g ensures Idle(r, g) == Idle(s, g) {}
  }

  // ---------------------------------------------------------------- each action keeps the invariant

  lemma HeadRetires(s: State, lease: Lease)
    requires Accounted(s) && lease !in s.closed && Queue(s, lease.guest) != []
    ensures Retires(s, AddIdle(s, lease), [Settlement(Queue(s, lease.guest)[0], Served(lease))])
  {
    var r, queue := AddIdle(s, lease), Queue(s, lease.guest);
    var new_ := [Settlement(queue[0], Served(lease))];
    assert queue == [queue[0]] + queue[1..];
    assert Increasing(queue) && Waits(s, lease.guest, queue[0]);
    forall w: nat ensures Names(new_, w) <==> w == queue[0] {
      assert new_[0].who == queue[0];
    }
    forall g ensures Queue(r, g) == if g == lease.guest then queue[1..] else Queue(s, g) {}
    forall g, w: nat ensures Waits(r, g, w) <==> Waits(s, g, w) && !Names(new_, w) {
      assert Waits(s, g, w) ==> s.requests[w] == g;
    }
    forall g ensures Increasing(Queue(r, g)) {
      assert Increasing(Queue(s, g));
    }
  }

  lemma OfferKeepsInv(s: State, lease: Lease)
    requires Inv(s) && NewLease(s, lease)
    ensures Inv(Step(s, Offer(lease)))
  {
    var s1 := s.(offered := s.offered + {lease});
    OfferKeepsExclusive(s, lease);
    SameListsKeepInv(s, s1);
    if lease !in s.closed {
      if Queue(s1, lease.guest) != [] {
        var queue := Queue(s1, lease.guest);
        HeadRetires(s1, lease);
        RetireKeepsAccounted(s1, AddIdle(s1, lease), [Settlement(queue[0], Served(lease))]);
        ServeKeepsFirstCome(s1, AddIdle(s1, lease), lease.guest, lease);
        var s2 := s1.(queues := s1.queues[lease.guest := queue[1..]], armed := s1.armed - {queue[0]});
        SameLeasesKeepExclusive(s1, s2);
        HandOutKeepsExclusive(s2, queue[0], lease);
        ServeConserves(s1, lease);
      } else {
        NewIdleKeepsInv(s1, lease);
      }
    }
  }

  /** Actions that leave queues, timers and promises alone keep the accounts. */
  lemma SameQueues(s: State, r: State)
    requires Accounted(s) && FirstCome(s)
    requires r.queues == s.queues && r.armed == s.armed && r.requests == s.requests && r.settled == s.settled
    ensures Accounted(r) && FirstCome(r)
  {
    forall w: nat ensures IsSettled(r, w) == IsSettled(s, w) {}
    forall g, w: nat ensures Waits(r, g, w) == Waits(s, g, w) {}
    forall g ensures Queue(r, g) == Queue(s, g) {}
  }

  lemma SameListsKeepInv(s: State, r: State)
    requires Inv(s) && Exclusive(r) && r == s.(offered := r.offered, closed := r.closed)
    ensures Inv(r)
  {
    SameQueues(s, r);
    forall g ensures Queue(r, g) == Queue(s, g) && Idle(r, g) == Idle(s, g) {}
  }

  lemma SameLeasesKeepExclusive(s: State, r: State)
    requires Exclusive(s) && r == s.(queues := r.queues, armed := r.armed, requests := r.requests, closed := r.closed)
    ensures Exclusive(r)
  {
    hide Key;
    forall l ensures HandedOut(r, l) == HandedOut(s, l) {}
    forall g ensures Idle(r, g) == Idle(s, g) {}
  }

  lemma ServeConserves(s: State, lease: Lease)
    requires WorkConserving(s) && lease !in s.closed && Queue(s, lease.guest) != []
    ensures WorkConserving(AddIdle(s, lease))
  {
    var r := AddIdle(s, lease);
    forall g | Idle(r, g) != [] ensures Queue(r, g) == [] {
      assert Idle(s, g) == Idle(r, g) && Queue(s, g) == [];
    }
  }

  lemma NewIdleKeepsFree(s: State, lease: Lease)
    requires IdleFree(s) && lease !in s.closed && Queue(s, lease.guest) == []
    requires lease in s.offered && !HandedOut(s, lease) && lease !in s.flagged && forall g :: lease !in Idle(s, g)
    ensures IdleFree(AddIdle(s, lease))
  {
    var r := AddIdle(s, lease);
    forall l ensures HandedOut(r, l) == HandedOut(s, l) {}
    hide HandedOut;
    forall g ensures Idle(r, g) == if g == lease.guest then Idle(s, g) + [lease] else Idle(s, g) {}
    forall g ensures Distinct(Idle(r, g)) {
      assert Distinct(Idle(s, g)) && lease !in Idle(s, g);
    }
    hide Distinct, AddIdle, Queue, Idle;
    forall g, l | l in Idle(r, g)
      ensures l.guest == g && l in s.offered && l !in s.flagged && !HandedOut(s, l)
    {
      assert l in Idle(s, g) || (l == lease && g == lease.guest);
    }
  }

  lemma NewIdleKeepsExclusive(s: State, lease: Lease)
    requires Exclusive(s) && lease !in s.closed && Queue(s, lease.guest) == []
    requires lease in s.offered && !HandedOut(s, lease) && lease !in s.flagged && forall g :: lease !in Idle(s, g)
    ensures Exclusive(AddIdle(s, lease))
  {
    NewIdleKeepsFree(s, lease);
    hide IdleFree, Key;
    forall l ensures HandedOut(AddIdle(s, lease), l) == HandedOut(s, l) {}
  }

  lemma NewIdleKeepsInv(s: State, lease: Lease)
    requires Inv(s) && lease !in s.closed && Queue(s, lease.guest) == []
    requires lease in s.offered && !HandedOut(s, lease) && lease !in s.flagged && forall g :: lease !in Idle(s, g)
    ensures Inv(AddIdle(s, lease))
  {
    var r := AddIdle(s, lease);
    hide Accounted, FirstCome, Exclusive;
    SameQueues(s, r);
    NewIdleKeepsExclusive(s, lease);
    forall g ensures Queue(r, g) == Queue(s, g) {}
    forall g ensures Idle(r, g) == Idle(s, g) + if g == lease.guest then [lease] else [] {}
  }

  lemma AcquireServesKeepsInv(s: State, guest: Guest)
    requires Inv(s) && DropClosed(Idle(s, guest), s.closed) != []
    ensures Inv(Acquire(s, guest))
  {
    var live, r := DropClosed(Idle(s, guest), s.closed), Acquire(s, guest);
    DropClosedIs(Idle(s, guest), s.closed);
    assert Idle(s, guest) != [] && Queue(s, guest) == [];
    assert live[0] in Idle(s, guest);
    TakeKeepsExclusive(s, guest);
    hide Exclusive, DropClosed;
    ImmediateKeepsAccounted(s, r, guest, live[0]);
    ImmediateKeepsFirstCome(s, r, guest, live[0]);
    hide Accounted, FirstCome;
    forall g ensures Queue(r, g) == Queue(s, g) {}
    forall g ensures Idle(r, g) == if g == guest then live[1..] else Idle(s, g) {}
  }

  /** An acquisition served on the spot. */
  lemma ImmediateKeepsAccounted(s: State, r: State, guest: Guest, lease: Lease)
    requires Accounted(s) && r.queues == s.queues && r.armed == s.armed && r.requests == s.requests + [guest]
    requires r.settled == s.settled + [Settlement(|s.requests|, Served(lease))]
    ensures Accounted(r)
  {
    var new_ := [Settlement(|s.requests|, Served(lease))];
    assert new_[0].who == |s.requests|;
    forall w: nat ensures IsSettled(r, w) <==> IsSettled(s, w) || w == |s.requests| {
      SettledAfter(s, r, new_, w);
    }
    hide IsSettled;
    forall g, w: nat ensures Waits(r, g, w) == Waits(s, g, w) && (Waits(s, g, w) ==> w < |s.requests|) {}
    forall g ensures Queue(r, g) == Queue(s, g) && Increasing(Queue(s, g)) {}
  }

  lemma ImmediateKeepsFirstCome(s: State, r: State, guest: Guest, lease: Lease)
    requires InRange(s) && InRange(r) && FirstCome(s) && Queue(s, guest) == [] && lease.guest == guest
    requires r.queues == s.queues && r.requests == s.requests + [guest]
    requires r.settled == s.settled + [Settlement(|s.requests|, Served(lease))]
    ensures FirstCome(r)
  {
    forall g, w: nat ensures Waits(r, g, w) == Waits(s, g, w) {}
    assert forall w: nat :: !Waits(s, guest, w);
    hide Waits;
    forall i, w: nat | 0 <= i < |r.settled| && r.settled[i].outcome.Served? && Waits(r, r.requests[r.settled[i].who], w)
      ensures r.settled[i].who < w
    {
      if i < |s.settled| {
        assert Waits(s, s.requests[s.settled[i].who], w);
      }
    }
  }

  /** What is left is a suffix that starts with a live lease, and only closed ones were dropped. */
  lemma {:induction false} DropClosedIs(leases: seq<Lease>, closed: set<Lease>)
    ensures var r := DropClosed(leases, closed);
            && |r| <= |leases| && r == leases[|leases| - |r|..]
            && (r != [] ==> r[0] !in closed)
            && (forall i :: 0 <= i < |leases| - |r| ==> leases[i] in closed)
            && DropClosed(r, closed) == r
  {
    if leases != [] && leases[0] in closed {
      DropClosedIs(leases[1..], closed);
      assert forall i :: 1 <= i < |leases| ==> leases[i] == leases[1..][i - 1];
    }
  }

  lemma SuffixIsDistinct(leases: seq<Lease>, n: nat)
    requires Distinct(leases) && n <= |leases|
    ensures Distinct(leases[n..]) && forall l :: l in leases[n..] ==> l in leases
    ensures n < |leases| ==> leases[n] !in leases[n + 1..]
  {
  }

  lemma TakeKeepsExclusive(s: State, guest: Guest)
    requires Exclusive(s) && DropClosed(Idle(s, guest), s.closed) != []
    ensures Exclusive(Acquire(s, guest))
  {
    hide Key;
    var idle, live := Idle(s, guest), DropClosed(Idle(s, guest), s.closed);
    DropClosedIs(idle, s.closed);
    var n := |idle| - |live|;
    var s1 := WithIdle(s.(requests := s.requests + [guest]), guest, live[1..]);
    assert live == idle[n..] && live[1..] == idle[n + 1..] && live[0] == idle[n];
    assert Distinct(idle) && live[0] in idle && !HandedOut(s, live[0]) && live[0].guest == guest;
    SuffixIsDistinct(idle, n);
    SuffixIsDistinct(idle, n + 1);
    forall g ensures Idle(s1, g) == (if g == guest then live[1..] else Idle(s, g))
                     && Distinct(Idle(s1, g)) && live[0] !in Idle(s1, g) {
      assert Distinct(Idle(s, g));
    }
    assert s.settled + [] == s.settled;
    assert HandedOut(s1, live[0]) == HandedOut(s, live[0]);
    hide HandedOut, Distinct;
    ShrinkKeepsExclusive(s, s1, []);
    HandOutKeepsExclusive(s1, |s.requests|, live[0]);
  }

  /** Emptying or shortening one idle list keeps leases exclusive. */
  lemma ShorterIdleKeepsExclusive(s: State, r: State, guest: Guest, leases: seq<Lease>)
    requires Exclusive(s) && Distinct(leases) && forall l :: l in leases ==> l in Idle(s, guest)
    requires r.settled == s.settled && r.offered == s.offered && r.flagged <= s.flagged
    requires r.idle == WithIdle(s, guest, leases).idle
    requires forall k :: k in r.active ==> k in s.active && r.active[k] == s.active[k]
    ensures Exclusive(r)
    ensures forall g :: Idle(r, g) == if g == guest then leases else Idle(s, g)
  {
    forall g ensures Idle(r, g) == (if g == guest then leases else Idle(s, g)) && Distinct(Idle(r, g)) {
      assert Distinct(Idle(s, g));
    }
    assert s.settled + [] == s.settled;
    hide Distinct, Idle;
    ShrinkKeepsExclusive(s, r, []);
  }

  lemma AcquireWaitsKeepsInv(s: State, guest: Guest)
    requires Inv(s) && DropClosed(Idle(s, guest), s.closed) == []
    ensures Inv(Acquire(s, guest))
  {
    var r := Acquire(s, guest);
    assert r == WithIdle(s.(requests := s.requests + [guest]), guest, [])
                .(queues := s.queues[guest := Queue(s, guest) + [|s.requests|]], armed := s.armed + {|s.requests|});
    hide DropClosed, Acquire, Accounted, FirstCome, Exclusive;
    ShorterIdleKeepsExclusive(s, r, guest, []);
    QueueKeepsAccounted(s, r, guest);
    forall g ensures Queue(r, g) == Queue(s, g) + if g == guest then [|s.requests|] else [] {}
  }

  lemma {:induction false} NewcomerKeepsIncreasing(queue: seq<nat>, who: nat)
    requires Increasing(queue) && forall w :: w in queue ==> w < who
    ensures Increasing(queue + [who])
  {
    assert forall i :: 0 <= i < |queue| ==> queue[i] in queue;
  }

  lemma QueueKeepsQueued(s: State, r: State, guest: Guest)
    requires Queued(s)
    requires r.queues == s.queues[guest := Queue(s, guest) + [|s.requests|]] && r.requests == s.requests + [guest]
    ensures Queued(r)
    ensures forall g, w: nat :: Waits(r, g, w) <==> Waits(s, g, w) || (g == guest && w == |s.requests|)
  {
    var who := |s.requests|;
    forall g ensures Increasing(Queue(r, g)) {
      assert Queue(r, g) == if g == guest then Queue(s, g) + [who] else Queue(s, g);
      forall w: nat | w in Queue(s, g) ensures w < who {
        assert Waits(s, g, w);
      }
      NewcomerKeepsIncreasing(Queue(s, g), who);
    }
    hide Increasing;
    forall g, w: nat ensures Waits(r, g, w) <==> Waits(s, g, w) || (g == guest && w == who) {}
    hide Waits;
  }

  lemma QueueKeepsPromised(s: State, r: State, guest: Guest)
    requires Promised(s) && InRange(s) && Timed(s) && r.settled == s.settled
    requires r.armed == s.armed + {|s.requests|} && r.requests == s.requests + [guest]
    requires forall g, w: nat :: Waits(r, g, w) <==> Waits(s, g, w) || (g == guest && w == |s.requests|)
    requires forall g, w: nat :: Waits(s, g, w) ==> w < |s.requests|
    ensures Promised(r) && Timed(r) && InRange(r)
  {
    forall w: nat ensures IsSettled(r, w) == IsSettled(s, w) {}
    assert !IsSettled(s, |s.requests|);
    hide IsSettled, Waits;
  }

  lemma QueueKeepsFirstCome(s: State, r: State, guest: Guest)
    requires InRange(s) && InRange(r) && FirstCome(s) && r.requests == s.requests + [guest] && r.settled == s.settled
    requires forall g, w: nat :: Waits(r, g, w) <==> Waits(s, g, w) || (g == guest && w == |s.requests|)
    ensures FirstCome(r)
  {
    hide Waits;
    forall i, w: nat | 0 <= i < |r.settled| && r.settled[i].outcome.Served? && Waits(r, r.requests[r.settled[i].who], w)
      ensures r.settled[i].who < w
    {
      assert w == |s.requests| || Waits(s, s.requests[s.settled[i].who], w);
    }
  }

  lemma QueueKeepsAccounted(s: State, r: State, guest: Guest)
    requires Accounted(s) && FirstCome(s)
    requires r.queues == s.queues[guest := Queue(s, guest) + [|s.requests|]]
    requires r.armed == s.armed + {|s.requests|} && r.requests == s.requests + [guest] && r.settled == s.settled
    ensures Accounted(r) && FirstCome(r)
  {
    QueueKeepsQueued(s, r, guest);
    assert forall g, w: nat :: Waits(s, g, w) ==> w < |s.requests|;
    hide Queued, Waits, Promised, Timed, InRange, FirstCome;
    QueueKeepsPromised(s, r, guest);
    QueueKeepsFirstCome(s, r, guest);
  }

  lemma ShiftClosedKeepsInv(s: State, guest: Guest)
    requires Inv(s)
    ensures Inv(WithIdle(s, guest, DropClosed(Idle(s, guest), s.closed)))
  {
    var live, idle := DropClosed(Idle(s, guest), s.closed), Idle(s, guest);
    var r := WithIdle(s, guest, live);
    DropClosedIs(idle, s.closed);
    assert Distinct(idle);
    SuffixIsDistinct(idle, |idle| - |live|);
    hide DropClosed, Distinct, Accounted, FirstCome, Exclusive;
    SameQueues(s, r);
    ShorterIdleKeepsExclusive(s, r, guest, live);
    forall g ensures Queue(r, g) == Queue(s, g) {}
  }

  lemma TryAcquireKeepsInv(s: State, guest: Guest)
    requires Inv(s)
    ensures Inv(TryAcquire(s, guest).0)
  {
    var live := DropClosed(Idle(s, guest), s.closed);
    ShiftClosedKeepsInv(s, guest);
    DropClosedIs(Idle(s, guest), s.closed);
    hide Inv, DropClosed;
    if live != [] {
      assert Idle(WithIdle(s, guest, live), guest) == live;
      AcquireServesKeepsInv(WithIdle(s, guest, live), guest);
    }
  }

  lemma RemoveKeepsInv(s: State, lease: Lease)
    requires Inv(s) && lease in s.offered
    ensures Inv(RemoveLease(s, lease))
  {
    var r, left := RemoveLease(s, lease), Filtered(Idle(s, lease.guest), lease);
    assert Distinct(Idle(s, lease.guest));
    forall l ensures l in left <==> l in Idle(s, lease.guest) && l != lease {
      FilteredIs(Idle(s, lease.guest), lease, l);
    }
    FilteredIs(Idle(s, lease.guest), lease, lease);
    assert left != [] ==> left[0] in left;
    hide Filtered, Distinct, Accounted, FirstCome, Exclusive, Key;
    SameQueues(s, r);
    ShorterIdleKeepsExclusive(s, r, lease.guest, left);
    forall g ensures Queue(r, g) == Queue(s, g) {}
  }

  lemma CloseKeepsInv(s: State, r: State)
    requires Inv(s) && r == s.(closed := r.closed, idle := r.idle, active := r.active)
    requires forall g :: Idle(r, g) == [] || Idle(r, g) == Idle(s, g)
    requires forall k :: k in r.active ==> k in s.active && r.active[k] == s.active[k]
    ensures Inv(r)
  {
    SameQueues(s, r);
    assert s.settled + [] == s.settled;
    ShrinkKeepsExclusive(s, r, []);
    forall g ensures Queue(r, g) == Queue(s, g) {}
  }

  /** Settling waiters without serving them keeps the invariant. */
  lemma RetireKeepsInv(s: State, r: State, new_: seq<Settlement>)
    requires Inv(s) && Retires(s, r, new_)
    requires forall i :: 0 <= i < |new_| ==> !new_[i].outcome.Served?
    requires r == s.(queues := r.queues, armed := r.armed, settled := r.settled)
    ensures Inv(r)
  {
    RetireKeepsAccounted(s, r, new_);
    DropKeepsFirstCome(s, r, new_);
    hide FirstCome;
    forall g ensures Idle(r, g) == Idle(s, g) {}
    ShrinkKeepsExclusive(s, r, new_);
    hide Exclusive, Accounted;
    forall g | Queue(s, g) == [] ensures Queue(r, g) == [] {
      assert Queue(r, g) != [] ==> Waits(r, g, Queue(r, g)[0]);
    }
  }

  lemma SettleEachNames(queue: seq<nat>, outcome: Outcome)
    requires Increasing(queue)
    ensures var new_ := SettleEach(queue, outcome);
            && (forall w: nat :: Names(new_, w) <==> w in queue)
            && (forall i, j :: 0 <= i < j < |new_| ==> new_[i].who != new_[j].who)
            && (forall i :: 0 <= i < |new_| ==> new_[i].who in queue && new_[i].outcome == outcome)
  {
    var new_ := SettleEach(queue, outcome);
    SettleEachIs(queue, outcome);
    hide SettleEach;
    forall w: nat ensures Names(new_, w) <==> w in queue {
      if i :| 0 <= i < |queue| && queue[i] == w {
        assert new_[i].who == w;
      }
    }
  }

  lemma FailGuestRetires(s: State, guest: Guest)
    requires Accounted(s)
    ensures Retires(s, FailGuest(s, guest), SettleEach(Queue(s, guest), Rejected))
  {
    var r, queue := FailGuest(s, guest), Queue(s, guest);
    var new_ := SettleEach(queue, Rejected);
    assert Increasing(queue);
    SettleEachNames(queue, Rejected);
    hide SettleEach, IsSettled, Names;
    forall i | 0 <= i < |new_|
      ensures new_[i].who < |s.requests| && Waits(s, s.requests[new_[i].who], new_[i].who)
    {
      assert Waits(s, guest, new_[i].who);
    }
    forall g ensures Queue(r, g) == (if g == guest then [] else Queue(s, g)) && Increasing(Queue(r, g)) {
      assert Increasing(Queue(s, g));
    }
    hide Increasing;
    forall g, w: nat ensures Waits(r, g, w) <==> Waits(s, g, w) && !Names(new_, w) {
      assert Waits(s, g, w) ==> s.requests[w] == g;
      assert Waits(s, guest, w) ==> s.requests[w] == guest;
    }
  }

  lemma FailGuestKeepsInv(s: State, guest: Guest)
    requires Inv(s)
    ensures Inv(FailGuest(s, guest))
  {
    FailGuestRetires(s, guest);
    assert Increasing(Queue(s, guest));
    SettleEachNames(Queue(s, guest), Rejected);
    hide Accounted, FirstCome, Exclusive, SettleEach, Names;
    RetireKeepsInv(s, FailGuest(s, guest), SettleEach(Queue(s, guest), Rejected));
  }

  lemma {:induction false} FailEachKeepsInv(s: State, guests: seq<Guest>)
    requires Inv(s)
    ensures Inv(FailEach(s, guests))
  {
    if guests != [] {
      FailEachKeepsInv(s, guests[..|guests| - 1]);
      FailGuestKeepsInv(FailEach(s, guests[..|guests| - 1]), guests[|guests| - 1]);
    }
  }

  lemma TimeOutRetires(s: State, who: nat)
    requires Accounted(s) && who in s.armed && who < |s.requests|
    ensures Retires(s, TimeOut(s, who), [Settlement(who, TimedOut)])
  {
    var r, guest := TimeOut(s, who), s.requests[who];
    var new_ := [Settlement(who, TimedOut)];
    assert new_[0].who == who && Waits(s, guest, who);
    hide IsSettled;
    forall w: nat ensures w in Dequeued(Queue(s, guest), who) <==> w in Queue(s, guest) && w != who {
      DequeuedIs(Queue(s, guest), who, w);
    }
    assert Increasing(Queue(s, guest));
    DequeuedIncreases(Queue(s, guest), who);
    forall g ensures Queue(r, g) == (if g == guest then Dequeued(Queue(s, g), who) else Queue(s, g))
                     && Increasing(Queue(r, g)) {
      assert Increasing(Queue(s, g));
    }
    hide Dequeued, Increasing;
    forall w: nat ensures Names(new_, w) <==> w == who {}
    forall g, w: nat ensures Waits(r, g, w) <==> Waits(s, g, w) && !Names(new_, w) {
      assert Waits(s, g, w) ==> s.requests[w] == g;
    }
  }

  lemma TimeOutKeepsInv(s: State, who: nat)
    requires Inv(s) && who in s.armed && who < |s.requests|
    ensures Inv(TimeOut(s, who))
  {
    TimeOutRetires(s, who);
    RetireKeepsInv(s, TimeOut(s, who), [Settlement(who, TimedOut)]);
  }

  lemma {:induction false} FailEachEmpties(s: State, guests: seq<Guest>)
    ensures FailEach(s, guests).queues.Keys == s.queues.Keys - (set g | g in guests)
    ensures FailEach(s, guests).requests == s.requests
  {
    if guests != [] { FailEachEmpties(s, guests[..|guests| - 1]); }
  }

  lemma StepKeepsInv(s: State, a: Action)
    requires Inv(s)
    ensures Inv(Step(s, a))
  {
    match a
    case Offer(lease) => if NewLease(s, lease) { OfferKeepsInv(s, lease); }
    case Take(guest) =>
      if DropClosed(Idle(s, guest), s.closed) == [] { AcquireWaitsKeepsInv(s, guest); } else { AcquireServesKeepsInv(s, guest); }
    case TryTake(guest) => TryAcquireKeepsInv(s, guest);
    case Remove(lease) => if lease in s.offered { RemoveKeepsInv(s, lease); }
    case StreamCloses(lease) => CloseKeepsInv(s, Step(s, a));
    case CloseOne(guest) => CloseKeepsInv(s, CloseGuest(s, guest));
    case CloseEvery => CloseKeepsInv(s, CloseAll(s));
    case FailOne(guest) => FailGuestKeepsInv(s, guest);
    case FailEvery(guests) => FailEachKeepsInv(s, guests);
    case TimerFires(who) => if who in s.armed && who < |s.requests| { TimeOutKeepsInv(s, who); }
  }

  // ---------------------------------------------------------------- the pool object

  lemma EmptyInv()
    ensures Inv(Empty)
  {}

  class Pool {
    var idleLeases: map<Guest, seq<Lease>>
    var activeLeases: map<string, Lease>
    var queuedAcquisitions: map<Guest, seq<nat>>
    // The leases' own flags and streams, the timers and the promises the pool deals with.
    var flagged: set<Lease>
    var closed: set<Lease>
    var armed: set<nat>
    var offered: set<Lease>
    var requests: seq<Guest>
    var settled: seq<Settlement>

    function Abstract(): State
      reads this
    {
      State(idleLeases, activeLeases, queuedAcquisitions, flagged, closed, armed, offered, requests, settled)
    }

    /** What the pool promises of every run. */
    ghost predicate Valid()
      reads this
    {
      Inv(Abstract())
    }

    constructor ()
      ensures Abstract() == Empty && Valid()
    {
      hide Inv;
      idleLeases, activeLeases, queuedAcquisitions := map[], map[], map[];
      flagged, closed, armed, offered, requests, settled := {}, {}, {}, {}, [], [];
      new;
      EmptyInv();
    }

    method Activate(who: nat, lease: Lease)
      modifies this
      ensures Abstract() == HandOut(old(Abstract()), who, lease)
    {
      flagged := flagged + {lease};
      activeLeases := activeLeases[Key(lease) := lease];
      settled := settled + [Settlement(who, Served(lease))];
    }

    method AddIdleLease(lease: Lease)
      requires Valid()
      modifies this
      ensures Abstract() == AddIdle(old(Abstract()).(offered := old(offered) + {lease}), lease)
      ensures NewLease(old(Abstract()), lease) ==> Valid()
    {
      hide Inv;
      if NewLease(Abstract(), lease) { OfferKeepsInv(Abstract(), lease); }
      offered := offered + {lease};
      if lease in closed {
        return;
      }
      if lease.guest in queuedAcquisitions && queuedAcquisitions[lease.guest] != [] {
        var queue := queuedAcquisitions[lease.guest];
        queuedAcquisitions := queuedAcquisitions[lease.guest := queue[1..]];
        armed := armed - {queue[0]};
        Activate(queue[0], lease);
        return;
      }
      var idle := if lease.guest in idleLeases then idleLeases[lease.guest] else [];
      idleLeases := idleLeases[lease.guest := idle + [lease]];
    }

    /** Shifts closed leases off the front of a guest's idle list. */
    method ShiftClosed(leases: seq<Lease>) returns (rest: seq<Lease>)
      ensures rest == DropClosed(leases, closed)
    {
      rest := leases;
      while rest != [] && rest[0] in closed
        invariant DropClosed(rest, closed) == DropClosed(leases, closed)
        decreases |rest|
      {
        rest := rest[1..];
      }
    }

    method SetIdle(guest: Guest, leases: seq<Lease>)
      modifies this`idleLeases
      ensures Abstract() == WithIdle(old(Abstract()), guest, leases)
    {
      if leases == [] {
        idleLeases := idleLeases - {guest};
      } else {
        idleLeases := idleLeases[guest := leases];
      }
    }

    method AcquireLease(guest: Guest)
      requires Valid()
      modifies this
      ensures Abstract() == Acquire(old(Abstract()), guest)
      ensures Valid()
    {
      hide Inv;
      StepKeepsInv(Abstract(), Take(guest));
      var who := |requests|;
      requests := requests + [guest];
      var live := ShiftClosed(if guest in idleLeases then idleLeases[guest] else []);
      if live != [] {
        SetIdle(guest, live[1..]);
        Activate(who, live[0]);
        return;
      }
      SetIdle(guest, []);
      var queue := if guest in queuedAcquisitions then queuedAcquisitions[guest] else [];
      queuedAcquisitions := queuedAcquisitions[guest := queue + [who]];
      armed := armed + {who};
    }

    method TryAcquireLease(guest: Guest) returns (acquired: bool)
      requires Valid()
      modifies this
      ensures (Abstract(), acquired) == TryAcquire(old(Abstract()), guest)
      ensures Valid()
    {
      hide Inv;
      TryAcquireKeepsInv(Abstract(), guest);
      ShiftClosedKeepsInv(Abstract(), guest);
      var live := ShiftClosed(if guest in idleLeases then idleLeases[guest] else []);
      SetIdle(guest, live);
      if live == [] {
        return false;
      }
      AcquireLease(guest);
      acquired := true;
    }

    method Remove(lease: Lease)
      requires Valid()
      modifies this
      ensures Abstract() == RemoveLease(old(Abstract()), lease)
      ensures lease in old(offered) ==> Valid()
    {
      hide Inv;
      if lease in offered { RemoveKeepsInv(Abstract(), lease); }
      var leases := if lease.guest in idleLeases then idleLeases[lease.guest] else [];
      var left: seq<Lease> := [];
      for k := 0 to |leases|
        invariant left == Filtered(leases[..k], lease)
      {
        assert leases[..k + 1][..k] == leases[..k];
        if leases[k] != lease {
          left := left + [leases[k]];
        }
      }
      assert leases[..|leases|] == leases;
      SetIdle(lease.guest, left);
      flagged := flagged - {lease};
      activeLeases := activeLeases - {Key(lease)};
    }

    method FailQueued(guest: Guest)
      requires Valid()
      modifies this
      ensures Abstract() == FailGuest(old(Abstract()), guest)
      ensures Valid()
    {
      hide Inv;
      FailGuestKeepsInv(Abstract(), guest);
      var queue := if guest in queuedAcquisitions then queuedAcquisitions[guest] else [];
      queuedAcquisitions := queuedAcquisitions - {guest};
      for k := 0 to |queue|
        invariant Abstract() == old(Abstract()).(queues := queuedAcquisitions, armed := armed, settled := settled)
        invariant queuedAcquisitions == old(queuedAcquisitions) - {guest}
        invariant armed == old(armed) - set w | w in queue[..k]
        invariant settled == old(settled) + SettleEach(queue[..k], Rejected)
      {
        assert queue[..k + 1] == queue[..k] + [queue[k]];
        assert queue[..k + 1][..k] == queue[..k];
        armed := armed - {queue[k]};
        settled := settled + [Settlement(queue[k], Rejected)];
      }
      assert queue[..|queue|] == queue;
    }

    /** `guests` are the keys of the queues, in their order. */
    method FailAllQueued(guests: seq<Guest>)
      requires AllQueues(Abstract(), guests)
      requires Valid()
      modifies this
      ensures Abstract() == FailEach(old(Abstract()), guests)
      ensures queuedAcquisitions == map[]
      ensures Valid()
    {
      hide Inv;
      FailEachKeepsInv(Abstract(), guests);
      FailEachEmpties(Abstract(), guests);
      for k := 0 to |guests|
        invariant Abstract() == FailEach(old(Abstract()), guests[..k]) && Valid()
      {
        assert guests[..k + 1][..k] == guests[..k];
        FailQueued(guests[k]);
      }
      assert guests[..|guests|] == guests;
      assert queuedAcquisitions.Keys == {};
    }

    method TimerFired(who: nat)
      requires who < |requests|
      requires Valid()
      modifies this
      ensures Abstract() == TimeOut(old(Abstract()), who)
      ensures who in old(armed) ==> Valid()
    {
      hide Inv;
      if who in armed { TimeOutKeepsInv(Abstract(), who); }
      var guest := requests[who];
      var queue := if guest in queuedAcquisitions then queuedAcquisitions[guest] else [];
      var left: seq<nat> := [];
      for k := 0 to |queue|
        invariant left == Dequeued(queue[..k], who)
      {
        assert queue[..k + 1][..k] == queue[..k];
        if queue[k] != who {
          left := left + [queue[k]];
        }
      }
      assert queue[..|queue|] == queue;
      queuedAcquisitions := queuedAcquisitions[guest := left];
      armed := armed - {who};
      settled := settled + [Settlement(who, TimedOut)];
    }

    method CloseActive(guest: Guest)
      modifies this`closed, this`activeLeases
      ensures closed == old(closed)
                        + set k | k in old(activeLeases) && old(activeLeases)[k].guest == guest :: old(activeLeases)[k]
      ensures activeLeases == map k | k in old(activeLeases) && old(activeLeases)[k].guest != guest :: old(activeLeases)[k]
    {
      var active, todo := activeLeases, activeLeases.Keys;
      while todo != {}
        invariant todo <= active.Keys
        invariant activeLeases == map k | k in active && (k in todo || active[k].guest != guest) :: active[k]
        invariant closed == old(closed) + set k | k in active && k !in todo && active[k].guest == guest :: active[k]
        decreases todo
      {
        var k :| k in todo;
        if active[k].guest == guest {
          closed := closed + {active[k]};
          activeLeases := activeLeases - {k};
        }
        todo := todo - {k};
      }
    }

    method CloseGuestLeases(guest: Guest)
      requires Valid()
      modifies this
      ensures Abstract() == CloseGuest(old(Abstract()), guest)
      ensures Valid()
    {
      hide Inv;
      StepKeepsInv(Abstract(), CloseOne(guest));
      var idle := if guest in idleLeases then idleLeases[guest] else [];
      closed := closed + set l | l in idle;
      idleLeases := idleLeases - {guest};
      CloseActive(guest);
    }

    method CloseAllLeases()
      requires Valid()
      modifies this
      ensures Abstract() == CloseAll(old(Abstract()))
      ensures Valid()
    {
      hide Inv;
      StepKeepsInv(Abstract(), CloseEvery);
      closed := closed + (set g, l | g in idleLeases && l in idleLeases[g] :: l)
                       + set k | k in activeLeases :: activeLeases[k];
      idleLeases, activeLeases := map[], map[];
    }
  }
}
