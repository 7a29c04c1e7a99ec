// Which leases a pool takes for active, over whole runs. The lemmas say for each operation
// what it does to the active leases and to those marked as handed out; the last two are the
// main ones: the tables are exactly what the history of handing out, removing and closing
// says, and closing every lease closes exactly those.

module LeaseUse {
  import opened LeasePool
  import opened LeaseRuns

  /** The lease a step hands out, if any. */
  function Handed(s: State, t: State): set<Lease> {
    set i | |s.settled| <= i < |t.settled| && t.settled[i].outcome.Served? :: t.settled[i].outcome.lease
  }

  /** The leases handed out and not given back: neither removed, nor closed with their guest, nor with all others. */
  ghost function InUse(actions: seq<Action>): set<Lease> {
    if actions == [] then {}
    else
      var before, a := actions[..|actions| - 1], actions[|actions| - 1];
      UseAfter(Run(before), a, InUse(before))
  }

  ghost function UseAfter(s: State, a: Action, used: set<Lease>): set<Lease> {
    match a
    case Remove(lease) => if lease in s.offered then used - {lease} else used
    case CloseOne(guest) => set l | l in used && l.guest != guest
    case CloseEvery => {}
    case _ => used + Handed(s, Step(s, a))
  }

  /** The leases handed out and not removed: a lease closed with its guest still counts as handed out. */
  ghost function Marked(actions: seq<Action>): set<Lease> {
    if actions == [] then {}
    else
      var before, a := actions[..|actions| - 1], actions[|actions| - 1];
      (if a.Remove? && a.lease in Run(before).offered then Marked(before) - {a.lease} else Marked(before))
      + Handed(Run(before), Run(actions))
  }

  predicate IsActive(s: State, lease: Lease) {
    Key(lease) in s.active && s.active[Key(lease)] == lease
  }

  ghost predicate Uses(s: State, used: set<Lease>, marked: set<Lease>) {
    (forall l :: l in used <==> IsActive(s, l)) && s.flagged == marked
  }

  lemma NobodyHanded(s: State, t: State)
    requires |s.settled| <= |t.settled| && forall i :: |s.settled| <= i < |t.settled| ==> !t.settled[i].outcome.Served?
    ensures Handed(s, t) == {}
  {}

  /** A lease handed out becomes active and is marked, and no other one changes. */
  lemma HandOutUses(s: State, r: State, who: nat, lease: Lease, used: set<Lease>, marked: set<Lease>)
    requires Uses(s, used, marked) && KeysDiffer(r) && lease in r.offered
    requires forall k :: k in s.active ==> Key(s.active[k]) == k && s.active[k] in r.offered
    requires r.active == s.active && r.flagged == s.flagged && r.settled == s.settled
    ensures var t := HandOut(r, who, lease);
            Handed(s, t) == {lease} && Uses(t, used + Handed(s, t), marked + Handed(s, t))
  {
    var t := HandOut(r, who, lease);
    assert t.settled[|s.settled|].outcome == Served(lease);
    forall l ensures l in used + {lease} <==> IsActive(t, l) {
      if l in used { assert s.active[Key(l)] in r.offered; }
    }
  }

  lemma UnchangedUses(s: State, t: State, used: set<Lease>, marked: set<Lease>)
    requires Uses(s, used, marked) && t.active == s.active && t.flagged == s.flagged
    requires |s.settled| <= |t.settled| && forall i :: |s.settled| <= i < |t.settled| ==> !t.settled[i].outcome.Served?
    ensures Uses(t, used, marked) && Handed(s, t) == {} && used + {} == used && marked + {} == marked
  {
    NobodyHanded(s, t);
    forall l ensures l in used <==> IsActive(t, l) { assert IsActive(s, l) == IsActive(t, l); }
  }

  lemma OfferUses(s: State, lease: Lease, used: set<Lease>, marked: set<Lease>)
    requires Inv(s) && Uses(s, used, marked) && NewLease(s, lease)
    ensures var t := Step(s, Offer(lease)); Uses(t, used + Handed(s, t), marked + Handed(s, t))
  {
    hide Accounted, FirstCome, WorkConserving, Uses, Key, Handed;
    var s1 := s.(offered := s.offered + {lease});
    var queue := Queue(s, lease.guest);
    if lease !in s.closed && queue != [] {
      var r := s1.(queues := s1.queues[lease.guest := queue[1..]], armed := s1.armed - {queue[0]});
      HandOutUses(s, r, queue[0], lease, used, marked);
    } else { UnchangedUses(s, Step(s, Offer(lease)), used, marked); }
  }

  lemma AcquireUses(s: State, guest: Guest, used: set<Lease>, marked: set<Lease>)
    requires Inv(s) && Uses(s, used, marked)
    ensures var t := Acquire(s, guest); Uses(t, used + Handed(s, t), marked + Handed(s, t))
  {
    var idle := Idle(s, guest);
    var live := DropClosed(idle, s.closed);
    DropClosedIs(idle, s.closed);
    hide Accounted, FirstCome, WorkConserving, Uses, Key, Handed, DropClosed;
    if live != [] {
      assert live[0] == idle[|idle| - |live|];
      assert live[0] in Idle(s, guest);
      HandOutUses(s, WithIdle(s.(requests := s.requests + [guest]), guest, live[1..]), |s.requests|, live[0], used, marked);
    } else { UnchangedUses(s, Acquire(s, guest), used, marked); }
  }

  lemma TryUses(s: State, guest: Guest, used: set<Lease>, marked: set<Lease>)
    requires Inv(s) && Uses(s, used, marked)
    ensures var t := Step(s, TryTake(guest)); Uses(t, used + Handed(s, t), marked + Handed(s, t))
  {
    var s1 := WithIdle(s, guest, DropClosed(Idle(s, guest), s.closed));
    ShiftClosedKeepsInv(s, guest);
    hide Inv, DropClosed, Uses, Handed, Acquire;
    UnchangedUses(s, s1, used, marked);
    if DropClosed(Idle(s, guest), s.closed) != [] {
      AcquireUses(s1, guest, used, marked);
      assert Handed(s1, Acquire(s1, guest)) == Handed(s, Acquire(s1, guest)) by { SameHanded(s1, s, Acquire(s1, guest)); }
    }
  }

  lemma SameHanded(s: State, r: State, t: State)
    requires s.settled == r.settled
    ensures Handed(s, t) == Handed(r, t)
  {}

  lemma RemoveUses(s: State, lease: Lease, used: set<Lease>, marked: set<Lease>)
    requires Inv(s) && Uses(s, used, marked) && lease in s.offered
    ensures var t := RemoveLease(s, lease); Uses(t, used - {lease}, marked - {lease}) && Handed(s, t) == {}
  {
    hide Accounted, FirstCome, WorkConserving, Key, Filtered;
    var t := RemoveLease(s, lease);
    forall l ensures l in used - {lease} <==> IsActive(t, l) {
      if Key(l) == Key(lease) && l in used { assert s.active[Key(l)] == l && l in s.offered; }
    }
  }

  lemma CloseUses(s: State, a: Action, used: set<Lease>, marked: set<Lease>)
    requires Uses(s, used, marked) && (a.CloseOne? || a.CloseEvery?)
    ensures Uses(Step(s, a), UseAfter(s, a, used), marked) && Handed(s, Step(s, a)) == {}
  {
    hide Key;
    forall l ensures l in UseAfter(s, a, used) <==> IsActive(Step(s, a), l) { assert l in used <==> IsActive(s, l); }
  }

  lemma FailUses(s: State, a: Action, used: set<Lease>, marked: set<Lease>)
    requires Uses(s, used, marked) && (a.FailOne? || a.FailEvery?)
    ensures Uses(Step(s, a), used, marked) && Handed(s, Step(s, a)) == {} && used + {} == used && marked + {} == marked
  {
    hide Uses, Handed, AllQueues;
    if a.FailOne? {
      FailEachRejects(s, [a.guest]);
      assert FailEach(s, [a.guest]) == FailGuest(FailEach(s, []), a.guest);
      UnchangedUses(s, Step(s, a), used, marked);
    }
    else {
      FailEachRejects(s, a.guests);
      UnchangedUses(s, FailEach(s, a.guests), used, marked);
      UnchangedUses(s, s, used, marked);
    }
  }

  lemma {:induction false} FailEachRejects(s: State, guests: seq<Guest>)
    ensures var t := FailEach(s, guests);
            && t.active == s.active && t.flagged == s.flagged && |s.settled| <= |t.settled|
            && forall i :: |s.settled| <= i < |t.settled| ==> !t.settled[i].outcome.Served?
  {
    if guests != [] {
      FailEachRejects(s, guests[..|guests| - 1]);
      SettleEachIs(Queue(FailEach(s, guests[..|guests| - 1]), guests[|guests| - 1]), Rejected);
    }
  }

  lemma StepUses(s: State, a: Action, used: set<Lease>, marked: set<Lease>)
    requires Inv(s) && Uses(s, used, marked)
    ensures Uses(Step(s, a), UseAfter(s, a, used),
                 (if a.Remove? && a.lease in s.offered then marked - {a.lease} else marked) + Handed(s, Step(s, a)))
  {
    hide Inv, Uses, Handed, NewLease, AllQueues, RemoveLease, Acquire;
    match a
    case Offer(lease) => if NewLease(s, lease) { OfferUses(s, lease, used, marked); } else { UnchangedUses(s, s, used, marked); }
    case Take(guest) => AcquireUses(s, guest, used, marked);
    case TryTake(guest) => TryUses(s, guest, used, marked);
    case Remove(lease) =>
      if lease in s.offered { RemoveUses(s, lease, used, marked); assert marked - {lease} + {} == marked - {lease}; }
      else { UnchangedUses(s, s, used, marked); }
    case CloseOne(_) => CloseUses(s, a, used, marked); assert marked + {} == marked;
    case CloseEvery => CloseUses(s, a, used, marked); assert marked + {} == marked;
    case FailOne(_) => FailUses(s, a, used, marked);
    case FailEvery(_) => FailUses(s, a, used, marked);
    case StreamCloses(_) => UnchangedUses(s, Step(s, a), used, marked);
    case TimerFires(who) => UnchangedUses(s, Step(s, a), used, marked);
  }

  /** Over any run the active leases are those in use, and the marked ones those handed out and not removed. */
  lemma {:induction false} ActiveExactly(actions: seq<Action>)
    ensures forall l :: l in InUse(actions) <==> IsActive(Run(actions), l)
    ensures Run(actions).flagged == Marked(actions)
  {
    if actions != [] {
      var before, a := actions[..|actions| - 1], actions[|actions| - 1];
      ActiveExactly(before);
      RunKeepsInv(before);
      hide Inv, Step, IsActive, UseAfter, Handed;
      StepUses(Run(before), a, InUse(before), Marked(before));
    }
  }

  /** Closing every lease closes the streams of all that are idle or in use, and no other; none is idle or in use then. */
  lemma ClosingAllClosesExactly(actions: seq<Action>, lease: Lease)
    ensures var s := Run(actions);
            var t := Step(s, CloseEvery);
            && (lease in t.closed <==> lease in s.closed || lease in Idle(s, lease.guest) || lease in InUse(actions))
            && (forall g :: Idle(t, g) == []) && (forall l :: !IsActive(t, l))
            && t.queues == s.queues && t.settled == s.settled
  {
    ActiveExactly(actions);
    RunKeepsInv(actions);
    hide Run, InUse, Marked, Accounted, FirstCome, WorkConserving, HandedOut;
    var s := Run(actions);
    if lease in InUse(actions) { assert IsActive(s, lease); }
    if k :| k in s.active && s.active[k] == lease { assert IsActive(s, lease); }
    if g :| g in s.idle && lease in s.idle[g] { assert lease in Idle(s, g); }
    if lease in Idle(s, lease.guest) { assert lease.guest in s.idle; }
  }
}
