// What clearing a full seen set does to flooding: exactly when a Host handles a tag again,
// and a run in which it does.

module FloodClearing {
  import opened Flooding

  // ---------------------------------------------------------------- the history of a seen set

  /** Action k of the run adds the tag to the Host's seen set. */
  predicate Records(g: Graph, actions: seq<Action>, k: nat, h: nat, id: Id)
    requires g.Valid() && k < |actions| && h < |g.hostIds|
  {
    var s := Run(g, actions[..k]).net;
    match actions[k]
    case Tag(d) => d == h && id == g.name(h, s.counter[h] + 1)
    case Take(e) => e < |g.edges| && s.wire[e] != [] && g.edges[e].dst == h && s.wire[e][0] == id && id !in s.seen[h]
  }

  /** Action k clears the Host's seen set. */
  predicate ClearsAt(g: Graph, actions: seq<Action>, k: nat, h: nat)
    requires g.Valid() && k < |actions| && h < |g.hostIds|
  {
    && Clears(g, Run(g, actions[..k]).net, actions[k])
    && match actions[k]
       case Tag(d) => d == h
       case Take(e) => g.edges[e].dst == h
  }

  /** The Host's set was cleared by an action behind k. */
  predicate ClearedSince(g: Graph, actions: seq<Action>, k: nat, h: nat)
    requires g.Valid() && h < |g.hostIds|
  {
    exists m: nat :: k < m < |actions| && ClearsAt(g, actions, m, h)
  }

  /** Some action recorded the tag and the set was not cleared since. */
  predicate Kept(g: Graph, actions: seq<Action>, h: nat, id: Id)
    requires g.Valid() && h < |g.hostIds|
  {
    exists k: nat :: k < |actions| && Records(g, actions, k, h, id) && !ClearedSince(g, actions, k, h)
  }

  lemma SamePrefix(g: Graph, actions: seq<Action>, k: nat, h: nat, id: Id)
    requires g.Valid() && k < |actions| - 1 && h < |g.hostIds|
    ensures Records(g, actions[..|actions| - 1], k, h, id) == Records(g, actions, k, h, id)
    ensures ClearsAt(g, actions[..|actions| - 1], k, h) == ClearsAt(g, actions, k, h)
  {
    assert actions[..|actions| - 1][..k] == actions[..k];
  }

  /** One more action: a clearing forgets what was kept, and what the action records is kept. */
  lemma KeptByOneMore(g: Graph, actions: seq<Action>, h: nat, id: Id)
    requires g.Valid() && actions != [] && h < |g.hostIds|
    ensures var last := |actions| - 1;
            Kept(g, actions, h, id) <==>
              Records(g, actions, last, h, id) || (Kept(g, actions[..last], h, id) && !ClearsAt(g, actions, last, h))
  {
    hide Records, ClearsAt;
    var last := |actions| - 1;
    var before := actions[..last];
    forall k: nat | k < last ensures Records(g, before, k, h, id) == Records(g, actions, k, h, id)
      && ClearsAt(g, before, k, h) == ClearsAt(g, actions, k, h)
    {
      SamePrefix(g, actions, k, h, id);
    }
    forall k: nat | k < last
      ensures ClearedSince(g, actions, k, h) <==> ClearedSince(g, before, k, h) || ClearsAt(g, actions, last, h)
    {
      if ClearedSince(g, before, k, h) {
        var m: nat :| k < m < |before| && ClearsAt(g, before, m, h);
        assert ClearsAt(g, actions, m, h);
      }
    }
    if Records(g, actions, last, h, id) {
      assert !ClearedSince(g, actions, last, h);
    }
  }

  /** What one action does to a Host's seen set. */
  lemma SeenByOneMore(g: Graph, w: World, a: Action, h: nat)
    requires g.Valid() && Shaped(g, w.net) && h < |g.hostIds|
    ensures var s, t := w.net, Step(g, w, a).net;
            match a
            case Tag(d) =>
              d == h ==> t.seen[h] == Remember(s.seen[h], g.name(h, s.counter[h] + 1))
            case Take(e) =>
              e < |g.edges| && s.wire[e] != [] && g.edges[e].dst == h && s.wire[e][0] !in s.seen[h] ==>
                t.seen[h] == Remember(s.seen[h], s.wire[e][0])
    ensures var s, t := w.net, Step(g, w, a).net;
            (match a
             case Tag(d) => d != h
             case Take(e) => e >= |g.edges| || s.wire[e] == [] || g.edges[e].dst != h || s.wire[e][0] in s.seen[h]) ==>
              t.seen[h] == s.seen[h]
  {}

  /** In every run a Host's seen set holds exactly the tags it recorded since it was last cleared. */
  lemma {:induction false} SeenExactly(g: Graph, actions: seq<Action>, h: nat, id: Id)
    requires g.Valid() && h < |g.hostIds|
    ensures id in Run(g, actions).net.seen[h] <==> Kept(g, actions, h, id)
  {
    if actions == [] {
    } else {
      var before, a := actions[..|actions| - 1], actions[|actions| - 1];
      SeenExactly(g, before, h, id);
      KeptByOneMore(g, actions, h, id);
      hide Kept, ClearedSince, Step;
      SeenByOneMore(g, Run(g, before), a, h);
    }
  }

  /**
   * Exactly when a delivery handles a tag that its Host has recorded before: the set was
   * cleared since the Host last recorded it.
   */
  lemma {:induction false} HandledAgainExactly(g: Graph, actions: seq<Action>, e: nat, k: nat)
    requires g.Valid() && e < |g.edges| && Run(g, actions).net.wire[e] != []
    requires k < |actions|
    requires Records(g, actions, k, g.edges[e].dst, Run(g, actions).net.wire[e][0])
    requires forall m: nat :: k < m < |actions| ==> !Records(g, actions, m, g.edges[e].dst, Run(g, actions).net.wire[e][0])
    ensures Deliver(g, Run(g, actions).net, e).1 <==> ClearedSince(g, actions, k, g.edges[e].dst)
  {
    var h, id := g.edges[e].dst, Run(g, actions).net.wire[e][0];
    SeenExactly(g, actions, h, id);
    hide Run, Records, ClearsAt;
    if Kept(g, actions, h, id) {
      var j: nat :| j < |actions| && Records(g, actions, j, h, id) && !ClearedSince(g, actions, j, h);
      assert j <= k;
    }
  }

  /** A tag that a Host has handled was recorded there. */
  lemma {:induction false} HandledIsRecorded(g: Graph, actions: seq<Action>, i: nat)
    requires g.Valid() && i < |Run(g, actions).handled|
    ensures var (h, id) := Run(g, actions).handled[i];
            h < |g.hostIds| && exists k: nat :: k < |actions| && Records(g, actions, k, h, id)
  {
    var before, last := actions[..|actions| - 1], |actions| - 1;
    var (h, id) := Run(g, actions).handled[i];
    HandledByOneMore(g, Run(g, before), actions[last]);
    if i < |Run(g, before).handled| {
      HandledIsRecorded(g, before, i);
      hide Run, Records;
      var k: nat :| k < |before| && Records(g, before, k, h, id);
      SamePrefix(g, actions, k, h, id);
    } else {
      hide Run;
      assert Records(g, actions, last, h, id);
    }
  }

  lemma HandledByOneMore(g: Graph, w: World, a: Action)
    requires g.Valid() && Shaped(g, w.net)
    ensures var t := Step(g, w, a);
            t.handled == w.handled
            || (a.Take? && a.edge < |g.edges| && w.net.wire[a.edge] != []
                && w.net.wire[a.edge][0] !in w.net.seen[g.edges[a.edge].dst]
                && t.handled == w.handled + [(g.edges[a.edge].dst, w.net.wire[a.edge][0])])
  {}

  // ---------------------------------------------------------------- a run that handles a tag twice

  /** Two Hosts that are joined by two links, each written to from both ends. */
  const TwoLinks: Graph :=
    FloodGraph(["a", "b"], [Edge(0, 1, "a"), Edge(0, 1, "a"), Edge(1, 0, "b"), Edge(1, 0, "b")])

  function Tagged(i: nat): Id {
    EventId("a", i)
  }

  /** The first n tags of Host a. */
  function TaggedUpTo(n: nat): set<Id> {
    if n == 0 then {} else TaggedUpTo(n - 1) + {Tagged(n)}
  }

  function InOrder(n: nat): seq<Id> {
    if n == 0 then [] else InOrder(n - 1) + [Tagged(n)]
  }

  function AtB(n: nat): seq<(nat, Id)> {
    if n == 0 then [] else AtB(n - 1) + [(1, Tagged(n))]
  }

  /** Host a tags n events, and Host b takes each from the first link only. */
  function Rounds(n: nat): seq<Action> {
    if n == 0 then [] else Rounds(n - 1) + [Tag(0)] + [Take(0)]
  }

  lemma TwoLinksValid()
    ensures TwoLinks.Valid() && TwoLinks.UniqueNames()
  {
    FloodGraphValid(["a", "b"], [Edge(0, 1, "a"), Edge(0, 1, "a"), Edge(1, 0, "b"), Edge(1, 0, "b")]);
  }

  lemma {:induction false} TaggedOnce(n: nat)
    ensures |TaggedUpTo(n)| == n && forall i: nat :: Tagged(i) in TaggedUpTo(n) <==> 1 <= i <= n
  {
    if n == 0 {
    } else {
      TaggedOnce(n - 1);
      forall i: nat | Tagged(i) == Tagged(n) ensures i == n { EventIdInjective("a", i, "a", n); }
    }
  }

  lemma {:induction false} InOrderStarts(n: nat)
    requires n > 0
    ensures |InOrder(n)| == n && InOrder(n)[0] == Tagged(1)
    ensures |AtB(n)| == n && AtB(n)[0] == (1, Tagged(1))
  {
    if n > 1 { InOrderStarts(n - 1); }
  }

  /** Host a tags its n-th event: both links carry it. */
  lemma TagRound(w: World, n: nat)
    requires TwoLinks.Valid() && Shaped(TwoLinks, w.net) && w.net.counter[0] == n
    ensures var t := Step(TwoLinks, w, Tag(0));
            && t.handled == w.handled && t.net.counter[0] == n + 1 && t.net.seen[1] == w.net.seen[1]
            && t.net.wire[0] == w.net.wire[0] + [Tagged(n + 1)] && t.net.wire[1] == w.net.wire[1] + [Tagged(n + 1)]
  {
    hide EventId;
  }

  /** Host b takes a tag it has not seen. */
  lemma TakeRound(w: World, e: nat)
    requires TwoLinks.Valid() && Shaped(TwoLinks, w.net) && e < 2 && w.net.wire[e] != [] && w.net.wire[e][0] !in w.net.seen[1]
    ensures var t, id := Step(TwoLinks, w, Take(e)), w.net.wire[e][0];
            && t.handled == w.handled + [(1, id)] && t.net.counter == w.net.counter
            && t.net.seen[1] == Remember(w.net.seen[1], id)
            && t.net.wire[e] == w.net.wire[e][1..] && t.net.wire[1 - e] == w.net.wire[1 - e]
  {
    assert forall f: nat :: f < 2 ==> TwoLinks.edges[f].src == 0;
  }

  lemma RunOne(g: Graph, actions: seq<Action>, a: Action)
    requires g.Valid()
    ensures Run(g, actions + [a]) == Step(g, Run(g, actions), a)
  {
    assert (actions + [a])[..|actions|] == actions;
  }

  /** Up to the limit Host b remembers every tag it took. */
  lemma {:induction false} AfterRounds(n: nat)
    requires TwoLinks.Valid() && n <= SEEN_LIMIT
    ensures var w := Run(TwoLinks, Rounds(n));
            && w.handled == AtB(n) && w.net.counter[0] == n && w.net.seen[1] == TaggedUpTo(n)
            && w.net.wire[0] == [] && w.net.wire[1] == InOrder(n)
  {
    hide Run, EventId;
    if n == 0 {
      BeforeRounds();
    } else {
      AfterRounds(n - 1);
      TaggedOnce(n - 1);
      OneRound(n - 1);
    }
  }

  lemma BeforeRounds()
    requires TwoLinks.Valid()
    ensures Run(TwoLinks, Rounds(0)) == Empty(TwoLinks)
  {}

  lemma OneRound(n: nat)
    requires TwoLinks.Valid()
    requires var w := Run(TwoLinks, Rounds(n)); w.net.counter[0] == n && w.net.wire[0] == [] && Tagged(n + 1) !in w.net.seen[1]
    ensures var w, t := Run(TwoLinks, Rounds(n)), Run(TwoLinks, Rounds(n + 1));
            && t.handled == w.handled + [(1, Tagged(n + 1))] && t.net.counter[0] == n + 1
            && t.net.seen[1] == Remember(w.net.seen[1], Tagged(n + 1))
            && t.net.wire[0] == [] && t.net.wire[1] == w.net.wire[1] + [Tagged(n + 1)]
  {
    hide Run, Step, EventId;
    var w := Run(TwoLinks, Rounds(n));
    RunOne(TwoLinks, Rounds(n), Tag(0));
    RunOne(TwoLinks, Rounds(n) + [Tag(0)], Take(0));
    TagRound(w, n);
    var u := Step(TwoLinks, w, Tag(0));
    assert u.net.wire[0] == [Tagged(n + 1)];
    TakeRound(u, 0);
  }

  /** One tag more than the limit, and Host b handles the first tag a second time, off the other link. */
  lemma HandledTwice(n: nat)
    requires n == 10000
    ensures TwoLinks.Valid() && TwoLinks.UniqueNames()
    ensures var w := Run(TwoLinks, Rounds(n + 1) + [Take(1)]);
            |w.handled| == n + 2 && w.handled[0] == w.handled[n + 1] == (1, Tagged(1))
  {
    hide Run, EventId, TaggedUpTo, InOrder, AtB, Rounds, Step;
    TwoLinksValid();
    AfterRounds(n);
    TaggedOnce(n);
    InOrderStarts(n);
    OneRound(n);
    var t := Run(TwoLinks, Rounds(n + 1));
    assert Tagged(1) in TaggedUpTo(n) && Tagged(n + 1) !in TaggedUpTo(n);
    assert t.net.seen[1] == {} + {Tagged(n + 1)};
    RunOne(TwoLinks, Rounds(n + 1), Take(1));
    TakeRound(t, 1);
  }
}
