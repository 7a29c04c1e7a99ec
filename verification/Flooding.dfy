// Flooding of tagged events over a graph of Hosts that drop what they have seen.

module Flooding {
  import opened Prelude

  const SEEN_LIMIT := 10000

  // ---------------------------------------------------------------- event IDs

  function Digit(n: nat): char
    requires n < 10
  {
    ['0', '1', '2', '3', '4', '5', '6', '7', '8', '9'][n]
  }

  function Decimal(n: nat): (s: string)
    ensures |s| > 0 && forall i :: 0 <= i < |s| ==> s[i] != ':'
  {
    if n < 10 then [Digit(n)] else Decimal(n / 10) + [Digit(n % 10)]
  }

  lemma {:induction false} DecimalInjective(a: nat, b: nat)
    requires Decimal(a) == Decimal(b)
    ensures a == b
  {
    var x, y := Decimal(a), Decimal(b);
    assert x[|x| - 1] == Digit(a % 10) && y[|y| - 1] == Digit(b % 10);
    if a >= 10 && b >= 10 {
      assert x[..|x| - 1] == Decimal(a / 10) && y[..|y| - 1] == Decimal(b / 10);
      DecimalInjective(a / 10, b / 10);
    }
  }

  function EventId(hostId: string, counter: nat): string {
    hostId + ":" + Decimal(counter)
  }

  /** Tags are globally unique: one text never names two (Host, counter) pairs, even if Host IDs hold colons. */
  lemma EventIdInjective(h1: string, c1: nat, h2: string, c2: nat)
    requires EventId(h1, c1) == EventId(h2, c2)
    ensures h1 == h2 && c1 == c2
  {
    var x, y := EventId(h1, c1), EventId(h2, c2);
    assert forall i :: |h1| < i < |x| ==> x[i] == Decimal(c1)[i - |h1| - 1];
    assert forall i :: |h2| < i < |y| ==> y[i] == Decimal(c2)[i - |h2| - 1];
    assert x[|h1|] == ':' && y[|h2|] == ':';
    assert h1 == x[..|h1|] && h2 == y[..|h2|];
    assert Decimal(c1) == x[|h1| + 1..] && Decimal(c2) == y[|h2| + 1..];
    DecimalInjective(c1, c2);
  }

  // ---------------------------------------------------------------- the graph and its state

  type Id = string

  /**
   * One end of a link: Host `src` may write to Host `dst`, which will take what
   * arrives as coming from the owner label `owner`.
   */
  datatype Edge = Edge(src: nat, dst: nat, owner: string)

  /** `name(h, c)` is the text of the `c`-th tag of Host `h`. */
  datatype Graph = Graph(hostIds: seq<string>, edges: seq<Edge>, name: (nat, nat) -> Id) {
    /** Edges join Hosts, and an owner label never names a Host other than the sender. */
    predicate Valid() {
      && (forall e :: 0 <= e < |edges| ==> edges[e].src < |hostIds| && edges[e].dst < |hostIds|)
      && (forall e, h :: 0 <= e < |edges| && 0 <= h < |hostIds| && hostIds[h] == edges[e].owner ==> h == edges[e].src)
    }

    ghost predicate UniqueNames() {
      forall h1: nat, c1: nat, h2: nat, c2: nat |
        h1 < |hostIds| && h2 < |hostIds| && name(h1, c1) == name(h2, c2) :: h1 == h2 && c1 == c2
    }
  }

  /** The graph whose tags are the texts the Hosts build. */
  function FloodGraph(hostIds: seq<string>, edges: seq<Edge>): Graph {
    Graph(hostIds, edges, (h: nat, c: nat) => if h < |hostIds| then EventId(hostIds[h], c) else "")
  }

  /** Distinct Host IDs make the built texts unique over all Hosts and all counters. */
  lemma FloodGraphValid(hostIds: seq<string>, edges: seq<Edge>)
    requires forall i, j :: 0 <= i < j < |hostIds| ==> hostIds[i] != hostIds[j]
    requires forall e :: 0 <= e < |edges| ==> edges[e].src < |hostIds| && edges[e].dst < |hostIds|
    requires forall e :: 0 <= e < |edges| ==> edges[e].owner == hostIds[edges[e].src]
    ensures FloodGraph(hostIds, edges).Valid() && FloodGraph(hostIds, edges).UniqueNames()
  {
    var g := FloodGraph(hostIds, edges);
    forall h1: nat, c1: nat, h2: nat, c2: nat |
      h1 < |hostIds| && h2 < |hostIds| && g.name(h1, c1) == g.name(h2, c2)
      ensures h1 == h2 && c1 == c2
    {
      EventIdInjective(hostIds[h1], c1, hostIds[h2], c2);
    }
  }

  /** `wire[e]` is the queue of tags written to edge `e` and not yet delivered. */
  datatype State = State(seen: seq<set<Id>>, counter: seq<nat>, wire: seq<seq<Id>>)

  /** A tag's issuer and its number there. */
  datatype Issue = Issue(host: nat, count: nat)

  /** A state of the network with the history of a run. */
  datatype World = World(
    net: State,
    issued: map<Id, Issue>,        // every tag issued so far
    deliveries: nat,               // frames taken off an edge
    handled: seq<(nat, Id)>)       // (Host, tag) pairs that were processed and forwarded

  predicate Shaped(g: Graph, s: State) {
    |s.seen| == |g.hostIds| && |s.counter| == |g.hostIds| && |s.wire| == |g.edges|
  }

  function Empty(g: Graph): World {
    World(State(seq(|g.hostIds|, _ => {}), seq(|g.hostIds|, _ => 0), seq(|g.edges|, _ => [])), map[], 0, [])
  }

  /** Adding a tag to a seen set, which is cleared first when it has reached the limit. */
  function Remember(seen: set<Id>, id: Id): set<Id> {
    (if |seen| >= SEEN_LIMIT then {} else seen) + {id}
  }

  /** Host `h` writes to `e` when it forwards something whose owner label is `excluded`. */
  predicate Forwards(g: Graph, h: nat, excluded: Option<string>, e: nat)
    requires g.Valid() && e < |g.edges|
  {
    g.edges[e].src == h && (excluded.None? || g.hostIds[g.edges[e].dst] != excluded.value)
  }

  /** The wires after Host `h` has forwarded `id` over the first `n` edges: one frame on each edge it may use. */
  function Forward(g: Graph, wire: seq<seq<Id>>, h: nat, excluded: Option<string>, id: Id, n: nat): (w: seq<seq<Id>>)
    requires g.Valid() && |wire| == |g.edges| && n <= |g.edges|
    ensures |w| == |wire|
    ensures forall e :: 0 <= e < |wire| ==>
      w[e] == if e < n && Forwards(g, h, excluded, e) then wire[e] + [id] else wire[e]
  {
    if n == 0 then wire
    else
      var w := Forward(g, wire, h, excluded, id, n - 1);
      if Forwards(g, h, excluded, n - 1) then w[n - 1 := w[n - 1] + [id]] else w
  }

  /** Host `h` tags an event of its own and floods it. */
  function Originate(g: Graph, s: State, h: nat): (State, Id)
    requires g.Valid() && Shaped(g, s) && h < |g.hostIds|
  {
    var id := g.name(h, s.counter[h] + 1);
    (State(s.seen[h := Remember(s.seen[h], id)],
           s.counter[h := s.counter[h] + 1],
           Forward(g, s.wire, h, None, id, |g.edges|)),
     id)
  }

  /** The Host at the far end of `e` handles the next frame; the flag says whether it was new. */
  function Deliver(g: Graph, s: State, e: nat): (State, bool)
    requires g.Valid() && Shaped(g, s) && e < |g.edges| && s.wire[e] != []
  {
    var id, h := s.wire[e][0], g.edges[e].dst;
    var s1 := s.(wire := s.wire[e := s.wire[e][1..]]);
    if id in s.seen[h] then (s1, false)
    else
      (s1.(seen := s.seen[h := Remember(s.seen[h], id)],
           wire := Forward(g, s1.wire, h, Some(g.edges[e].owner), id, |g.edges|)),
       true)
  }

  // ---------------------------------------------------------------- runs

  datatype Action = Tag(host: nat) | Take(edge: nat)

  function Step(g: Graph, w: World, a: Action): World
    requires g.Valid() && Shaped(g, w.net)
  {
    match a
    case Tag(h) =>
      if h >= |g.hostIds| then w
      else
        var (net, id) := Originate(g, w.net, h);
        w.(net := net, issued := w.issued[id := Issue(h, net.counter[h])])
    case Take(e) =>
      if e >= |g.edges| || w.net.wire[e] == [] then w
      else
        var (net, isNew) := Deliver(g, w.net, e);
        World(net, w.issued, w.deliveries + 1,
              w.handled + (if isNew then [(g.edges[e].dst, w.net.wire[e][0])] else []))
  }

  function Run(g: Graph, actions: seq<Action>): (w: World)
    requires g.Valid()
    ensures Shaped(g, w.net)
  {
    if actions == [] then Empty(g)
    else Step(g, Run(g, actions[..|actions| - 1]), actions[|actions| - 1])
  }

  /** The number of tags a run issues. */
  function Tags(g: Graph, actions: seq<Action>): nat {
    if actions == [] then 0
    else
      var last := actions[|actions| - 1];
      Tags(g, actions[..|actions| - 1]) + (if last.Tag? && last.host < |g.hostIds| then 1 else 0)
  }

  /** The action adds a tag to a seen set that is full, which clears the set first. */
  predicate Clears(g: Graph, s: State, a: Action)
    requires g.Valid() && Shaped(g, s)
  {
    match a
    case Tag(h) => h < |g.hostIds| && |s.seen[h]| >= SEEN_LIMIT
    case Take(e) =>
      && e < |g.edges| && s.wire[e] != [] && s.wire[e][0] !in s.seen[g.edges[e].dst]
      && |s.seen[g.edges[e].dst]| >= SEEN_LIMIT
  }

  /** No action of the run clears a seen set. */
  predicate NoneCleared(g: Graph, actions: seq<Action>)
    requires g.Valid()
  {
    actions == []
    || (NoneCleared(g, actions[..|actions| - 1]) && !Clears(g, Run(g, actions[..|actions| - 1]).net, actions[|actions| - 1]))
  }

  // ---------------------------------------------------------------- the invariant

  /** A path of edges leads from Host `a` to Host `b`. */
  predicate Path(g: Graph, a: nat, b: nat, path: seq<nat>)
    decreases |path|
  {
    if path == [] then a == b
    else
      && path[|path| - 1] < |g.edges|
      && g.edges[path[|path| - 1]].dst == b
      && Path(g, a, g.edges[path[|path| - 1]].src, path[..|path| - 1])
  }

  ghost predicate Reaches(g: Graph, a: nat, b: nat) {
    exists path :: Path(g, a, b, path)
  }

  /** The issued tags are exactly the numbered ones. */
  ghost predicate Numbered(g: Graph, w: World)
    requires Shaped(g, w.net)
  {
    && (forall id | id in w.issued :: var i := w.issued[id];
          i.host < |g.hostIds| && 1 <= i.count <= w.net.counter[i.host] && id == g.name(i.host, i.count))
    && (forall h: nat, c: nat | h < |g.hostIds| && 1 <= c <= w.net.counter[h] :: g.name(h, c) in w.issued)
  }

  /** Tags are seen by their issuer, and only where a path from it leads. */
  ghost predicate Located(g: Graph, w: World)
    requires Shaped(g, w.net)
  {
    && (forall id | id in w.issued :: w.issued[id].host < |g.hostIds| && id in w.net.seen[w.issued[id].host])
    && (forall d: nat, id | d < |g.hostIds| && id in w.net.seen[d] :: id in w.issued && Reaches(g, w.issued[id].host, d))
  }

  /** A frame's sender has seen its tag, and what a sender has seen its neighbour has seen or will be told. */
  ghost predicate Frontier(g: Graph, s: State)
    requires g.Valid() && Shaped(g, s)
  {
    forall e: nat, id :: e < |g.edges| ==>
      && (id in s.wire[e] ==> id in s.seen[g.edges[e].src])
      && (id in s.seen[g.edges[e].src] ==> id in s.seen[g.edges[e].dst] || id in s.wire[e])
  }

  /** Each Host handles a tag at most once and never one of its own, and what it has seen is one or the other. */
  ghost predicate HandledOnce(g: Graph, w: World)
    requires g.Valid() && Shaped(g, w.net)
  {
    && (forall i, j :: 0 <= i < j < |w.handled| ==> w.handled[i] != w.handled[j])
    && (forall p :: p in w.handled ==> p.0 < |g.hostIds|)
    && (forall h: nat, id :: h < |g.hostIds| ==>
          (id in w.net.seen[h] <==> (h, id) in w.handled || (id in w.issued && w.issued[id].host == h)))
    && (forall p :: p in w.handled ==> p.1 in w.issued && w.issued[p.1].host != p.0)
  }

  /** Frames waiting on edge `e`, less one for every tag its sender has seen. */
  function Debt(g: Graph, s: State, e: nat): int
    requires g.Valid() && Shaped(g, s) && e < |g.edges|
  {
    |s.wire[e]| - |s.seen[g.edges[e].src]|
  }

  function Owed(g: Graph, s: State, n: nat): int
    requires g.Valid() && Shaped(g, s) && n <= |g.edges|
  {
    if n == 0 then 0 else Owed(g, s, n - 1) + Debt(g, s, n - 1)
  }

  function OnWire(s: State, n: nat): nat
    requires n <= |s.wire|
  {
    if n == 0 then 0 else OnWire(s, n - 1) + |s.wire[n - 1]|
  }

  /** Every frame ever written is paid for by an edge and a tag its sender has seen. */
  ghost predicate Paid(g: Graph, w: World)
    requires g.Valid() && Shaped(g, w.net)
  {
    w.deliveries + Owed(g, w.net, |g.edges|) <= 0
  }

  ghost predicate Inv(g: Graph, w: World)
    requires g.Valid()
  {
    Shaped(g, w.net) && Numbered(g, w) && Located(g, w) && Frontier(g, w.net) && HandledOnce(g, w) && Paid(g, w)
  }

  // ---------------------------------------------------------------- what one step does, point by point

  lemma OriginateAt(g: Graph, s: State, h: nat)
    requires g.Valid() && Shaped(g, s) && h < |g.hostIds| && |s.seen[h]| < SEEN_LIMIT
    ensures var (s', id) := Originate(g, s, h);
            && Shaped(g, s')
            && (forall d :: 0 <= d < |g.hostIds| ==> s'.seen[d] == if d == h then s.seen[d] + {id} else s.seen[d])
            && (forall d :: 0 <= d < |g.hostIds| ==> s'.counter[d] == if d == h then s.counter[d] + 1 else s.counter[d])
            && (forall e :: 0 <= e < |g.edges| ==> s'.wire[e] == if g.edges[e].src == h then s.wire[e] + [id] else s.wire[e])
  {
  }

  lemma DeliverAt(g: Graph, s: State, e: nat)
    requires g.Valid() && Shaped(g, s) && e < |g.edges| && s.wire[e] != []
    requires s.wire[e][0] !in s.seen[g.edges[e].dst] ==> |s.seen[g.edges[e].dst]| < SEEN_LIMIT
    requires s.wire[e][0] in s.seen[g.edges[e].src]
    ensures var (s', isNew) := Deliver(g, s, e);
            var id, h := s.wire[e][0], g.edges[e].dst;
            && Shaped(g, s') && s'.counter == s.counter
            && isNew == (id !in s.seen[h])
            && (forall d :: 0 <= d < |g.hostIds| ==> s'.seen[d] == if d == h then s.seen[d] + {id} else s.seen[d])
            && (forall f :: 0 <= f < |g.edges| ==>
                  s'.wire[f] == if f == e then s.wire[e][1..]
                                else if isNew && Forwards(g, h, Some(g.edges[e].owner), f) then s.wire[f] + [id]
                                else s.wire[f])
  {
    var id, h := s.wire[e][0], g.edges[e].dst;
    if id in s.seen[h] {
      assert s.seen[h] + {id} == s.seen[h];
    }
  }

  // ---------------------------------------------------------------- sums over edges

  lemma {:induction false} OwedDrops(g: Graph, s: State, s': State, e0: nat, n: nat)
    requires g.Valid() && Shaped(g, s) && Shaped(g, s') && n <= |g.edges|
    requires forall e :: 0 <= e < |g.edges| ==> Debt(g, s', e) <= Debt(g, s, e) - if e == e0 then 1 else 0
    ensures Owed(g, s', n) <= Owed(g, s, n) - if e0 < n then 1 else 0
  {
    if n > 0 { OwedDrops(g, s, s', e0, n - 1); }
  }

  lemma SubsetSize<T>(a: set<T>, b: set<T>)
    requires a <= b
    ensures |a| <= |b|
  {
    assert b == a + (b - a);
  }

  /** A Host's seen set is no larger than the number of tags, and smaller when a tag is missing. */
  lemma SeenSize(g: Graph, w: World, h: nat, id: Id)
    requires Shaped(g, w.net) && Located(g, w) && h < |g.hostIds|
    ensures |w.net.seen[h]| <= |w.issued|
    ensures id in w.issued && id !in w.net.seen[h] ==> |w.net.seen[h]| < |w.issued|
    ensures id !in w.issued ==> id !in w.net.seen[h]
  {
    hide Reaches;
    assert w.net.seen[h] <= w.issued.Keys;
    SubsetSize(w.net.seen[h], w.issued.Keys);
    if id in w.issued && id !in w.net.seen[h] {
      SubsetSize(w.net.seen[h], w.issued.Keys - {id});
    }
  }

  lemma {:induction false} OnWireWithinBudget(g: Graph, w: World, n: nat)
    requires g.Valid() && Shaped(g, w.net) && Located(g, w) && n <= |g.edges|
    ensures OnWire(w.net, n) <= Owed(g, w.net, n) + n * |w.issued|
  {
    if n > 0 {
      OnWireWithinBudget(g, w, n - 1);
      SeenSize(g, w, g.edges[n - 1].src, "");
      assert n * |w.issued| == (n - 1) * |w.issued| + |w.issued|;
    }
  }

  lemma {:induction false} NothingOwed(g: Graph, n: nat)
    requires g.Valid() && n <= |g.edges|
    ensures Owed(g, Empty(g).net, n) == 0
  {
    if n > 0 { NothingOwed(g, n - 1); }
  }

  // ---------------------------------------------------------------- paths

  lemma OwnPath(g: Graph, h: nat)
    ensures Reaches(g, h, h)
  {
    assert Path(g, h, h, []);
  }

  lemma LongerPath(g: Graph, a: nat, e: nat)
    requires e < |g.edges| && Reaches(g, a, g.edges[e].src)
    ensures Reaches(g, a, g.edges[e].dst)
  {
    var path :| Path(g, a, g.edges[e].src, path);
    assert (path + [e])[..|path + [e]| - 1] == path;
    assert Path(g, a, g.edges[e].dst, path + [e]);
  }

  // ---------------------------------------------------------------- steps

  /** A tag just built is new to every Host. */
  lemma TagIsNew(g: Graph, w: World, h: nat)
    requires g.UniqueNames() && Shaped(g, w.net) && Numbered(g, w) && h < |g.hostIds|
    ensures g.name(h, w.net.counter[h] + 1) !in w.issued
  {
  }

  lemma TagKeepsNumbered(g: Graph, w: World, h: nat)
    requires g.Valid() && g.UniqueNames() && Shaped(g, w.net) && Numbered(g, w) && h < |g.hostIds|
    ensures Numbered(g, Step(g, w, Tag(h)))
  {
    TagIsNew(g, w, h);
  }

  lemma TagKeepsLocated(g: Graph, w: World, h: nat)
    requires g.Valid() && Shaped(g, w.net) && Located(g, w) && h < |g.hostIds| && |w.net.seen[h]| < SEEN_LIMIT
    requires Originate(g, w.net, h).1 !in w.issued
    ensures Located(g, Step(g, w, Tag(h)))
  {
    hide Reaches, Originate;
    OriginateAt(g, w.net, h);
    OwnPath(g, h);
  }

  lemma TagKeepsFrontier(g: Graph, s: State, h: nat)
    requires g.Valid() && Shaped(g, s) && Frontier(g, s)
    requires h < |g.hostIds| && |s.seen[h]| < SEEN_LIMIT
    ensures Frontier(g, Originate(g, s, h).0)
  {
    hide Originate;
    OriginateAt(g, s, h);
  }

  lemma TagKeepsHandledOnce(g: Graph, w: World, h: nat)
    requires g.Valid() && Shaped(g, w.net) && HandledOnce(g, w)
    requires h < |g.hostIds| && |w.net.seen[h]| < SEEN_LIMIT
    requires Originate(g, w.net, h).1 !in w.issued
    ensures HandledOnce(g, Step(g, w, Tag(h)))
  {
    hide Originate;
    OriginateAt(g, w.net, h);
  }

  lemma TagDebt(g: Graph, s: State, h: nat, e: nat)
    requires g.Valid() && Shaped(g, s) && h < |g.hostIds| && e < |g.edges|
    requires |s.seen[h]| < SEEN_LIMIT && Originate(g, s, h).1 !in s.seen[h]
    ensures Debt(g, Originate(g, s, h).0, e) == Debt(g, s, e)
  {
    hide Originate;
    OriginateAt(g, s, h);
  }

  lemma TagKeepsPaid(g: Graph, w: World, h: nat)
    requires g.Valid() && Shaped(g, w.net) && Paid(g, w)
    requires h < |g.hostIds| && |w.net.seen[h]| < SEEN_LIMIT
    requires Originate(g, w.net, h).1 !in w.net.seen[h]
    ensures Paid(g, Step(g, w, Tag(h)))
  {
    hide Originate, Debt;
    OriginateAt(g, w.net, h);
    forall e | 0 <= e < |g.edges|
      ensures Debt(g, Originate(g, w.net, h).0, e) == Debt(g, w.net, e)
    {
      TagDebt(g, w.net, h, e);
    }
    OwedDrops(g, w.net, Originate(g, w.net, h).0, |g.edges|, |g.edges|);
  }

  lemma TakeKeepsNumbered(g: Graph, w: World, e: nat)
    requires g.Valid() && Shaped(g, w.net) && Numbered(g, w) && e < |g.edges| && w.net.wire[e] != []
    requires w.net.wire[e][0] !in w.net.seen[g.edges[e].dst] ==> |w.net.seen[g.edges[e].dst]| < SEEN_LIMIT
    requires w.net.wire[e][0] in w.net.seen[g.edges[e].src]
    ensures Numbered(g, Step(g, w, Take(e)))
  {
    hide Deliver;
    if w.net.wire[e] != [] {
      DeliverAt(g, w.net, e);
    }
  }

  lemma TakeKeepsLocated(g: Graph, w: World, e: nat)
    requires g.Valid() && Shaped(g, w.net) && Located(g, w)
    requires e < |g.edges| && w.net.wire[e] != [] && w.net.wire[e][0] in w.net.seen[g.edges[e].src]
    requires w.net.wire[e][0] !in w.net.seen[g.edges[e].dst] ==> |w.net.seen[g.edges[e].dst]| < SEEN_LIMIT
    ensures Located(g, Step(g, w, Take(e)))
  {
    hide Reaches, Deliver;
    var id, seen, w' := w.net.wire[e][0], w.net.seen, Step(g, w, Take(e));
    assert Shaped(g, w'.net) && w'.issued == w.issued
      && forall d :: 0 <= d < |g.hostIds| ==> w'.net.seen[d] == if d == g.edges[e].dst then seen[d] + {id} else seen[d] by {
      DeliverAt(g, w.net, e);
    }
    LongerPath(g, w.issued[id].host, e);
    hide Step;
    forall d: nat, i | d < |g.hostIds| && i in w'.net.seen[d]
      ensures i in w'.issued && Reaches(g, w'.issued[i].host, d)
    {
      assert i in seen[d] || (d == g.edges[e].dst && i == id);
    }
  }

  lemma TakeKeepsFrontier(g: Graph, s: State, e: nat)
    requires g.Valid() && Shaped(g, s) && Frontier(g, s)
    requires e < |g.edges| && s.wire[e] != []
    requires s.wire[e][0] !in s.seen[g.edges[e].dst] ==> |s.seen[g.edges[e].dst]| < SEEN_LIMIT
    ensures Frontier(g, Deliver(g, s, e).0)
  {
    hide Deliver;
    var id, d, s' := s.wire[e][0], g.edges[e].dst, Deliver(g, s, e).0;
    assert id in s.wire[e];
    DeliverAt(g, s, e);
    assert forall i :: i in s.wire[e] ==> i == id || i in s.wire[e][1..];
    forall f: nat, i | f < |g.edges|
      ensures i in s'.wire[f] ==> i in s'.seen[g.edges[f].src]
      ensures i in s'.seen[g.edges[f].src] ==> i in s'.seen[g.edges[f].dst] || i in s'.wire[f]
    {
      if id !in s.seen[d] && f != e && Forwards(g, d, Some(g.edges[e].owner), f) {
        assert id in s'.wire[f];
      }
    }
  }

  lemma TakeKeepsHandledOnce(g: Graph, w: World, e: nat)
    requires g.Valid() && Shaped(g, w.net) && HandledOnce(g, w)
    requires e < |g.edges| && w.net.wire[e] != []
    requires w.net.wire[e][0] !in w.net.seen[g.edges[e].dst] ==> |w.net.seen[g.edges[e].dst]| < SEEN_LIMIT
    requires w.net.wire[e][0] in w.net.seen[g.edges[e].src] && w.net.wire[e][0] in w.issued
    ensures HandledOnce(g, Step(g, w, Take(e)))
  {
    hide Deliver;
    DeliverAt(g, w.net, e);
  }

  lemma TakeDebt(g: Graph, s: State, e: nat, f: nat)
    requires g.Valid() && Shaped(g, s) && e < |g.edges| && s.wire[e] != [] && f < |g.edges|
    requires s.wire[e][0] in s.seen[g.edges[e].src]
    requires s.wire[e][0] !in s.seen[g.edges[e].dst] ==> |s.seen[g.edges[e].dst]| < SEEN_LIMIT
    ensures Debt(g, Deliver(g, s, e).0, f) <= Debt(g, s, f) - if f == e then 1 else 0
  {
    hide Deliver;
    DeliverAt(g, s, e);
    if s.wire[e][0] in s.seen[g.edges[e].dst] {
      assert s.seen[g.edges[e].dst] + {s.wire[e][0]} == s.seen[g.edges[e].dst];
    }
  }

  lemma TakeKeepsPaid(g: Graph, w: World, e: nat)
    requires g.Valid() && Shaped(g, w.net) && Paid(g, w)
    requires e < |g.edges| && w.net.wire[e] != []
    requires w.net.wire[e][0] in w.net.seen[g.edges[e].src]
    requires w.net.wire[e][0] !in w.net.seen[g.edges[e].dst] ==> |w.net.seen[g.edges[e].dst]| < SEEN_LIMIT
    ensures Paid(g, Step(g, w, Take(e)))
  {
    hide Deliver, Debt;
    var s := w.net;
    DeliverAt(g, s, e);
    forall f | 0 <= f < |g.edges|
      ensures Debt(g, Deliver(g, s, e).0, f) <= Debt(g, s, f) - if f == e then 1 else 0
    {
      TakeDebt(g, s, e, f);
    }
    OwedDrops(g, s, Deliver(g, s, e).0, e, |g.edges|);
  }

  lemma TagKeepsInv(g: Graph, w: World, h: nat)
    requires g.Valid() && g.UniqueNames() && Inv(g, w) && h < |g.hostIds| && !Clears(g, w.net, Tag(h))
    ensures Inv(g, Step(g, w, Tag(h)))
  {
    hide Numbered, Located, Frontier, HandledOnce, Paid;
    TagIsNew(g, w, h);
    SeenSize(g, w, h, g.name(h, w.net.counter[h] + 1));
    TagKeepsNumbered(g, w, h);
    TagKeepsLocated(g, w, h);
    TagKeepsFrontier(g, w.net, h);
    TagKeepsHandledOnce(g, w, h);
    TagKeepsPaid(g, w, h);
  }

  lemma TakeKeepsInv(g: Graph, w: World, e: nat)
    requires g.Valid() && Inv(g, w) && !Clears(g, w.net, Take(e))
    requires e < |g.edges| && w.net.wire[e] != []
    ensures Inv(g, Step(g, w, Take(e)))
  {
    var id := w.net.wire[e][0];
    assert id in w.net.wire[e] && id in w.net.seen[g.edges[e].src];
    hide Numbered, Located, Frontier, HandledOnce, Paid;
    SeenSize(g, w, g.edges[e].src, id);
    SeenSize(g, w, g.edges[e].dst, id);
    TakeKeepsNumbered(g, w, e);
    TakeKeepsLocated(g, w, e);
    TakeKeepsFrontier(g, w.net, e);
    TakeKeepsHandledOnce(g, w, e);
    TakeKeepsPaid(g, w, e);
  }

  lemma {:induction false} IssuedIsTags(g: Graph, actions: seq<Action>)
    requires g.Valid()
    ensures |Run(g, actions).issued| <= Tags(g, actions)
  {
    if actions != [] { IssuedIsTags(g, actions[..|actions| - 1]); }
  }

  /** The invariant of every run in which no seen set is cleared. */
  lemma {:induction false} RunKeepsInv(g: Graph, actions: seq<Action>)
    requires g.Valid() && g.UniqueNames() && NoneCleared(g, actions)
    ensures Inv(g, Run(g, actions))
  {
    if actions == [] {
      NothingOwed(g, |g.edges|);
    } else {
      var before, last := actions[..|actions| - 1], actions[|actions| - 1];
      var w := Run(g, before);
      RunKeepsInv(g, before);
      if last.Tag? && last.host < |g.hostIds| {
        TagKeepsInv(g, w, last.host);
      } else if last.Take? && last.edge < |g.edges| && w.net.wire[last.edge] != [] {
        TakeKeepsInv(g, w, last.edge);
      }
    }
  }

  /** As many tags as a seen set may hold are too few to clear one. */
  lemma {:induction false} FewTagsClearNothing(g: Graph, actions: seq<Action>)
    requires g.Valid() && g.UniqueNames() && Tags(g, actions) <= 10000
    ensures NoneCleared(g, actions)
  {
    if actions != [] {
      var before, last := actions[..|actions| - 1], actions[|actions| - 1];
      var w := Run(g, before);
      FewTagsClearNothing(g, before);
      RunKeepsInv(g, before);
      IssuedIsTags(g, before);
      hide Numbered, HandledOnce, Paid, Run;
      if last.Tag? && last.host < |g.hostIds| {
        SeenSize(g, w, last.host, "");
      } else if last.Take? && last.edge < |g.edges| && w.net.wire[last.edge] != [] {
        var id := w.net.wire[last.edge][0];
        assert id in w.net.wire[last.edge];
        SeenSize(g, w, g.edges[last.edge].src, id);
        SeenSize(g, w, g.edges[last.edge].dst, id);
      }
    }
  }

  // ---------------------------------------------------------------- the main results

  /** No Host handles a tag twice or handles a tag of its own. */
  lemma HandledAtMostOnce(g: Graph, actions: seq<Action>, i: nat, j: nat)
    requires g.Valid() && g.UniqueNames() && NoneCleared(g, actions)
    requires i < |Run(g, actions).handled| && j < |Run(g, actions).handled|
    ensures var w := Run(g, actions);
            && (w.handled[i] == w.handled[j] ==> i == j)
            && w.handled[i].1 in w.issued && w.issued[w.handled[i].1].host != w.handled[i].0
  {
    RunKeepsInv(g, actions);
    var w := Run(g, actions);
    assert w.handled[i] in w.handled;
  }

  /** Flooding terminates: all frames ever written number at most one per edge and tag. */
  lemma FramesAreBounded(g: Graph, actions: seq<Action>)
    requires g.Valid() && g.UniqueNames() && NoneCleared(g, actions)
    ensures var w := Run(g, actions);
            w.deliveries + OnWire(w.net, |g.edges|) <= |g.edges| * |w.issued|
  {
    RunKeepsInv(g, actions);
    OnWireWithinBudget(g, Run(g, actions), |g.edges|);
  }

  predicate Quiescent(s: State) {
    forall e :: 0 <= e < |s.wire| ==> s.wire[e] == []
  }

  lemma {:induction false} SeenAlongPath(g: Graph, s: State, id: Id, a: nat, b: nat, path: seq<nat>)
    requires g.Valid() && Shaped(g, s) && Frontier(g, s) && Quiescent(s)
    requires a < |g.hostIds| && b < |g.hostIds| && id in s.seen[a] && Path(g, a, b, path)
    ensures id in s.seen[b]
    decreases |path|
  {
    if path != [] {
      var e := path[|path| - 1];
      SeenAlongPath(g, s, id, a, g.edges[e].src, path[..|path| - 1]);
      assert s.wire[e] == [];
    }
  }

  /** Flooding is complete and exact: at quiescence a Host has seen a tag exactly when its issuer reaches the Host. */
  lemma QuiescentIsComplete(g: Graph, actions: seq<Action>, id: Id, h: nat)
    requires g.Valid() && g.UniqueNames() && NoneCleared(g, actions)
    requires Quiescent(Run(g, actions).net) && id in Run(g, actions).issued && h < |g.hostIds|
    ensures var w := Run(g, actions);
            id in w.net.seen[h] <==> Reaches(g, w.issued[id].host, h)
  {
    RunKeepsInv(g, actions);
    var w := Run(g, actions);
    if Reaches(g, w.issued[id].host, h) {
      var path :| Path(g, w.issued[id].host, h, path);
      SeenAlongPath(g, w.net, id, w.issued[id].host, h, path);
    }
  }

  /** Each counter value of each Host names its own tag, and each tag is some Host's. */
  lemma TagsAreNumbered(g: Graph, actions: seq<Action>, h: nat, c: nat)
    requires g.Valid() && g.UniqueNames() && NoneCleared(g, actions) && h < |g.hostIds|
    ensures var w := Run(g, actions);
            1 <= c <= w.net.counter[h] <==> (g.name(h, c) in w.issued && w.issued[g.name(h, c)] == Issue(h, c))
  {
    RunKeepsInv(g, actions);
  }

  /** The next tag of a Host was never issued, no Host has seen it and no frame carries it. */
  ghost predicate Unseen(g: Graph, w: World, id: Id)
    requires Shaped(g, w.net)
  {
    && id !in w.issued
    && (forall d: nat :: d < |g.hostIds| ==> id !in w.net.seen[d])
    && (forall e: nat :: e < |g.edges| ==> id !in w.net.wire[e])
  }

  lemma UnissuedIsUnseen(g: Graph, w: World, id: Id)
    requires g.Valid() && Shaped(g, w.net) && Located(g, w) && Frontier(g, w.net) && id !in w.issued
    ensures Unseen(g, w, id)
  {
    hide Reaches;
    forall e: nat | e < |g.edges| ensures id !in w.net.wire[e] {
      assert id !in w.net.seen[g.edges[e].src];
    }
  }

  /** The tag a Host issues next is one that nobody has seen and no link carries. */
  lemma NextTagIsUnseen(g: Graph, actions: seq<Action>, h: nat)
    requires g.Valid() && g.UniqueNames() && NoneCleared(g, actions) && h < |g.hostIds|
    ensures var w := Run(g, actions); Unseen(g, w, g.name(h, w.net.counter[h] + 1))
  {
    hide Run, Inv, Unseen, Originate, NoneCleared;
    RunKeepsInv(g, actions);
    NextIsUnseen(g, Run(g, actions), h);
  }

  lemma NextIsUnseen(g: Graph, w: World, h: nat)
    requires g.Valid() && g.UniqueNames() && Inv(g, w) && h < |g.hostIds|
    ensures Unseen(g, w, g.name(h, w.net.counter[h] + 1))
  {
    hide Located, Frontier, Unseen, HandledOnce, Paid;
    TagIsNew(g, w, h);
    UnissuedIsUnseen(g, w, g.name(h, w.net.counter[h] + 1));
  }

  // ---------------------------------------------------------------- the Hosts and their links

  /** The next frame of edge `e` holds a tag its receiver has neither issued nor handled. */
  predicate IsNews(g: Graph, w: World, e: nat)
    requires g.Valid() && Shaped(g, w.net) && e < |g.edges| && w.net.wire[e] != []
  {
    var h, id := g.edges[e].dst, w.net.wire[e][0];
    (h, id) !in w.handled && (id in w.issued ==> w.issued[id].host != h)
  }

  lemma EmptyInv(g: Graph)
    requires g.Valid()
    ensures Inv(g, Empty(g))
  {
    NothingOwed(g, |g.edges|);
  }

  lemma TagKeepsSafe(g: Graph, w: World, h: nat)
    requires g.Valid() && g.UniqueNames() && Inv(g, w) && h < |g.hostIds| && !Clears(g, w.net, Tag(h))
    ensures Inv(g, Step(g, w, Tag(h))) && Originate(g, w.net, h).1 !in w.issued
  {
    TagKeepsInv(g, w, h);
    hide Located, Frontier, HandledOnce, Paid;
    TagIsNew(g, w, h);
  }

  lemma TakeKeepsSafe(g: Graph, w: World, e: nat)
    requires g.Valid() && Inv(g, w) && e < |g.edges| && w.net.wire[e] != [] && !Clears(g, w.net, Take(e))
    ensures Inv(g, Step(g, w, Take(e))) && (Deliver(g, w.net, e).1 <==> IsNews(g, w, e))
  {
    TakeKeepsInv(g, w, e);
    hide Numbered, Located, Frontier, Paid;
  }

  /** The Hosts' seen sets and tag counters, and the route streams between them. */
  class Federation {
    const graph: Graph
    var seenIds: seq<set<Id>>
    var counters: seq<nat>
    var streams: seq<seq<Id>>
    ghost var issued: map<Id, Issue>
    ghost var deliveries: nat
    ghost var handled: seq<(nat, Id)>

    ghost predicate Valid()
      reads this
    {
      graph.Valid() && Shaped(graph, Abstract())
    }

    function Abstract(): State
      reads this
    {
      State(seenIds, counters, streams)
    }

    ghost function History(): World
      reads this
    {
      World(Abstract(), issued, deliveries, handled)
    }

    /** What the flooding promises holds of the history so far. */
    ghost predicate Safe()
      requires Valid()
      reads this
    {
      Inv(graph, History())
    }

    constructor (graph: Graph)
      requires graph.Valid()
      ensures Valid() && this.graph == graph && History() == Empty(graph) && Safe()
    {
      issued, deliveries, handled := map[], 0, [];
      this.graph := graph;
      seenIds := seq(|graph.hostIds|, _ => {});
      counters := seq(|graph.hostIds|, _ => 0);
      streams := seq(|graph.edges|, _ => []);
      new;
      EmptyInv(graph);
    }

    /** Records a tag at Host `h`, clearing the set first once it is full. */
    method Record(h: nat, id: Id)
      requires Valid() && h < |graph.hostIds|
      modifies this`seenIds
      ensures Valid() && seenIds == old(seenIds)[h := Remember(old(seenIds)[h], id)]
    {
      if |seenIds[h]| >= SEEN_LIMIT {
        seenIds := seenIds[h := {}];
      }
      seenIds := seenIds[h := seenIds[h] + {id}];
    }

    /** Writes a tag to every link of Host `h` except those to the excluded owner. */
    method ForwardExcluding(h: nat, excluded: Option<string>, id: Id)
      requires Valid() && h < |graph.hostIds|
      modifies this`streams
      ensures Valid() && streams == Forward(graph, old(streams), h, excluded, id, |graph.edges|)
    {
      for e := 0 to |graph.edges|
        invariant |streams| == |graph.edges|
        invariant streams == Forward(graph, old(streams), h, excluded, id, e)
      {
        if graph.edges[e].src == h && (excluded.None? || graph.hostIds[graph.edges[e].dst] != excluded.value) {
          streams := streams[e := streams[e] + [id]];
        }
      }
    }

    /** Tags an event of Host `h` and floods it. */
    method TagAndForward(h: nat) returns (id: Id)
      requires Valid() && h < |graph.hostIds|
      modifies this
      ensures Valid() && (Abstract(), id) == Originate(graph, old(Abstract()), h)
      ensures History() == Step(graph, old(History()), Tag(h))
      ensures old(Safe()) && graph.UniqueNames() && !Clears(graph, old(Abstract()), Tag(h)) ==> Safe() && id !in old(issued)
    {
      hide Inv;
      ghost var was := History();
      if Safe() && graph.UniqueNames() && !Clears(graph, Abstract(), Tag(h)) { TagKeepsSafe(graph, was, h); }
      id := graph.name(h, counters[h] + 1);
      Record(h, id);
      counters := counters[h := counters[h] + 1];
      ForwardExcluding(h, None, id);
      issued := issued[id := Issue(h, counters[h])];
    }

    /** Takes the next frame off edge `e` and handles it at the receiving Host. */
    method HandleNextFrame(e: nat) returns (processed: bool)
      requires Valid() && e < |graph.edges| && streams[e] != []
      modifies this
      ensures Valid() && (Abstract(), processed) == Deliver(graph, old(Abstract()), e)
      ensures History() == Step(graph, old(History()), Take(e))
      ensures old(Safe()) && !Clears(graph, old(Abstract()), Take(e)) ==>
                Safe() && (processed <==> IsNews(graph, old(History()), e))
    {
      hide Inv, Deliver, IsNews, Clears;
      ghost var was := History();
      if Safe() && !Clears(graph, Abstract(), Take(e)) { TakeKeepsSafe(graph, was, e); }
      processed := TakeFrame(e);
    }

    method TakeFrame(e: nat) returns (processed: bool)
      requires Valid() && e < |graph.edges| && streams[e] != []
      modifies this
      ensures Valid() && (Abstract(), processed) == Deliver(graph, old(Abstract()), e)
      ensures issued == old(issued) && deliveries == old(deliveries) + 1
      ensures handled == old(handled) + if processed then [(graph.edges[e].dst, old(streams[e][0]))] else []
    {
      deliveries := deliveries + 1;
      var id, h := streams[e][0], graph.edges[e].dst;
      streams := streams[e := streams[e][1..]];
      if id in seenIds[h] {
        return false;
      }
      Record(h, id);
      ForwardExcluding(h, Some(graph.edges[e].owner), id);
      handled := handled + [(h, id)];
      processed := true;
    }
  }
}
