// Where each frame of a flooded event goes, over the links themselves: to which links a
// delivery and an event of a Host's own are written, and to which they are not. Over whole
// runs, no link loses a frame, each frame taken off a link counts as one delivery, and what
// is handled are the arrivals that are new.

module FloodLaws {
  import opened Flooding

  /** What one delivery does to a link: the frame is taken off its own, and a new tag goes to every link of the receiver but those back to whom it came from. */
  lemma DeliveryGoesExactly(g: Graph, w: World, e: nat, x: nat)
    requires g.Valid() && Shaped(g, w.net) && e < |g.edges| && w.net.wire[e] != [] && x < |g.edges|
    ensures var id, h := w.net.wire[e][0], g.edges[e].dst;
            var left := if x == e then w.net.wire[x][1..] else w.net.wire[x];
            var goes := id !in w.net.seen[h] && g.edges[x].src == h && g.hostIds[g.edges[x].dst] != g.edges[e].owner;
            Step(g, w, Take(e)).net.wire[x] == if goes then left + [id] else left
  {}

  /** An own event goes to every link of its Host, once, and to no other. */
  lemma OwnEventGoesExactly(g: Graph, w: World, h: nat, x: nat)
    requires g.Valid() && Shaped(g, w.net) && h < |g.hostIds| && x < |g.edges|
    ensures Step(g, w, Tag(h)).net.wire[x]
         == if g.edges[x].src == h then w.net.wire[x] + [g.name(h, w.net.counter[h] + 1)] else w.net.wire[x]
  {}

  /** The action takes the tag off the link. */
  predicate Takes(g: Graph, s: State, a: Action, x: nat, id: Id)
    requires g.Valid() && Shaped(g, s) && x < |g.edges|
  {
    a == Take(x) && s.wire[x] != [] && s.wire[x][0] == id
  }

  /** It writes the tag to the link: the sender issues it, or handles it off a link from somebody else. */
  predicate Writes(g: Graph, s: State, a: Action, x: nat, id: Id)
    requires g.Valid() && Shaped(g, s) && x < |g.edges|
  {
    match a
    case Tag(h) => h < |g.hostIds| && g.edges[x].src == h && g.name(h, s.counter[h] + 1) == id
    case Take(e) =>
      && e < |g.edges| && s.wire[e] != [] && s.wire[e][0] == id && id !in s.seen[g.edges[e].dst]
      && g.edges[x].src == g.edges[e].dst && g.hostIds[g.edges[x].dst] != g.edges[e].owner
  }

  /** How often a tag has been taken off a link. */
  function TakenOff(g: Graph, actions: seq<Action>, x: nat, id: Id): nat
    requires g.Valid() && x < |g.edges|
  {
    if actions == [] then 0
    else
      var before := actions[..|actions| - 1];
      TakenOff(g, before, x, id) + (if Takes(g, Run(g, before).net, actions[|actions| - 1], x, id) then 1 else 0)
  }

  function Count(ids: seq<Id>, id: Id): nat {
    if ids == [] then 0 else (if ids[0] == id then 1 else 0) + Count(ids[1..], id)
  }

  lemma {:induction false} CountAppend(ids: seq<Id>, more: Id, id: Id)
    ensures Count(ids + [more], id) == Count(ids, id) + (if more == id then 1 else 0)
  {
    if ids != [] {
      assert (ids + [more])[1..] == ids[1..] + [more];
      CountAppend(ids[1..], more, id);
    }
  }

  /** How often it has been written to one. */
  function WrittenTo(g: Graph, actions: seq<Action>, x: nat, id: Id): nat
    requires g.Valid() && x < |g.edges|
  {
    if actions == [] then 0
    else
      var before := actions[..|actions| - 1];
      WrittenTo(g, before, x, id) + (if Writes(g, Run(g, before).net, actions[|actions| - 1], x, id) then 1 else 0)
  }

  lemma StepLosesNothing(g: Graph, w: World, a: Action, x: nat, id: Id)
    requires g.Valid() && Shaped(g, w.net) && x < |g.edges|
    ensures Count(w.net.wire[x], id) + (if Writes(g, w.net, a, x, id) then 1 else 0)
         == Count(Step(g, w, a).net.wire[x], id) + (if Takes(g, w.net, a, x, id) then 1 else 0)
  {
    match a
    case Tag(h) =>
      if h < |g.hostIds| {
        OwnEventGoesExactly(g, w, h, x);
        hide Step;
        CountAppend(w.net.wire[x], g.name(h, w.net.counter[h] + 1), id);
      }
    case Take(e) =>
      if e < |g.edges| && w.net.wire[e] != [] {
        DeliveryGoesExactly(g, w, e, x);
        hide Step;
        CountAppend(if x == e then w.net.wire[x][1..] else w.net.wire[x], w.net.wire[e][0], id);
      }
  }

  /** Over any run: what was written to a link was taken off it, or is on it still. */
  lemma {:induction false} LinksLoseNothing(g: Graph, actions: seq<Action>, x: nat, id: Id)
    requires g.Valid() && x < |g.edges|
    ensures WrittenTo(g, actions, x, id) == TakenOff(g, actions, x, id) + Count(Run(g, actions).net.wire[x], id)
  {
    hide Step, Writes, Takes;
    if actions != [] {
      var before, a := actions[..|actions| - 1], actions[|actions| - 1];
      LinksLoseNothing(g, before, x, id);
      StepLosesNothing(g, Run(g, before), a, x, id);
    }
  }

  /** The Host and the tag of the frame an action takes off its link, if there is one. */
  function Arrival(g: Graph, s: State, a: Action): seq<(nat, Id)>
    requires g.Valid() && Shaped(g, s)
  {
    if a.Take? && a.edge < |g.edges| && s.wire[a.edge] != [] then [(g.edges[a.edge].dst, s.wire[a.edge][0])] else []
  }

  /** All arrivals of a run, and those of tags the Host did not remember then. */
  function Arrivals(g: Graph, actions: seq<Action>): seq<(nat, Id)>
    requires g.Valid()
  {
    if actions == [] then []
    else
      var before := actions[..|actions| - 1];
      Arrivals(g, before) + Arrival(g, Run(g, before).net, actions[|actions| - 1])
  }

  function NewArrivals(g: Graph, actions: seq<Action>): seq<(nat, Id)>
    requires g.Valid()
  {
    if actions == [] then []
    else
      var before := actions[..|actions| - 1];
      var s := Run(g, before).net;
      var a := Arrival(g, s, actions[|actions| - 1]);
      NewArrivals(g, before) + (if a != [] && a[0].1 !in s.seen[a[0].0] then a else [])
  }

  /** Over any run each arrival counts as one delivery, and what was handled are the new arrivals, in order. */
  lemma {:induction false} ArrivalsAreCounted(g: Graph, actions: seq<Action>)
    requires g.Valid()
    ensures Run(g, actions).deliveries == |Arrivals(g, actions)| && Run(g, actions).handled == NewArrivals(g, actions)
  {
    if actions != [] {
      ArrivalsAreCounted(g, actions[..|actions| - 1]);
      hide Run;
      ArrivalIsCounted(g, Run(g, actions[..|actions| - 1]), actions[|actions| - 1]);
      assert Run(g, actions) == Step(g, Run(g, actions[..|actions| - 1]), actions[|actions| - 1]) by { RunSteps(g, actions); }
      hide Step, Arrival;
    }
  }

  lemma RunSteps(g: Graph, actions: seq<Action>)
    requires g.Valid() && actions != []
    ensures Run(g, actions) == Step(g, Run(g, actions[..|actions| - 1]), actions[|actions| - 1])
  {}

  lemma ArrivalIsCounted(g: Graph, w: World, a: Action)
    requires g.Valid() && Shaped(g, w.net)
    ensures var t, x := Step(g, w, a), Arrival(g, w.net, a);
            && t.deliveries == w.deliveries + |x|
            && t.handled == w.handled + (if x != [] && x[0].1 !in w.net.seen[x[0].0] then x else [])
  {
    hide Forward;
    assert w.handled + [] == w.handled;
  }
}
