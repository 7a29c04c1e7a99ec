// Federated routing tries a target's upstream candidates in order: the remote and the local loop.

module Candidates {
  import opened Prelude

  datatype Candidate = Candidate(domain: string, upstream: bool)

  /** What the environment answers while one candidate is tried. */
  datatype Answer = Answer(
    enabled: bool,              // an authorizer is configured
    source: Option<string>,     // the domain of the requesting Broker
    allowed: bool,              // the authorizer's decision
    active: seq<string>,        // the candidates' domains after the decision
    liveAfterHop: bool,         // the remote request is still there
    acquired: Option<nat>,      // the stream, if one was free
    liveAfterAcquire: bool,
    acquiredClosed: bool)

  datatype Hop = NotRequired | Allowed | Denied | RouteLost

  datatype Outcome =
    | Forwarded(index: nat, stream: nat)
    | Abandoned                 // the remote request is gone
    | NoSourceDomain            // the three errors
    | AuthorizationDenied
    | Unavailable
    | Ambiguous
    | NotFederated              // nobody upstream: the caller goes on elsewhere

  /** One request: its candidates and answers, its domain, and how domains are normalized. */
  datatype Request = Request(
    candidates: seq<Candidate>,
    answers: seq<Answer>,
    domain: Option<string>,     // the requested domain, normalized
    previous: Option<string>,   // the previous hop, when the caller knows it
    remote: bool,
    normalize: string -> string)

  ghost predicate Valid(r: Request) {
    |r.answers| == |r.candidates| && (r.remote ==> r.previous.None?)
  }

  // ---------------------------------------------------------------- one candidate

  predicate InDomains(domains: seq<string>, normalize: string -> string, domain: string) {
    exists i :: 0 <= i < |domains| && normalize(domains[i]) == domain
  }

  /** `evaluateFederationHop` */
  function EvaluateHop(a: Answer, previous: Option<string>, domain: string, normalize: string -> string): Hop {
    if !a.enabled then NotRequired
    else if previous.None? || normalize(previous.value) == "" then Denied
    else if !a.allowed then Denied
    else if InDomains(a.active, normalize, normalize(domain)) then Allowed
    else RouteLost
  }

  predicate Matches(r: Request, i: nat)
    requires i < |r.candidates|
  {
    r.candidates[i].upstream && (r.domain.None? || r.normalize(r.candidates[i].domain) == r.domain.value)
  }

  /** The first matching candidate up to i that met an authorizer is where the source's domain is looked up. */
  predicate LooksUp(r: Request, i: nat)
    requires |r.answers| == |r.candidates| && i < |r.candidates|
  {
    && r.previous.None? && Matches(r, i) && r.answers[i].enabled
    && forall j :: 0 <= j < i ==> !(Matches(r, j) && r.answers[j].enabled)
  }

  /** The previous hop as known when candidate i is evaluated. */
  function PreviousAt(r: Request, i: nat): Option<string>
    requires |r.answers| == |r.candidates| && i < |r.candidates|
  {
    if r.previous.Some? then r.previous
    else if LooksUp(r, i) then r.answers[i].source
    else if i == 0 then None
    else PreviousAt(r, i - 1)
  }

  function HopAt(r: Request, i: nat): Hop
    requires |r.answers| == |r.candidates| && i < |r.candidates|
  {
    EvaluateHop(r.answers[i], PreviousAt(r, i), r.candidates[i].domain, r.normalize)
  }

  predicate Passes(r: Request, i: nat)
    requires |r.answers| == |r.candidates| && i < |r.candidates|
  {
    HopAt(r, i).NotRequired? || HopAt(r, i).Allowed?
  }

  /** What trying candidate i ends the search with, if anything. */
  function StopAt(r: Request, i: nat): Option<Outcome>
    requires |r.answers| == |r.candidates| && i < |r.candidates|
  {
    var a := r.answers[i];
    if !Matches(r, i) then None
    else if LooksUp(r, i) && a.source.None? then Some(NoSourceDomain)
    else if r.remote && !a.liveAfterHop then Some(Abandoned)
    else if !Passes(r, i) then None
    else if r.remote && !a.liveAfterAcquire then Some(Abandoned)
    else if a.acquired.None? then None
    else Some(Forwarded(i, a.acquired.value))
  }

  // ---------------------------------------------------------------- the whole search

  /** Without a requested domain the upstream candidates must agree on one. */
  predicate IsAmbiguous(r: Request) {
    && r.domain.None?
    && exists i, j :: 0 <= i < j < |r.candidates| && r.candidates[i].upstream && r.candidates[j].upstream
                      && r.normalize(r.candidates[i].domain) != r.normalize(r.candidates[j].domain)
  }

  predicate AnyDenied(r: Request)
    requires |r.answers| == |r.candidates|
  {
    exists i :: 0 <= i < |r.candidates| && Matches(r, i) && HopAt(r, i).Denied?
  }

  predicate AnyMatch(r: Request) {
    exists i :: 0 <= i < |r.candidates| && Matches(r, i)
  }

  /** The search ends at k, the first candidate that ends it. */
  predicate FirstStop(r: Request, k: nat)
    requires |r.answers| == |r.candidates|
  {
    k < |r.candidates| && StopAt(r, k).Some? && forall j :: 0 <= j < k ==> StopAt(r, j).None?
  }

  predicate NeverStops(r: Request)
    requires |r.answers| == |r.candidates|
  {
    forall j :: 0 <= j < |r.candidates| ==> StopAt(r, j).None?
  }

  /** The outcome of a request, without the loop that finds it. */
  ghost predicate Is(r: Request, o: Outcome)
    requires |r.answers| == |r.candidates|
  {
    if IsAmbiguous(r) then o == Ambiguous
    else if NeverStops(r) then
      o == if AnyDenied(r) then AuthorizationDenied else if AnyMatch(r) then Unavailable else NotFederated
    else
      exists k: nat :: FirstStop(r, k) && StopAt(r, k) == Some(o)
  }

  /** Streams acquired in a search that got as far as candidate `last`. */
  predicate Acquired(r: Request, last: nat, i: nat)
    requires |r.answers| == |r.candidates|
  {
    i <= last && i < |r.candidates| && Matches(r, i) && Passes(r, i) && !(LooksUp(r, i) && r.answers[i].source.None?)
    && (r.remote ==> r.answers[i].liveAfterHop) && r.answers[i].acquired.Some?
  }

  // ---------------------------------------------------------------- the loop

  /** Only the candidate the search ended at can have given a stream. */
  lemma AcquiredAtTheEnd(r: Request, last: nat)
    requires Valid(r) && last <= |r.candidates| && forall j :: 0 <= j < last ==> StopAt(r, j).None?
    ensures forall i: nat :: Acquired(r, last, i) ==> i == last
  {
    forall i: nat | Acquired(r, last, i) ensures i == last {
      assert StopAt(r, i).Some?;
    }
  }

  predicate Matched(r: Request, n: nat)
    requires n <= |r.candidates|
  {
    exists j :: 0 <= j < n && Matches(r, j)
  }

  predicate DeniedSome(r: Request, n: nat)
    requires |r.answers| == |r.candidates| && n <= |r.candidates|
  {
    exists j :: 0 <= j < n && Matches(r, j) && HopAt(r, j).Denied?
  }

  predicate Resolved(r: Request, n: nat)
    requires |r.answers| == |r.candidates| && n <= |r.candidates|
  {
    r.previous.Some? || exists j :: 0 <= j < n && Matches(r, j) && r.answers[j].enabled
  }

  /** How one more candidate changes what the flags stand for. */
  lemma OneMore(r: Request, n: nat)
    requires Valid(r) && n < |r.candidates|
    ensures Matched(r, n + 1) == (Matched(r, n) || Matches(r, n))
    ensures DeniedSome(r, n + 1) == (DeniedSome(r, n) || (Matches(r, n) && HopAt(r, n).Denied?))
    ensures Resolved(r, n + 1) == (Resolved(r, n) || (Matches(r, n) && r.answers[n].enabled))
    ensures LooksUp(r, n) == (Matches(r, n) && r.answers[n].enabled && !Resolved(r, n))
    ensures PreviousAt(r, n) == if LooksUp(r, n) then r.answers[n].source else if n == 0 then r.previous else PreviousAt(r, n - 1)
  {}

  /** The loop for a remote Broker's request, which may be gone after either await. */
  method RouteRemote(r: Request) returns (o: Outcome, closed: seq<nat>, ghost last: nat)
    requires Valid(r) && r.remote
    ensures Is(r, o)
    ensures !IsAmbiguous(r) ==> (last < |r.candidates| && FirstStop(r, last)) || (last == |r.candidates| && NeverStops(r))
    ensures !IsAmbiguous(r) ==>
              forall i: nat | Acquired(r, last, i) ::
                || o == Forwarded(i, r.answers[i].acquired.value)
                || r.answers[i].acquired.value in closed
                || r.answers[i].acquiredClosed
    ensures o.Forwarded? || IsAmbiguous(r) ==> closed == []
  {
    closed, last := [], |r.candidates|;
    if r.domain.None? {
      var clash := FindClash(r);
      if clash { return Ambiguous, [], 0; }
    }
    assert !IsAmbiguous(r);
    hide IsAmbiguous, Matched, DeniedSome, Resolved, LooksUp, PreviousAt, EvaluateHop, AnyMatch, AnyDenied;
    assert !Matched(r, 0) && !DeniedSome(r, 0) && (Resolved(r, 0) <==> r.previous.Some?) by { NoneYet(r); }
    var hadUpstreamCandidate, hadDeniedCandidate := false, false;
    var previous: Option<string> := None;
    var resolved := false;
    for n := 0 to |r.candidates|
      invariant forall j :: 0 <= j < n ==> StopAt(r, j).None?
      invariant hadUpstreamCandidate == Matched(r, n)
      invariant hadDeniedCandidate == DeniedSome(r, n)
      invariant resolved == Resolved(r, n)
      invariant previous == if n == 0 then r.previous else PreviousAt(r, n - 1)
      invariant closed == [] && last == |r.candidates|
    {
      hide StopAt, HopAt, Passes, Acquired, Matches, PreviousAt;
      OneMore(r, n);
      var stop, denied, ended;
      stop, denied, ended, previous, resolved := TryRemote(r, n, previous, resolved);
      if stop.Some? {
        assert FirstStop(r, n) && StopAt(r, n) == stop;
        EndsWell(r, n, ended);
        return stop.value, ended, n;
      }
      hadUpstreamCandidate := hadUpstreamCandidate || Matches(r, n);
      hadDeniedCandidate := hadDeniedCandidate || denied;
    }
    AcquiredAtTheEnd(r, |r.candidates|);
    AllSeen(r);
    o := if hadDeniedCandidate then AuthorizationDenied else if hadUpstreamCandidate then Unavailable else NotFederated;
  }

  /** The streams to close when the search ends at n. */
  predicate ClosedAt(r: Request, n: nat, closed: seq<nat>)
    requires |r.answers| == |r.candidates| && n < |r.candidates|
  {
    var a := r.answers[n];
    closed == if StopAt(r, n) == Some(Abandoned) && Acquired(r, n, n) && !a.acquiredClosed then [a.acquired.value] else []
  }

  lemma EndsWell(r: Request, n: nat, closed: seq<nat>)
    requires Valid(r) && FirstStop(r, n) && ClosedAt(r, n, closed)
    ensures forall i: nat | Acquired(r, n, i) ::
              || StopAt(r, n) == Some(Forwarded(i, r.answers[i].acquired.value))
              || r.answers[i].acquired.value in closed
              || r.answers[i].acquiredClosed
    ensures StopAt(r, n).value.Forwarded? ==> closed == []
  {
    AcquiredAtTheEnd(r, n);
  }

  /** One turn of the loop: whether the search ends, whether the hop was denied, and what is to be closed. */
  method TryRemote(r: Request, n: nat, known: Option<string>, wasResolved: bool)
    returns (stop: Option<Outcome>, denied: bool, closed: seq<nat>, previous: Option<string>, resolved: bool)
    requires Valid(r) && r.remote && n < |r.candidates|
    requires wasResolved == Resolved(r, n) && known == if n == 0 then r.previous else PreviousAt(r, n - 1)
    ensures stop == StopAt(r, n) && (stop.None? ==> denied == (Matches(r, n) && HopAt(r, n).Denied?))
    ensures ClosedAt(r, n, closed)
    ensures previous == PreviousAt(r, n) && resolved == Resolved(r, n + 1)
  {
    OneMore(r, n);
    hide Resolved, LooksUp, PreviousAt, EvaluateHop;
    stop, denied, closed, previous, resolved := None, false, [], known, wasResolved;
    var candidate, a := r.candidates[n], r.answers[n];
    if !Matches(r, n) { return; }
    if a.enabled && !resolved {
      resolved, previous := true, a.source;
      if previous.None? { return Some(NoSourceDomain), false, [], previous, resolved; }
    }
    var hop := EvaluateHop(a, previous, candidate.domain, r.normalize);
    if !a.liveAfterHop { return Some(Abandoned), false, [], previous, resolved; }
    if hop.Denied? || hop.RouteLost? {
      denied := hop.Denied?;
      return;
    }
    if !a.liveAfterAcquire {
      closed := if a.acquired.Some? && !a.acquiredClosed then [a.acquired.value] else [];
      return Some(Abandoned), false, closed, previous, resolved;
    }
    if a.acquired.Some? { stop := Some(Forwarded(n, a.acquired.value)); }
  }

  /** The loop for a request of a local Broker, which may name its previous hop. */
  method RouteLocal(r: Request) returns (o: Outcome)
    requires Valid(r) && !r.remote
    ensures Is(r, o) && !o.Abandoned?
  {
    if r.domain.None? {
      var clash := FindClash(r);
      if clash { return Ambiguous; }
    }
    assert !IsAmbiguous(r);
    hide IsAmbiguous, Matched, DeniedSome, Resolved, LooksUp, PreviousAt, EvaluateHop, AnyMatch, AnyDenied;
    NoneYet(r);
    var hadUpstreamCandidate, hadDeniedCandidate := false, false;
    var previousHopDomain, hopDomainResolved := r.previous, r.previous.Some?;
    for n := 0 to |r.candidates|
      invariant forall j :: 0 <= j < n ==> StopAt(r, j).None?
      invariant hadUpstreamCandidate == Matched(r, n)
      invariant hadDeniedCandidate == DeniedSome(r, n)
      invariant hopDomainResolved == Resolved(r, n)
      invariant previousHopDomain == if n == 0 then r.previous else PreviousAt(r, n - 1)
    {
      var candidate, a := r.candidates[n], r.answers[n];
      OneMore(r, n);
      var matches := candidate.upstream && (r.domain.None? || r.normalize(candidate.domain) == r.domain.value);
      if matches {
        hadUpstreamCandidate := true;
        if a.enabled && !hopDomainResolved {
          hopDomainResolved, previousHopDomain := true, a.source;
          if previousHopDomain.None? {
            assert FirstStop(r, n) && StopAt(r, n) == Some(NoSourceDomain);
            return NoSourceDomain;
          }
        }
        var hop := EvaluateHop(a, previousHopDomain, candidate.domain, r.normalize);
        assert hop == HopAt(r, n);
        if hop.Denied? || hop.RouteLost? {
          hadDeniedCandidate := hadDeniedCandidate || hop.Denied?;
        } else if a.acquired.Some? {
          assert FirstStop(r, n) && StopAt(r, n) == Some(Forwarded(n, a.acquired.value));
          return Forwarded(n, a.acquired.value);
        }
      }
    }
    AllSeen(r);
    o := if hadDeniedCandidate then AuthorizationDenied else if hadUpstreamCandidate then Unavailable else NotFederated;
  }

  lemma NoneYet(r: Request)
    requires Valid(r)
    ensures !Matched(r, 0) && !DeniedSome(r, 0) && (Resolved(r, 0) <==> r.previous.Some?)
  {}

  lemma AllSeen(r: Request)
    requires Valid(r)
    ensures Matched(r, |r.candidates|) == AnyMatch(r) && DeniedSome(r, |r.candidates|) == AnyDenied(r)
  {}

  /** Whether two upstream candidates have different normalized domains. */
  method FindClash(r: Request) returns (clash: bool)
    requires r.domain.None?
    ensures clash <==> IsAmbiguous(r)
  {
    var first: Option<string> := None;
    ghost var at: nat := 0;
    for n := 0 to |r.candidates|
      invariant first.None? ==> forall j :: 0 <= j < n ==> !r.candidates[j].upstream
      invariant first.Some? ==> at < n && r.candidates[at].upstream && first.value == r.normalize(r.candidates[at].domain)
      invariant first.Some? ==> forall j :: 0 <= j < n && r.candidates[j].upstream ==> r.normalize(r.candidates[j].domain) == first.value
      invariant first.Some? ==> forall j :: 0 <= j < at ==> !r.candidates[j].upstream
    {
      if r.candidates[n].upstream {
        var domain := r.normalize(r.candidates[n].domain);
        if first.None? { first, at := Some(domain), n; }
        else if first.value != domain {
          assert r.candidates[at].upstream && r.candidates[n].upstream;
          return true;
        }
      }
    }
    return false;
  }

  // ---------------------------------------------------------------- what it means

  /** There is one outcome. */
  lemma OutcomeIsUnique(r: Request, o: Outcome, p: Outcome)
    requires Valid(r) && Is(r, o) && Is(r, p)
    ensures o == p
  {
    if !IsAmbiguous(r) && !NeverStops(r) {
      var k: nat :| FirstStop(r, k) && StopAt(r, k) == Some(o);
      var l: nat :| FirstStop(r, l) && StopAt(r, l) == Some(p);
      assert k == l;
    }
  }

  /**
   * A request is forwarded on the first matching candidate that passed and gave a stream;
   * if an authorizer was there, it allowed the hop from a known domain, and the route was
   * still active after its decision.
   */
  lemma ForwardedOnFirstEligible(r: Request, k: nat, stream: nat)
    requires Valid(r) && Is(r, Forwarded(k, stream))
    ensures k < |r.candidates| && Matches(r, k) && r.answers[k].acquired == Some(stream)
    ensures forall j :: 0 <= j < k && Matches(r, j) ==> !Passes(r, j) || r.answers[j].acquired.None?
    ensures r.answers[k].enabled ==>
              && r.answers[k].allowed && PreviousAt(r, k).Some? && r.normalize(PreviousAt(r, k).value) != ""
              && InDomains(r.answers[k].active, r.normalize, r.normalize(r.candidates[k].domain))
    ensures r.remote ==> r.answers[k].liveAfterHop && r.answers[k].liveAfterAcquire
  {
    var i: nat :| FirstStop(r, i) && StopAt(r, i) == Some(Forwarded(k, stream));
    forall j | 0 <= j < k && Matches(r, j) ensures !Passes(r, j) || r.answers[j].acquired.None? {
      assert StopAt(r, j).None?;
    }
  }

  /** The request with nothing changed but who asks. */
  function AsLocal(r: Request): Request {
    r.(remote := false)
  }

  predicate LivesOn(r: Request) {
    forall i :: 0 <= i < |r.answers| ==> r.answers[i].liveAfterHop && r.answers[i].liveAfterAcquire
  }

  lemma {:induction false} SamePrevious(r: Request, i: nat)
    requires |r.answers| == |r.candidates| && i < |r.candidates|
    ensures PreviousAt(AsLocal(r), i) == PreviousAt(r, i)
  {
    assert LooksUp(AsLocal(r), i) == LooksUp(r, i) by {
      assert forall j :: 0 <= j < |r.candidates| ==> Matches(AsLocal(r), j) == Matches(r, j);
    }
    if i > 0 { SamePrevious(r, i - 1); }
  }

  lemma SameOutcomes(r: Request, o: Outcome)
    requires Valid(r) && LivesOn(r)
    ensures Is(r, o) <==> Is(AsLocal(r), o)
  {
    var l := AsLocal(r);
    forall i | 0 <= i < |r.candidates|
      ensures Matches(l, i) == Matches(r, i) && HopAt(l, i) == HopAt(r, i) && StopAt(l, i) == StopAt(r, i)
    {
      SamePrevious(r, i);
      assert forall j :: 0 <= j < |r.candidates| ==> Matches(l, j) == Matches(r, j);
      assert LooksUp(l, i) == LooksUp(r, i);
    }
    assert IsAmbiguous(l) == IsAmbiguous(r) && NeverStops(l) == NeverStops(r);
    assert AnyDenied(l) == AnyDenied(r) && AnyMatch(l) == AnyMatch(r);
    assert forall k: nat :: FirstStop(l, k) == FirstStop(r, k);
  }

  /** While the remote request lives, the remote and the local loop end alike. */
  lemma LoopsAgree(r: Request, o: Outcome, p: Outcome)
    requires Valid(r) && r.remote && LivesOn(r)
    requires Is(r, o) && Is(AsLocal(r), p)
    ensures o == p
  {
    hide Is;
    SameOutcomes(r, o);
    OutcomeIsUnique(AsLocal(r), o, p);
  }

  /** The denied error needs one denial only; the unavailable one that no candidate was denied. */
  lemma DeniedByOne(r: Request)
    requires Valid(r) && !IsAmbiguous(r) && NeverStops(r)
    ensures Is(r, AuthorizationDenied) <==> AnyDenied(r)
    ensures Is(r, Unavailable) <==>
              AnyMatch(r) && forall i :: 0 <= i < |r.candidates| && Matches(r, i) ==> HopAt(r, i).RouteLost? || (Passes(r, i) && r.answers[i].acquired.None?)
  {
    if AnyMatch(r) && !AnyDenied(r) {
      forall i | 0 <= i < |r.candidates| && Matches(r, i) ensures HopAt(r, i).RouteLost? || (Passes(r, i) && r.answers[i].acquired.None?) {
        assert StopAt(r, i).None?;
      }
    }
  }
}
